/** User balances and the transaction rows behind them. */
module Ledger {
  import opened GoText
  import opened Dimacs
  import opened ShardFile

  const WORKER_PENALTY: int := 10_000
  const MIN_WORKER_BALANCE: int := WORKER_PENALTY
  const REWARD_PER_VAR: int := 10
  const REWARD_PER_CLAUSE: int := 1

  /** The job_id and shard_id of a row's metadata, where it has them. */
  datatype Meta = NoMeta | About(jobId: int, shardId: int)

  datatype Row = Row(userId: int, amount: int, reason: string, meta: Meta)

  /** Tables `users` (balance column) and `transactions`. */
  datatype Book = Book(balance: map<int, int>, rows: seq<Row>)

  datatype Outcome = Committed | Insufficient | Failed

  function Neg64(n: int): int {
    ToInt64(-n)
  }

  /** The users.balance_satc column: BIGINT, CHECK (balance_satc >= 0). */
  predicate Fits(amount: int) {
    0 <= amount <= MAX_INT64
  }

  /** One user's balance moved by `delta`, with its row; None where the transaction fails. */
  function Change(b: Book, userId: int, delta: int, reason: string, meta: Meta): Option<Book> {
    if userId in b.balance && Fits(b.balance[userId] + delta) then
      Some(Book(b.balance[userId := b.balance[userId] + delta], b.rows + [Row(userId, delta, reason, meta)]))
    else None
  }

  /** `amount` moved between two users, with a row for each; None where the transaction fails. */
  function Transfer(b: Book, payer: int, payee: int, amount: int, reason: string, meta: Meta): Option<Book> {
    var debit := Change(b, payer, -amount, reason + "_debit", meta);
    if amount <= 0 || debit.None? then None
    else Change(debit.value, payee, amount, reason + "_credit", meta)
  }

  // ---- The tables, updated in place ----

  class Accounts {
    var balance: map<int, int>
    var rows: seq<Row>

    ghost function View(): Book
      reads this
    {
      Book(balance, rows)
    }

    constructor ()
      ensures View() == Book(map[], [])
    {
      balance, rows := map[], [];
    }

    method AddUser(userId: int)
      requires userId !in balance
      modifies this`balance
      ensures balance == old(balance)[userId := 0]
    {
      balance := balance[userId := 0];
    }

    /** Shared by the scheduler and the wallet handlers. The transaction works on copies
        that `Commit` stores and a rollback forgets. */
    method ChangeUserBalance(userId: int, delta: int, reason: string, meta: Meta, dbOk: bool)
      returns (outcome: Outcome)
      requires MIN_INT64 <= delta <= MAX_INT64
      requires forall u :: u in balance ==> Fits(balance[u])
      modifies this
      ensures outcome == Committed <==> dbOk && Change(old(View()), userId, delta, reason, meta).Some?
      ensures outcome == Committed ==> Some(View()) == Change(old(View()), userId, delta, reason, meta)
      ensures outcome == Insufficient <==>
              dbOk && delta < 0 && !(userId in old(balance) && old(balance[userId]) >= Neg64(delta))
      ensures outcome != Committed ==> View() == old(View())
    {
      if !dbOk {
        return Failed;
      }
      var users := balance;
      if delta < 0 {
        if userId in users && users[userId] >= Neg64(delta) {
          if !Fits(users[userId] + delta) {
            return Failed;
          }
          users := users[userId := users[userId] + delta];
        } else {
          return Insufficient;
        }
      } else if userId in users {
        if !Fits(users[userId] + delta) {
          return Failed;
        }
        users := users[userId := users[userId] + delta];
      }
      if userId !in users {
        return Failed;
      }
      balance, rows := users, rows + [Row(userId, delta, reason, meta)];
      return Committed;
    }

    method TransferUserBalance(fromUser: int, toUser: int, amount: int, reason: string, meta: Meta, dbOk: bool)
      returns (outcome: Outcome)
      requires MIN_INT64 <= amount <= MAX_INT64
      requires forall u :: u in balance ==> Fits(balance[u])
      modifies this
      ensures outcome == Committed <==> dbOk && Transfer(old(View()), fromUser, toUser, amount, reason, meta).Some?
      ensures outcome == Committed ==> Some(View()) == Transfer(old(View()), fromUser, toUser, amount, reason, meta)
      ensures outcome == Insufficient <==>
              dbOk && amount > 0 && !(fromUser in old(balance) && old(balance[fromUser]) >= amount)
      ensures outcome != Committed ==> View() == old(View())
    {
      if amount <= 0 || !dbOk {
        return Failed;
      }
      var users := balance;
      if fromUser in users && users[fromUser] >= amount {
        users := users[fromUser := users[fromUser] - amount];
      } else {
        return Insufficient;
      }
      if toUser in users {
        if !Fits(users[toUser] + amount) {
          return Failed;
        }
        users := users[toUser := users[toUser] + amount];
      }
      if fromUser !in users {
        return Failed;
      }
      var added := rows + [Row(fromUser, -amount, reason + "_debit", meta)];
      if toUser !in users {
        return Failed;
      }
      added := added + [Row(toUser, amount, reason + "_credit", meta)];
      balance, rows := users, added;
      return Committed;
    }
  }

  // ---- The invariant ----

  function Sum(rows: seq<Row>, userId: int): int {
    if rows == [] then 0
    else Sum(rows[..|rows| - 1], userId) + if rows[|rows| - 1].userId == userId then rows[|rows| - 1].amount else 0
  }

  /** Every balance is the sum of its user's rows and is never negative; rows belong to users. */
  predicate Balanced(b: Book) {
    && (forall u :: u in b.balance ==> Fits(b.balance[u]) && b.balance[u] == Sum(b.rows, u))
    && (forall i :: 0 <= i < |b.rows| ==> b.rows[i].userId in b.balance)
  }

  lemma SumSnoc(rows: seq<Row>, row: Row, u: int)
    ensures Sum(rows + [row], u) == Sum(rows, u) + if row.userId == u then row.amount else 0
  {
    assert (rows + [row])[..|rows|] == rows;
  }

  lemma ChangeKeepsBalanced(b: Book, userId: int, delta: int, reason: string, meta: Meta)
    requires Balanced(b)
    ensures var c := Change(b, userId, delta, reason, meta); c.Some? ==> Balanced(c.value)
  {
    forall u ensures Sum(b.rows + [Row(userId, delta, reason, meta)], u)
                  == Sum(b.rows, u) + if userId == u then delta else 0 {
      SumSnoc(b.rows, Row(userId, delta, reason, meta), u);
    }
    hide Sum;
  }

  lemma TransferKeepsBalanced(b: Book, payer: int, payee: int, amount: int, reason: string, meta: Meta)
    requires Balanced(b)
    ensures var c := Transfer(b, payer, payee, amount, reason, meta); c.Some? ==> Balanced(c.value)
  {
    hide Balanced;
    var debit := Change(b, payer, -amount, reason + "_debit", meta);
    ChangeKeepsBalanced(b, payer, -amount, reason + "_debit", meta);
    if debit.Some? {
      ChangeKeepsBalanced(debit.value, payee, amount, reason + "_credit", meta);
    }
  }

  lemma {:induction false} NoRowsNoSum(rows: seq<Row>, u: int)
    requires forall i :: 0 <= i < |rows| ==> rows[i].userId != u
    ensures Sum(rows, u) == 0
  {
    if rows != [] {
      NoRowsNoSum(rows[..|rows| - 1], u);
    }
  }

  /** A new account starts at zero. */
  lemma NewUserKeepsBalanced(b: Book, userId: int)
    requires Balanced(b) && userId !in b.balance
    ensures Balanced(b.(balance := b.balance[userId := 0]))
  {
    NoRowsNoSum(b.rows, userId);
  }

  // ---- Conservation ----

  ghost function Pick(m: map<int, int>): (k: int)
    requires m != map[]
    ensures k in m
  {
    assert (forall k :: k !in m) ==> m == map[];
    var k :| k in m; k
  }

  ghost function Total(m: map<int, int>): int
    decreases |m|
  {
    if m == map[] then 0 else var k := Pick(m); m[k] + Total(m - {k})
  }

  lemma {:induction false} TotalWithout(m: map<int, int>, k: int)
    requires k in m
    ensures Total(m) == m[k] + Total(m - {k})
    decreases |m|
  {
    var p := Pick(m);
    if p != k {
      TotalWithout(m - {p}, k);
      TotalWithout(m - {k}, p);
      assert m - {p} - {k} == m - {k} - {p};
    }
  }

  lemma TotalUpdate(m: map<int, int>, k: int, v: int)
    requires k in m
    ensures Total(m[k := v]) == Total(m) - m[k] + v
  {
    TotalWithout(m, k);
    TotalWithout(m[k := v], k);
    assert m[k := v] - {k} == m - {k};
  }

  /** A transfer moves money: the sum over all users stays the same, also when payer and
      payee are one user. */
  lemma TransferConserves(b: Book, payer: int, payee: int, amount: int, reason: string, meta: Meta)
    ensures var c := Transfer(b, payer, payee, amount, reason, meta);
            c.Some? ==> Total(c.value.balance) == Total(b.balance)
                        && forall u :: u in b.balance && u != payer && u != payee ==>
                             u in c.value.balance && c.value.balance[u] == b.balance[u]
  {
    hide Total;
    var debit := Change(b, payer, -amount, reason + "_debit", meta);
    if debit.Some? {
      TotalUpdate(b.balance, payer, b.balance[payer] - amount);
      if payee in debit.value.balance {
        TotalUpdate(debit.value.balance, payee, debit.value.balance[payee] + amount);
      }
    }
  }

  // ---- Rewards ----

  /** num_vars and num_clauses of the first "p " line, if it is a proper header. */
  function DeclaredSize(f: File): Option<(int, int)> {
    if f == [] then None
    else if !Skipped(f[0]) && HasPrefix(TrimSpace(f[0]), "p ") then
      var ws := Toks(f[0]);
      if !HeaderShape(f[0]) then None
      else
        var v, c := Atoi(ws[2]), Atoi(ws[3]);
        if v.None? || v.value <= 0 || c.None? || c.value < 0 then None else Some((v.value, c.value))
    else DeclaredSize(f[1..])
  }

  /** On a validated upload that is the validated header, if it starts with "p "; a header
      with another space is not found, and then neither is any line below it. */
  lemma DeclaredSizeOfUpload(f: File, numVars: int, numClauses: int)
    requires ValidFor(Significant(f), numVars, numClauses)
    ensures HasPrefix(TrimSpace(Significant(f)[0]), "p ") ==> DeclaredSize(f) == Some((numVars, numClauses))
    ensures !HasPrefix(TrimSpace(Significant(f)[0]), "p ") && AllClauses(Significant(f), numVars) ==>
              DeclaredSize(f) == None
  {
    hide TrimSpace, Fields, Atoi, ClauseShape, Significant, Relevant, DeclaredSize, HasPrefix;
    var h := FindHeader(f);
    NothingSignificant(f[..h]);
    forall i | 0 <= i < h ensures !SizeLine(f[i]) {
      assert f[..h][i] == f[i];
      SizeLineIsRelevant(f[i]);
    }
    if HasPrefix(TrimSpace(f[h]), "p ") {
      SizeLineIsRelevant(f[h]);
      DeclaredSizeAt(f, h);
      SizeOfHeader(f[h], numVars, numClauses);
    } else if AllClauses(Significant(f), numVars) {
      var below := Significant(f[h + 1..]);
      assert forall k :: 0 <= k < |below| ==> below[k] == Significant(f)[k + 1];
      NoSizeBelow(f[h + 1..], numVars);
      assert forall i :: h < i < |f| ==> f[i] == f[h + 1..][i - h - 1];
      NoSizeLine(f);
    }
  }

  /** A line the header reader stops at. */
  predicate SizeLine(line: string) {
    !Skipped(line) && HasPrefix(TrimSpace(line), "p ")
  }

  lemma SizeLineIsRelevant(line: string)
    ensures SizeLine(line) <==> HasPrefix(TrimSpace(line), "p ")
    ensures SizeLine(line) ==> Relevant(line) && HasPrefix(TrimSpace(line), "p")
  {
    hide TrimSpace;
  }

  lemma {:induction false} DeclaredSizeAt(f: File, h: nat)
    requires h < |f| && SizeLine(f[h]) && forall i :: 0 <= i < h ==> !SizeLine(f[i])
    ensures DeclaredSize(f) == DeclaredSize([f[h]])
  {
    hide TrimSpace, Toks, Atoi;
    if h > 0 {
      assert forall i :: 0 <= i < h - 1 ==> f[1..][i] == f[i + 1];
      DeclaredSizeAt(f[1..], h - 1);
    }
  }

  lemma SizeOfHeader(line: string, numVars: int, numClauses: int)
    requires SizeLine(line) && Header(line, numVars, numClauses) && numVars > 0 && numClauses >= 0
    ensures DeclaredSize([line]) == Some((numVars, numClauses))
  {
    hide TrimSpace, Toks, Atoi;
  }

  lemma {:induction false} NoSizeLine(f: File)
    requires forall i :: 0 <= i < |f| ==> !SizeLine(f[i])
    ensures DeclaredSize(f) == None
  {
    hide TrimSpace, Toks, Atoi;
    if f != [] {
      NoSizeLine(f[1..]);
    }
  }

  /** Clause lines do not start with "p ". */
  lemma {:induction false} NoSizeBelow(f: File, numVars: int)
    requires forall k :: 0 <= k < |Significant(f)| ==> ClauseShape(Significant(f)[k], numVars)
    ensures forall i :: 0 <= i < |f| ==> !SizeLine(f[i])
  {
    hide TrimSpace, Fields, Atoi, ClauseShape, Relevant, HasPrefix;
    if f != [] {
      var rest, last := f[..|f| - 1], f[|f| - 1];
      assert forall k :: 0 <= k < |Significant(rest)| ==> Significant(rest)[k] == Significant(f)[k];
      NoSizeBelow(rest, numVars);
      SizeLineIsRelevant(last);
      if SizeLine(last) {
        assert Significant(f)[|Significant(f)| - 1] == last;
        ClauseIsNoHeader(last, numVars);
        assert false;
      }
      assert forall i :: 0 <= i < |f| - 1 ==> f[i] == rest[i];
    }
  }

  lemma ClauseIsNoHeader(line: string, numVars: int)
    requires ClauseShape(line, numVars)
    ensures !HasPrefix(TrimSpace(line), "p")
  {
    hide TrimSpace, Fields, Atoi;
    IntegerLineIsClauseLine(line);
  }

  method ReadDimacsHeader(f: File) returns (size: Option<(int, int)>)
    ensures size == DeclaredSize(f)
  {
    hide TrimSpace, Fields, Atoi;
    for i := 0 to |f|
      invariant DeclaredSize(f) == DeclaredSize(f[i..])
    {
      assert f[i..][0] == f[i] && f[i..][1..] == f[i + 1..];
      var line := TrimSpace(f[i]);
      if line == "" || HasPrefix(line, "c") {
        continue;
      }
      if HasPrefix(line, "p ") {
        var fields := Fields(line);
        if |fields| != 4 || fields[0] != "p" || fields[1] != "cnf" {
          return None;
        }
        var vars, cls := Atoi(fields[2]), Atoi(fields[3]);
        if vars.None? || vars.value <= 0 || cls.None? || cls.value < 0 {
          return None;
        }
        return Some((vars.value, cls.value));
      }
    }
    return None;
  }

  /** The int64 reward for a job's shard, where it can be computed and is positive. */
  function RewardFor(f: File): Option<int> {
    var size := DeclaredSize(f);
    if size.None? then None
    else
      var reward := ToInt64(size.value.0 * REWARD_PER_VAR + size.value.1 * REWARD_PER_CLAUSE);
      if reward <= 0 then None else Some(reward)
  }

  method ComputeReward(f: File) returns (r: Option<int>)
    ensures r == RewardFor(f)
    ensures r.Some? ==> 0 < r.value <= MAX_INT64
  {
    hide DeclaredSize;
    var size := ReadDimacsHeader(f);
    if size.None? {
      return None;
    }
    var reward := ToInt64(size.value.0 * REWARD_PER_VAR + size.value.1 * REWARD_PER_CLAUSE);
    return if reward <= 0 then None else Some(reward);
  }
}
