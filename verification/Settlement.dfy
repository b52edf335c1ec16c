/** Payment for shards when workers keep to the protocol: one accepted result, hence at most one
    reward, whatever fails on the server. */
module Settlement {
  import opened GoText
  import opened Dimacs
  import opened VerifySat
  import opened Tables
  import opened DbSafety
  import opened Ledger
  import opened Protocol
  import opened Safety
  import opened Finality
  import opened Books
  import opened Placement

  // ---- Claims ----

  /** Where a claim to a shard's reward is: with a handler that has stored the result and not
      settled yet, or paid, in a transaction row. */
  datatype Claim = Open(task: nat) | Paid(row: nat)

  predicate RewardRow(row: Row, id: int) {
    row.reason == "worker_reward_credit" && row.meta.About? && row.meta.shardId == id
  }

  predicate Earns(task: Task, id: int) {
    (task.FinishSat? || task.Reward? || task.Payout?) && task.shardId == id
  }

  predicate Claims(s: State, c: Claim, id: int) {
    match c
    case Open(t) => t in s.tasks && Earns(s.tasks[t], id)
    case Paid(i) => i < |s.book.rows| && RewardRow(s.book.rows[i], id)
  }

  /** At most one claim a shard, and only for shards whose result is stored. */
  ghost predicate ClaimedOnce(s: State) {
    && (forall c: Claim, d: Claim, id: int :: Claims(s, c, id) && Claims(s, d, id) ==> c == d)
    && (forall c: Claim, id: int :: Claims(s, c, id) ==> id in s.db.results)
  }

  /** No claim is new. */
  ghost predicate ClaimsKept(s: State, s': State) {
    forall c: Claim, id: int :: Claims(s', c, id) ==> Claims(s, c, id)
  }

  /** The only claim to the shard `x` is at `to`; no other claim is new. */
  ghost predicate ClaimMoved(s: State, s': State, x: int, to: Claim) {
    forall c: Claim, id: int :: Claims(s', c, id) ==> if id == x then c == to else Claims(s, c, id)
  }

  lemma KeepClaims(s: State, s': State)
    requires ClaimedOnce(s) && ClaimsKept(s, s') && Extends(s.db, s'.db)
    ensures ClaimedOnce(s')
  {
    hide Claims;
  }

  lemma MoveClaim(s: State, s': State, x: int, to: Claim)
    requires ClaimedOnce(s) && ClaimMoved(s, s', x, to) && Extends(s.db, s'.db) && x in s'.db.results
    ensures ClaimedOnce(s')
  {
    hide Claims;
  }

  // ---- Steps that make no claim ----

  /** Only rows that are not reward credits are added. */
  ghost predicate NoRewardAdded(b: Book, c: Book) {
    && |b.rows| <= |c.rows| && (forall i :: 0 <= i < |b.rows| ==> c.rows[i] == b.rows[i])
    && (forall i :: |b.rows| <= i < |c.rows| ==> c.rows[i].reason != "worker_reward_credit")
  }

  lemma ChangeAddsOne(b: Book, u: int, delta: int, reason: string, meta: Meta)
    ensures var c := Change(b, u, delta, reason, meta);
            c.Some? ==> c.value.rows == b.rows + [Row(u, delta, reason, meta)]
  {
  }

  lemma TasksClaimNothing(s: State, s': State)
    requires s'.book == s.book || NoRewardAdded(s.book, s'.book)
    requires forall u, id :: u in s'.tasks && Earns(s'.tasks[u], id) ==> u in s.tasks && Earns(s.tasks[u], id)
    ensures ClaimsKept(s, s')
  {
  }

  predicate Settles(e: Event) {
    e.CommitSat? || e.Commit? || e.Finish? || e.Resolve? || e.Settle?
  }

  lemma OthersClaimNothing(check: ProofCheck, s: State, e: Event)
    requires Enabled(s, e) && !Settles(e)
    ensures ClaimsKept(s, Effect(check, s, e))
  {
    var s' := Effect(check, s, e);
    OthersAddNoReward(check, s, e);
    StepBegins(check, s, e);
    hide Effect, Enabled, NoRewardAdded;
    TasksClaimNothing(s, s');
  }

  lemma OthersAddNoReward(check: ProofCheck, s: State, e: Event)
    requires Enabled(s, e) && !Settles(e)
    ensures var s' := Effect(check, s, e); s'.book == s.book || NoRewardAdded(s.book, s'.book)
  {
    hide Change;
    if !TouchesBook(e) {
      hide Effect, Enabled;
      OthersKeepTheBook(check, s, e);
    } else if e.Pay? {
      ChangeAddsOne(s.book, e.userId, WalletDelta(e.op), WalletReason(e.op), NoMeta);
    } else if e.Punish? {
      var Penalise(userId, jobId, shardId, why) := s.tasks[e.task];
      ChangeAddsOne(s.book, userId, -WORKER_PENALTY, "worker_penalty", About(jobId, shardId));
    }
  }

  // ---- Steps that do ----

  /** A goroutine about to store a shard's result is the shard's only place, so the shard is
      not done and nothing has been claimed for it. */
  lemma UnclaimedYet(s: State, t: nat, id: int, c: Claim)
    requires Located(s) && ClaimedOnce(s) && t in s.tasks && Carries(s.tasks[t], id)
    ensures id !in s.db.results && !Claims(s, c, id)
  {
    assert IsAt(s, InTask(t), id);
    if id in s.db.results {
      assert IsAt(s, Done, id);
      OnlyAt(s, Done, id, InTask(t));
    }
    hide IsAt, Located, Claims;
  }

  lemma CommitSatClaims(s: State, t: nat, ok: bool)
    requires Located(s) && ClaimedOnce(s) && t in s.tasks && s.tasks[t].StoreSat?
    ensures ClaimMoved(s, CommitSatStep(s, t, ok), s.tasks[t].shardId, Open(t))
    ensures t in CommitSatStep(s, t, ok).tasks ==> s.tasks[t].shardId in CommitSatStep(s, t, ok).db.results
  {
    var id := s.tasks[t].shardId;
    var s' := CommitSatStep(s, t, ok);
    forall c: Claim ensures !Claims(s, c, id) {
      UnclaimedYet(s, t, id, c);
    }
    hide ClaimedOnce, Located, RowOf, StoreSatResult, StoreUnsatResult;
    forall c: Claim, x: int | Claims(s', c, x) ensures if x == id then c == Open(t) else Claims(s, c, x) {
      assert c != Open(t) ==> Claims(s, c, x);
    }
  }

  lemma CommitClaims(s: State, t: nat, ok: bool)
    requires Located(s) && ClaimedOnce(s) && t in s.tasks && s.tasks[t].CommitUnsat?
    ensures ClaimMoved(s, CommitStep(s, t, ok), s.tasks[t].shardId, Open(t))
    ensures t in CommitStep(s, t, ok).tasks ==> s.tasks[t].shardId in CommitStep(s, t, ok).db.results
  {
    var id := s.tasks[t].shardId;
    var s' := CommitStep(s, t, ok);
    forall c: Claim ensures !Claims(s, c, id) {
      UnclaimedYet(s, t, id, c);
    }
    hide ClaimedOnce, Located, RowOf, StoreSatResult, StoreUnsatResult;
    forall c: Claim, x: int | Claims(s', c, x) ensures if x == id then c == Open(t) else Claims(s, c, x) {
      assert c != Open(t) ==> Claims(s, c, x);
    }
  }

  lemma FinishClaims(s: State, t: nat)
    requires t in s.tasks && (s.tasks[t].FinishSat? || s.tasks[t].FinishUnsat?)
    ensures ClaimsKept(s, FinishStep(s, t))
  {
  }

  /** A debit and a reward credit are added, in this order. */
  predicate PaidOnce(before: seq<Row>, after: seq<Row>, id: int) {
    && |after| == |before| + 2 && after[..|before|] == before
    && after[|before|].reason != "worker_reward_credit" && RewardRow(after[|before| + 1], id)
  }

  lemma PaidRows(s: State, u: int, j: int, id: int)
    ensures var pay := PayReward(s, u, j, id);
            pay.Some? ==> PaidOnce(s.book.rows, pay.value.rows, id)
  {
    var pay := PayReward(s, u, j, id);
    if pay.Some? {
      var payer, amount := s.db.jobs[j].userId, RewardFor(s.db.jobs[j].file).value;
      var r := Row(payer, -amount, "worker_reward" + "_debit", About(j, id));
      var q := Row(u, amount, "worker_reward" + "_credit", About(j, id));
      assert pay.value.rows == s.book.rows + [r, q];
      assert r.reason != "worker_reward_credit" by { assert r.reason[14] == 'd'; }
      assert RewardRow(q, id);
    }
  }

  lemma ResolveClaims(s: State, t: nat)
    requires t in s.tasks && s.tasks[t].Reward?
    ensures ClaimsKept(s, ResolveStep(s, t))
  {
  }

  lemma SettleClaims(s: State, t: nat, ok: bool)
    requires ClaimedOnce(s) && t in s.tasks && s.tasks[t].Payout?
    ensures ClaimMoved(s, SettleStep(s, t, ok), s.tasks[t].shardId, Paid(|s.book.rows| + 1))
  {
    var Payout(w, u, j, id) := s.tasks[t];
    PaidRows(s, u, j, id);
    assert Claims(s, Open(t), id);
    hide PayReward;
    var to := Paid(|s.book.rows| + 1);
    forall c: Claim, x: int | Claims(SettleStep(s, t, ok), c, x) ensures if x == id then c == to else Claims(s, c, x) {
      if c != to {
        assert Claims(s, c, x);
      }
    }
  }

  lemma StepClaims(check: ProofCheck, s: State, e: Event)
    requires Located(s) && ClaimedOnce(s) && Safe(check, s) && Enabled(s, e)
    ensures ClaimedOnce(Effect(check, s, e))
  {
    hide Located, ClaimedOnce, Safe, Effect, Enabled;
    StepExtends(check, s, e);
    if !Settles(e) {
      OthersClaimNothing(check, s, e);
      KeepClaims(s, Effect(check, s, e));
    } else {
      SettlingClaims(check, s, e);
    }
  }

  lemma SettlingClaims(check: ProofCheck, s: State, e: Event)
    requires Located(s) && ClaimedOnce(s) && Safe(check, s) && Enabled(s, e) && Settles(e)
    requires Extends(s.db, Effect(check, s, e).db)
    ensures ClaimedOnce(Effect(check, s, e))
  {
    hide Located, ClaimedOnce, Safe, CommitSatStep, CommitStep, FinishStep, ResolveStep, SettleStep, Extends;
    TaskRows(check, s, e.task);
    match e
    case CommitSat(t, ok) => CommitSatSettles(s, t, ok);
    case Commit(t, ok) => CommitSettles(s, t, ok);
    case Finish(t) => FinishClaims(s, t); KeepClaims(s, FinishStep(s, t));
    case Resolve(t) => ResolveClaims(s, t); KeepClaims(s, ResolveStep(s, t));
    case Settle(t, ok) => SettleSettles(s, t, ok);
  }

  /** A goroutine that gives up makes no claim. */
  lemma EndClaims(s: State, t: nat)
    requires ClaimedOnce(s) && Extends(s.db, s.db)
    ensures ClaimedOnce(End(s, t))
  {
    assert ClaimsKept(s, End(s, t));
    hide ClaimedOnce, Claims, Extends;
    KeepClaims(s, End(s, t));
  }

  lemma CommitSatSettles(s: State, t: nat, ok: bool)
    requires Located(s) && ClaimedOnce(s) && t in s.tasks && s.tasks[t].StoreSat?
    requires RowOf(s.db, s.tasks[t].jobId, s.tasks[t].shardId) && Extends(s.db, CommitSatStep(s, t, ok).db)
    ensures ClaimedOnce(CommitSatStep(s, t, ok))
  {
    CommitSatClaims(s, t, ok);
    hide Located, ClaimedOnce, ClaimMoved, Extends, StoreSatResult;
    if ok {
      MoveClaim(s, CommitSatStep(s, t, ok), s.tasks[t].shardId, Open(t));
    } else {
      EndClaims(s, t);
    }
  }

  lemma CommitSettles(s: State, t: nat, ok: bool)
    requires Located(s) && ClaimedOnce(s) && t in s.tasks && s.tasks[t].CommitUnsat?
    requires RowOf(s.db, s.tasks[t].jobId, s.tasks[t].shardId) && Extends(s.db, CommitStep(s, t, ok).db)
    ensures ClaimedOnce(CommitStep(s, t, ok))
  {
    CommitClaims(s, t, ok);
    hide Located, ClaimedOnce, ClaimMoved, Extends, StoreUnsatResult;
    if ok {
      MoveClaim(s, CommitStep(s, t, ok), s.tasks[t].shardId, Open(t));
    } else {
      EndClaims(s, t);
    }
  }

  lemma SettleSettles(s: State, t: nat, ok: bool)
    requires ClaimedOnce(s) && t in s.tasks && s.tasks[t].Payout? && Extends(s.db, SettleStep(s, t, ok).db)
    ensures ClaimedOnce(SettleStep(s, t, ok))
  {
    SettleClaims(s, t, ok);
    PayoutIsStored(s, t);
    hide ClaimedOnce, ClaimMoved, Extends, PayReward;
    MoveClaim(s, SettleStep(s, t, ok), s.tasks[t].shardId, Paid(|s.book.rows| + 1));
  }

  lemma PayoutIsStored(s: State, t: nat)
    requires ClaimedOnce(s) && t in s.tasks && s.tasks[t].Payout?
    ensures s.tasks[t].shardId in s.db.results
  {
    assert Claims(s, Open(t), s.tasks[t].shardId);
  }

  lemma {:induction false} RunClaims(check: ProofCheck, states: seq<State>, events: seq<Event>, i: nat)
    requires HonestRun(check, states, events) && i < |states|
    ensures ClaimedOnce(states[i])
  {
    hide Effect, Enabled, Placed, WorkersHonest, Safe, ClaimedOnce, Located;
    if i == 0 {
      NoClaims();
    } else {
      RunClaims(check, states, events, i - 1);
      RunPlaced(check, states, events, i - 1);
      RunSafe(check, states, events, i - 1);
      assert Step(check, states[i - 1], events[i - 1], states[i]);
      PlacedIsLocated(states[i - 1]);
      StepClaims(check, states[i - 1], events[i - 1]);
    }
  }

  lemma NoClaims()
    ensures ClaimedOnce(INIT)
  {
  }

  lemma PlacedIsLocated(s: State)
    requires Placed(s)
    ensures Located(s)
  {
    hide Located;
  }

  // ---- The theorems ----

  /** When workers keep to the protocol, a shard is paid for at most once, also across failed
      commits and restarts: two reward credits in the books are
      never for the same shard, and a shard that was paid for has a verified result and no
      handler left that could pay again. */
  lemma EveryShardPaidOnce(check: ProofCheck, states: seq<State>, events: seq<Event>, i: nat)
    requires HonestRun(check, states, events) && i < |states|
    ensures var rows := states[i].book.rows;
            forall k, n, id ::
              0 <= k < |rows| && 0 <= n < |rows| && RewardRow(rows[k], id) && RewardRow(rows[n], id) ==> k == n
    ensures var rows := states[i].book.rows;
            forall k, id :: 0 <= k < |rows| && RewardRow(rows[k], id) ==>
              id in states[i].db.results && forall t :: t in states[i].tasks ==> !Earns(states[i].tasks[t], id)
  {
    hide HonestRun;
    RunClaims(check, states, events, i);
    var s, rows := states[i], states[i].book.rows;
    forall k, n, id | 0 <= k < |rows| && 0 <= n < |rows| && RewardRow(rows[k], id) && RewardRow(rows[n], id)
      ensures k == n {
      assert Claims(s, Paid(k), id) && Claims(s, Paid(n), id);
    }
    forall k, id, t | 0 <= k < |rows| && RewardRow(rows[k], id) && t in s.tasks ensures !Earns(s.tasks[t], id) {
      assert Claims(s, Paid(k), id);
      assert !Claims(s, Open(t), id);
    }
    forall k, id | 0 <= k < |rows| && RewardRow(rows[k], id) ensures id in s.db.results {
      assert Claims(s, Paid(k), id);
    }
  }

  /** Once a shard's result is stored, no run in which workers keep to the protocol stores
      another one for it, also across failed commits and restarts. */
  lemma EveryShardAcceptedOnce(check: ProofCheck, states: seq<State>, events: seq<Event>, i: nat, k: nat, id: int)
    requires HonestRun(check, states, events) && i <= k < |events| && id in states[i].db.results
    ensures events[k].CommitSat? || events[k].Commit? ==>
              events[k].task in states[k].tasks
              && (states[k].tasks[events[k].task].StoreSat? || states[k].tasks[events[k].task].CommitUnsat?)
              && states[k].tasks[events[k].task].shardId != id
  {
    hide Effect, Placed, WorkersHonest, Safe, Located, Extends;
    RunExtends(check, states, events, i, k);
    ResultStays(states[i].db, states[k].db, id);
    RunPlaced(check, states, events, k);
    PlacedIsLocated(states[k]);
    assert Step(check, states[k], events[k], states[k + 1]);
    if events[k].CommitSat? || events[k].Commit? {
      var t := events[k].task;
      if states[k].tasks[t].shardId == id {
        assert IsAt(states[k], InTask(t), id) && IsAt(states[k], Done, id);
        OnlyAt(states[k], Done, id, InTask(t));
      }
    }
  }

  lemma ResultStays(a: Database, b: Database, id: int)
    requires Extends(a, b) && id in a.results
    ensures id in b.results
  {
  }
}
