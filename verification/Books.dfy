/** The ledger over whole runs of the server. */
module Books {
  import opened GoText
  import opened Tables
  import opened Ledger
  import opened Protocol

  /** The books balance, and no row has the reason the reward guard looks for. */
  predicate BooksSound(b: Book) {
    Balanced(b) && forall i :: 0 <= i < |b.rows| ==> b.rows[i].reason != "worker_reward"
  }

  lemma ChangeSound(b: Book, userId: int, delta: int, reason: string, meta: Meta)
    requires BooksSound(b) && reason != "worker_reward"
    ensures var c := Change(b, userId, delta, reason, meta); c.Some? ==> BooksSound(c.value)
  {
    ChangeKeepsBalanced(b, userId, delta, reason, meta);
    hide Balanced;
  }

  lemma TransferSound(b: Book, payer: int, payee: int, amount: int, reason: string, meta: Meta)
    requires BooksSound(b) && |reason| == |"worker_reward"|
    ensures var c := Transfer(b, payer, payee, amount, reason, meta); c.Some? ==> BooksSound(c.value)
  {
    hide BooksSound, Change;
    var debit := Change(b, payer, -amount, reason + "_debit", meta);
    ChangeSound(b, payer, -amount, reason + "_debit", meta);
    if debit.Some? {
      ChangeSound(debit.value, payee, amount, reason + "_credit", meta);
    }
  }

  predicate TouchesBook(e: Event) {
    e.SignUp? || e.Pay? || e.Punish? || e.Settle?
  }

  lemma OthersKeepTheBook(check: ProofCheck, s: State, e: Event)
    requires Enabled(s, e) && !TouchesBook(e)
    ensures Effect(check, s, e).book == s.book
  {
    hide SplitStep, ReceiveStep, VerifyStep, PunishStep, CommitSatStep, FinishStep, CountStep, CommitStep, ReopenStep,
         PickStep, SendStep, DisconnectStep, UploadStep, RejectStep, StartedStep, ResolveStep, SettleStep, ConnectStep,
         RegisterStep, UnregisterStep, FreshIds, Change;
  }

  lemma StepKeepsBooks(check: ProofCheck, s: State, e: Event)
    requires BooksSound(s.book) && Enabled(s, e)
    ensures BooksSound(Effect(check, s, e).book)
  {
    hide BooksSound, Change, Transfer, RewardFor, AlreadyPaid;
    if !TouchesBook(e) {
      hide Effect, Enabled;
      OthersKeepTheBook(check, s, e);
    } else {
      match e
      case SignUp(u) => SignUpSound(s.book, u);
      case Pay(u, op) => ChangeSound(s.book, u, WalletDelta(op), WalletReason(op), NoMeta);
      case Punish(t, ok) =>
        var Penalise(userId, jobId, shardId, why) := s.tasks[t];
        ChangeSound(s.book, userId, -WORKER_PENALTY, "worker_penalty", About(jobId, shardId));
      case Settle(t, ok) => RewardSound(s, s.tasks[t].userId, s.tasks[t].jobId, s.tasks[t].shardId);
    }
  }

  lemma SignUpSound(b: Book, u: int)
    requires BooksSound(b) && u !in b.balance
    ensures BooksSound(b.(balance := b.balance[u := 0]))
  {
    NewUserKeepsBalanced(b, u);
    hide Balanced;
  }

  lemma RewardSound(s: State, u: int, j: int, id: int)
    requires BooksSound(s.book)
    ensures PayReward(s, u, j, id).Some? ==> BooksSound(PayReward(s, u, j, id).value)
  {
    hide BooksSound, Transfer, RewardFor, AlreadyPaid;
    if j in s.db.jobs && RewardFor(s.db.jobs[j].file).Some? {
      TransferSound(s.book, s.db.jobs[j].userId, u, RewardFor(s.db.jobs[j].file).value, "worker_reward", About(j, id));
    }
  }

  /** In every state of every run each balance is the sum of its user's transaction rows and is
      not negative. The query that should stop a second reward never finds a row, so paying
      a shard at most once must come from the scheduler. */
  lemma {:induction false} BooksAlwaysBalance(check: ProofCheck, states: seq<State>, events: seq<Event>, i: nat)
    requires Run(check, states, events) && i < |states|
    ensures BooksSound(states[i].book)
    ensures forall j, id :: !AlreadyPaid(states[i].book, j, id)
  {
    hide Effect, Enabled, Balanced;
    if i > 0 {
      BooksAlwaysBalance(check, states, events, i - 1);
      assert Step(check, states[i - 1], events[i - 1], states[i]);
      StepKeepsBooks(check, states[i - 1], events[i - 1]);
    } else {
      EmptyBook();
    }
  }

  lemma EmptyBook()
    ensures BooksSound(INIT.book)
  {
  }

  /** A reward moves money from the client to the worker's user: no step but a deposit, a
      withdrawal, an upload charge or a penalty changes the sum over all users. */
  lemma OnlyWalletsAndPenaltiesChangeTheTotal(check: ProofCheck, s: State, e: Event)
    requires Enabled(s, e) && !e.Pay? && !e.Punish?
    ensures Total(Effect(check, s, e).book.balance) == Total(s.book.balance)
  {
    hide Total, Transfer, RewardFor, AlreadyPaid;
    if !TouchesBook(e) {
      hide Effect, Enabled;
      OthersKeepTheBook(check, s, e);
    } else if e.SignUp? {
      TotalOfNewUser(s.book.balance, e.userId);
    } else {
      var Payout(w, u, j, id) := s.tasks[e.task];
      if PayReward(s, u, j, id).Some? {
        TransferConserves(s.book, s.db.jobs[j].userId, u, RewardFor(s.db.jobs[j].file).value,
                          "worker_reward", About(j, id));
      }
    }
  }

  lemma TotalOfNewUser(m: map<int, int>, u: int)
    requires u !in m
    ensures Total(m[u := 0]) == Total(m)
  {
    TotalWithout(m[u := 0], u);
    assert m[u := 0] - {u} == m;
  }
}
