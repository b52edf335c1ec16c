/** The scheduler object with its tables, updated in place. Methods that hold the mutex, or run
    one transaction, are one step of the state machine each (`Took`); the handlers call
    them in the order of the source (`Did`). A ghost record of the steps ties the object's
    fields to a run, so every theorem about runs holds of the object. */
module Scheduler {
  import opened GoText
  import opened Cnf
  import opened Dimacs
  import opened CubeApply
  import opened ShardFile
  import opened Cubes
  import opened VerifySat
  import opened Kissat
  import opened Ledger
  import opened Tables
  import opened DbSafety
  import opened Protocol
  import opened Registry
  import opened Safety
  import opened Finality
  import opened Books
  import opened Verdicts
  import opened Effects

  lemma RunSnoc(check: ProofCheck, states: seq<State>, events: seq<Event>, e: Event)
    requires Run(check, states, events) && Enabled(states[|events|], e)
    ensures Run(check, states + [Effect(check, states[|events|], e)], events + [e])
  {
    hide Enabled, Effect;
    var states', events' := states + [Effect(check, states[|events|], e)], events + [e];
    forall i | 0 <= i < |events'| ensures Step(check, states'[i], events'[i], states'[i + 1]) {
      if i < |events| {
        assert Step(check, states[i], events[i], states[i + 1]);
      }
    }
  }

  lemma BalancesFit(check: ProofCheck, states: seq<State>, events: seq<Event>)
    requires Run(check, states, events)
    ensures forall u :: u in states[|events|].book.balance ==> Fits(states[|events|].book.balance[u])
  {
    BooksAlwaysBalance(check, states, events, |events|);
    hide Run;
  }

  // ---- Connections that stay ----

  predicate Indoors(e: Event) {
    !e.Restart? && !e.Connect? && !e.Register? && !e.Unregister? && !e.Disconnect?
  }

  lemma StepKeepsPhases(check: ProofCheck, s: State, e: Event)
    requires Enabled(s, e) && Indoors(e)
    ensures Effect(check, s, e).phases == s.phases
  {
    if !Moves(e) {
      hide Effect, Enabled;
      OthersMoveNothing(check, s, e);
    } else if e.Pick? || e.Send? || e.Receive? || e.Finish? {
      hide Effect, Enabled;
      QueuesKeepPhases(check, s, e);
    }
  }

  lemma {:induction false} RunKeepsPhases(check: ProofCheck, states: seq<State>, events: seq<Event>, i: nat, k: nat)
    requires Run(check, states, events) && i <= k < |states| && forall n :: i <= n < k ==> Indoors(events[n])
    ensures states[k].phases == states[i].phases
  {
    hide Effect, Enabled, Indoors;
    if i < k {
      RunKeepsPhases(check, states, events, i, k - 1);
      assert Step(check, states[k - 1], events[k - 1], states[k]);
      StepKeepsPhases(check, states[k - 1], events[k - 1]);
    }
  }

  predicate AllIndoors(log: seq<Event>) {
    forall i :: 0 <= i < |log| ==> Indoors(log[i])
  }

  lemma OffersIndoors(log: seq<Event>)
    requires Assigns(log)
    ensures AllIndoors(log)
  {
    forall i | 0 <= i < |log| ensures Indoors(log[i]) {
      assert log[i] in log;
    }
  }

  lemma HandlesIndoors(check: ProofCheck, db: Database, ws: set<int>, workerId: int, res: Result, t: nat,
                       log: seq<Event>)
    requires Handles(check, db, ws, workerId, res, t, log)
    ensures AllIndoors(log)
  {
    hide Judge, AllRefuted, StoreUnsatShard, AllIndoors;
    FollowsIndoors(db, ws, res, Judge(check, db, res, log[1].lookupOk), t, log[2..]);
    assert log == log[..2] + log[2..];
    assert AllIndoors(log[..2]) by { IndoorsPair(log[0], log[1], log[..2]); }
    IndoorsConcat(log[..2], log[2..]);
  }

  lemma IndoorsPair(a: Event, b: Event, log: seq<Event>)
    requires Indoors(a) && Indoors(b) && log == [a, b]
    ensures AllIndoors(log)
  {
  }

  lemma IndoorsConcat(a: seq<Event>, b: seq<Event>)
    requires AllIndoors(a) && AllIndoors(b)
    ensures AllIndoors(a + b)
  {
  }

  lemma RequeuesIndoors(db: Database, ws: set<int>, shardId: int, t: nat, log: seq<Event>)
    requires Requeues(db, ws, shardId, t, log)
    ensures AllIndoors(log)
  {
    if |log| > 2 {
      OffersIndoors(log[2..]);
      assert forall i :: 2 <= i < |log| ==> log[i] == log[2..][i - 2];
    }
  }

  lemma FollowsIndoors(db: Database, ws: set<int>, res: Result, j: Judgement, t: nat, log: seq<Event>)
    requires Follows(db, ws, res, j, t, log)
    ensures AllIndoors(log)
  {
    hide AllRefuted, StoreUnsatShard;
    if j.Rejected? {
      RequeuesIndoors(db, ws, res.shardId, t, log[1..]);
      assert forall i :: 1 <= i < |log| ==> log[i] == log[1..][i - 1];
    }
  }

  datatype Message = Hello | JobResult(res: Result) | Unknown

  // ---- What the handlers do, as steps ----

  /** Only assignments. */
  predicate Assigns(log: seq<Event>) {
    forall e :: e in log ==> e.Pick? || e.Send?
  }

  /** The workers that were asked whether they can take a shard, in order. */
  function Asked(log: seq<Event>): seq<int> {
    if log == [] then []
    else
      var e := log[|log| - 1];
      Asked(log[..|log| - 1]) + if e.Pick? then [e.workerId] else []
  }

  /** One worker is asked. */
  predicate Offered(log: seq<Event>, workerId: int) {
    Assigns(log) && Asked(log) == [workerId]
  }

  /** Each of the workers is asked once. */
  predicate Offers(log: seq<Event>, ws: set<int>) {
    Assigns(log) && Distinct(Asked(log)) && (set w | w in Asked(log)) == ws
  }

  lemma {:induction false} AskedConcat(a: seq<Event>, b: seq<Event>)
    ensures Asked(a + b) == Asked(a) + Asked(b)
  {
    if b == [] {
      assert a + b == a;
    } else {
      AskedConcat(a, b[..|b| - 1]);
      assert (a + b)[..|a + b| - 1] == a + b[..|b| - 1];
    }
  }

  lemma NobodyAsked()
    ensures Asked([]) == []
  {
  }

  /** An assignment asks its worker. */
  lemma AssignmentAsks(log: seq<Event>, w: int, readable: bool, sendOk: bool)
    requires log == [Pick(w, readable)] || log == [Pick(w, readable), Send(sendOk)]
    ensures Offered(log, w)
  {
    assert [Pick(w, readable)][..0] == [];
    NobodyAsked();
    assert Asked([Pick(w, readable)]) == [w];
    if |log| == 2 {
      assert log[..1] == [Pick(w, readable)];
    }
  }

  /** The shard's row is set pending and the shard appended, before all workers `ws` are offered
      it; a failed statement leaves it out. */
  predicate Requeues(db: Database, ws: set<int>, shardId: int, t: nat, log: seq<Event>) {
    && log != [] && log[0].Reopen? && log[0].task == t
    && if log[0].ok && shardId in db.shards then |log| > 1 && log[1] == Queue(t) && Offers(log[2..], ws)
       else |log| == 1
  }

  /** One result: received, judged, and then either dropped, punished and re-enqueued, or
      stored; a job is marked completed after a SAT commit but before an UNSAT commit. */
  predicate Handles(check: ProofCheck, db: Database, ws: set<int>, workerId: int, res: Result, t: nat,
                    log: seq<Event>) {
    && |log| > 1 && log[0] == Receive(workerId, res) && log[1].Verify? && log[1].task == t
    && Follows(db, ws, res, Judge(check, db, res, log[1].lookupOk), t, log[2..])
  }

  predicate Follows(db: Database, ws: set<int>, res: Result, j: Judgement, t: nat, log: seq<Event>) {
    match j
    case Dropped => log == []
    case Rejected(_) => Punishes(db, ws, res.shardId, t, log)
    case SatProved(_) => StoresSat(t, log)
    case UnsatProved(d) => StoresUnsat(AllRefuted(StoreUnsatShard(db, res.shardId, d), res.jobId), t, log)
  }

  predicate Punishes(db: Database, ws: set<int>, shardId: int, t: nat, log: seq<Event>) {
    log != [] && log[0].Punish? && log[0].task == t && Requeues(db, ws, shardId, t, log[1..])
  }

  predicate StoresSat(t: nat, log: seq<Event>) {
    log != [] && log[0].CommitSat? && log[0].task == t && log[1..] == if log[0].ok then [Finish(t)] else []
  }

  predicate StoresUnsat(all: bool, t: nat, log: seq<Event>) {
    && |log| > 1 && log[..|log| - 1] == (if all then [Count(t), Finish(t)] else [Count(t)])
    && log[|log| - 1].Commit? && log[|log| - 1].task == t
  }

  // ---- What one connection's goroutine does ----

  predicate Answers(check: ProofCheck, s: State, w: int, res: Result, log: seq<Event>) {
    Handles(check, s.db, s.conns.users.Keys, w, res, s.nextTask, log)
  }

  /** Steps i up to k are what a message leads to: an offer, or a result handled and an offer. */
  ghost predicate Turn(check: ProofCheck, states: seq<State>, events: seq<Event>, i: nat, k: nat, w: int,
                       msg: Message) {
    && i <= k <= |events| < |states|
    && match msg
       case Hello => Offered(events[i..k], w)
       case JobResult(res) => exists m: nat :: AnswersUntil(check, states, events, i, m, k, w, res)
       case Unknown => i == k
  }

  predicate AnswersUntil(check: ProofCheck, states: seq<State>, events: seq<Event>, i: nat, m: nat, k: nat, w: int,
                         res: Result)
    requires i <= k <= |events| < |states|
  {
    i <= m <= k && Answers(check, states[i], w, res, events[i..m]) && Offered(events[m..k], w)
  }

  /** Each message has its turn, between two marks. */
  ghost predicate TurnsTaken(check: ProofCheck, states: seq<State>, events: seq<Event>, marks: seq<nat>, w: int,
                         inbox: seq<Message>) {
    && |marks| == |inbox| + 1 && marks[|inbox|] <= |events|
    && forall n :: 0 <= n < |inbox| ==> Turn(check, states, events, marks[n], marks[n + 1], w, inbox[n])
  }

  /** The slot is cleared, and the shard that was in it re-enqueued. */
  predicate Leaves(s: State, w: int, log: seq<Event>) {
    && log != [] && log[0] == Disconnect(w)
    && if w in s.mem.slots then Requeues(s.db, s.conns.users.Keys, s.mem.slots[w].shardId, s.nextTask, log[1..])
       else log[1..] == []
  }

  /** Steps n up to a: connected, registered and offered work. */
  predicate Arrives(events: seq<Event>, n: nat, a: nat, u: int, w: int) {
    && n + 2 <= a <= |events| && events[n] == Connect(u) && events[n + 1] == Register(w)
    && Offered(events[n + 2..a], w)
  }

  /** From step b on: unregistered, then gone. */
  predicate LeavesAt(states: seq<State>, events: seq<Event>, b: nat, w: int) {
    && b < |events| < |states| && events[b] == Unregister(w) && Leaves(states[b + 1], w, events[b + 1..])
  }

  /** From step n on, one connection: arrival, a turn for each message, and departure. */
  ghost predicate Lifetime(check: ProofCheck, states: seq<State>, events: seq<Event>, n: nat, u: int, w: int,
                           marks: seq<nat>, inbox: seq<Message>) {
    && TurnsTaken(check, states, events, marks, w, inbox)
    && Arrives(events, n, marks[0], u, w) && LeavesAt(states, events, marks[|inbox|], w)
  }

  lemma ArrivesLater(events: seq<Event>, events': seq<Event>, n: nat, a: nat, u: int, w: int)
    requires events <= events' && Arrives(events, n, a, u, w)
    ensures Arrives(events', n, a, u, w)
  {
    hide Offered;
    assert events'[n + 2..a] == events[n + 2..a];
  }

  lemma TurnLater(check: ProofCheck, states: seq<State>, events: seq<Event>, states': seq<State>, events': seq<Event>,
                  i: nat, k: nat, w: int, msg: Message)
    requires states <= states' && events <= events' && |events'| < |states'|
    requires Turn(check, states, events, i, k, w, msg)
    ensures Turn(check, states', events', i, k, w, msg)
  {
    hide Offered, Answers;
    assert events'[i..k] == events[i..k];
    if msg.JobResult? {
      var m: nat :| AnswersUntil(check, states, events, i, m, k, w, msg.res);
      assert events'[i..m] == events[i..m] && events'[m..k] == events[m..k];
      assert AnswersUntil(check, states', events', i, m, k, w, msg.res);
    }
  }

  lemma TurnsLater(check: ProofCheck, states: seq<State>, events: seq<Event>, states': seq<State>,
                    events': seq<Event>, marks: seq<nat>, w: int, inbox: seq<Message>)
    requires states <= states' && events <= events' && |events'| < |states'|
    requires TurnsTaken(check, states, events, marks, w, inbox)
    ensures TurnsTaken(check, states', events', marks, w, inbox)
  {
    hide Turn;
    forall n | 0 <= n < |inbox| ensures Turn(check, states', events', marks[n], marks[n + 1], w, inbox[n]) {
      TurnLater(check, states, events, states', events', marks[n], marks[n + 1], w, inbox[n]);
    }
  }

  lemma TurnsSnoc(check: ProofCheck, states: seq<State>, events: seq<Event>, marks: seq<nat>, w: int,
                   inbox: seq<Message>, msg: Message)
    requires TurnsTaken(check, states, events, marks, w, inbox)
    requires Turn(check, states, events, marks[|inbox|], |events|, w, msg)
    ensures TurnsTaken(check, states, events, marks + [|events|], w, inbox + [msg])
  {
    hide Turn;
  }

  lemma SettleIs(check: ProofCheck, s: State, t: nat, ok: bool)
    requires t in s.tasks && s.tasks[t].Payout?
    ensures Enabled(s, Settle(t, ok))
    ensures var pay := PayReward(s, s.tasks[t].userId, s.tasks[t].jobId, s.tasks[t].shardId);
            var book := if ok && pay.Some? then pay.value else s.book;
            Effect(check, s, Settle(t, ok)) == s.(book := book, tasks := s.tasks - {t})
  {
    hide PayReward;
  }

  /** The task a handler goes on with after a judgement. */
  function GoesOn(j: Judgement, workerId: int, userId: int, res: Result): Task
    requires !j.Dropped?
  {
    match j
    case Rejected(why) => Penalise(userId, res.jobId, res.shardId, why)
    case SatProved(a) => StoreSat(workerId, res.jobId, res.shardId, a)
    case UnsatProved(d) => CountUnsat(workerId, res.jobId, res.shardId, d)
  }

  class SimpleScheduler {
    const check: ProofCheck
    const workers: WorkerRegistry
    const accounts: Accounts
    var pending: seq<Shard>
    var workerShard: map<int, Shard>
    var completedJobs: set<int>
    var tables: Database
    ghost var states: seq<State>
    ghost var events: seq<Event>

    ghost function Now(): State
      reads this
      requires states != []
    {
      states[|states| - 1]
    }

    /** The fields are the last state of a run. */
    ghost predicate Mirrors()
      reads this, workers, accounts
    {
      && |states| == |events| + 1 && Run(check, states, events)
      && Now().mem == Memory(pending, workerShard, completedJobs)
      && Now().conns == workers.View() && Now().db == tables && Now().book == accounts.View()
    }

    /** So they are, with the mutex free. */
    ghost predicate Valid()
      reads this, workers, accounts
    {
      Mirrors() && Now().lock.Free?
    }

    /** The run went on by one step. */
    twostate predicate Took(e: Event)
      reads this, workers, accounts
      requires old(states) != []
    {
      && Mirrors() && events == old(events) + [e] && states == old(states) + [Now()]
      && Enabled(old(Now()), e) && Now() == Effect(check, old(Now()), e)
    }

    /** The run went on by the given steps. */
    twostate predicate Did(log: seq<Event>)
      reads this, workers, accounts
    {
      Valid() && events == old(events) + log && old(states) <= states
    }

    constructor (check: ProofCheck, workers: WorkerRegistry, accounts: Accounts)
      requires workers.View() == Conns(map[], 0) && accounts.View() == Book(map[], [])
      ensures Valid() && events == [] && fresh(this)
      ensures this.check == check && this.workers == workers && this.accounts == accounts
    {
      this.check, this.workers, this.accounts := check, workers, accounts;
      pending, workerShard, completedJobs := [], map[], {};
      tables := Database(map[], map[], map[], map[], map[]);
      states, events := [INIT], [];
    }

    ghost method Record(e: Event)
      requires Run(check, states, events) && Enabled(Now(), e)
      modifies `states, `events
      ensures Run(check, states, events)
      ensures events == old(events) + [e] && states == old(states) + [Effect(check, old(Now()), e)]
    {
      hide Effect, Enabled;
      RunSnoc(check, states, events, e);
      states, events := states + [Effect(check, Now(), e)], events + [e];
    }

    // ---- Assigning ----

    /** Under the mutex throughout: pop the first live shard, check the worker, send. */
    method MaybeAssignWork(workerId: int, readable: bool, sendOk: bool) returns (ghost log: seq<Event>)
      requires Valid()
      modifies this
      ensures Did(log) && unchanged(`tables, `completedJobs) && Offered(log, workerId)
      ensures var picked := PickStep(old(Now()), workerId, readable);
              if picked.lock.Free? then log == [Pick(workerId, readable)] && Now() == picked
              else log == [Pick(workerId, readable), Send(sendOk)] && Now() == SendStep(picked, sendOk)
    {
      hide Run, PickStep, SendStep, Offered;
      var sh, userId := TakeFor(workerId, readable);
      log := [Pick(workerId, readable)];
      if sh.Some? {
        SendTo(workerId, userId, sh.value, sendOk);
        log := log + [Send(sendOk)];
      }
      AssignmentAsks(log, workerId, readable, sendOk);
    }

    method TakeFor(workerId: int, readable: bool) returns (sh: Option<Shard>, userId: int)
      requires Valid()
      modifies this
      ensures Took(Pick(workerId, readable)) && unchanged(`tables, `completedJobs)
      ensures Now().lock == if sh.Some? then Sending(workerId, userId, sh.value) else Free
    {
      hide Run, PickLive;
      sh, userId := None, 0;
      if workerId !in workerShard {
        sh := PopLive();
      }
      if sh.Some? {
        var rich := WorkerHasMinBalance(workerId);
        var conn := workers.Get(workerId);
        if !readable || !rich || conn.None? {
          pending := [sh.value] + pending;
          sh := None;
        } else {
          userId := conn.value;
        }
      }
      Record(Pick(workerId, readable));
    }

    method SendTo(workerId: int, userId: int, sh: Shard, sendOk: bool)
      requires Mirrors() && Now().lock == Sending(workerId, userId, sh)
      modifies this
      ensures Took(Send(sendOk)) && Now().lock.Free? && unchanged(`tables, `completedJobs)
    {
      hide Run;
      if sendOk {
        workerShard := workerShard[workerId := sh.(userId := userId)];
      } else {
        pending := [sh] + pending;
      }
      Record(Send(sendOk));
    }

    method PopLive() returns (sh: Option<Shard>)
      modifies `pending
      ensures Picked(sh, pending) == PickLive(old(pending), completedJobs)
    {
      sh := None;
      while pending != [] && sh.None?
        modifies `pending
        invariant PickLive(old(pending), completedJobs)
                  == if sh.Some? then Picked(sh, pending) else PickLive(pending, completedJobs)
        decreases |pending|
      {
        var candidate := pending[0];
        pending := pending[1..];
        if candidate.jobId !in completedJobs {
          sh := Some(candidate);
        }
      }
    }

    /** Ten thousand pay for one penalty. */
    method WorkerHasMinBalance(workerId: int) returns (ok: bool)
      ensures ok <==> workerId in workers.data && workers.data[workerId] in accounts.balance
                      && accounts.balance[workers.data[workerId]] >= 10_000
    {
      var conn := workers.Get(workerId);
      if conn.None? || conn.value !in accounts.balance {
        return false;
      }
      return accounts.balance[conn.value] >= MIN_WORKER_BALANCE;
    }

    // ---- Critical sections and transactions of the handlers ----

    /** The worker's slot is cleared, whatever shard the result names. */
    method TakeResult(workerId: int, res: Result) returns (userId: int, ghost t: nat)
      requires Valid() && InPhase(Now(), workerId, Live)
      modifies this
      ensures Took(Receive(workerId, res)) && Now().lock.Free? && unchanged(`tables) && t == old(Now().nextTask)
      ensures t in Now().tasks && Now().tasks[t] == JudgeResult(workerId, userId, res)
    {
      userId, t := 0, Now().nextTask;
      hide Run;
      if workerId in workerShard {
        userId := workerShard[workerId].userId;
      }
      workerShard := workerShard - {workerId};
      Record(Receive(workerId, res));
    }

    /** A penalty that cannot be charged is only logged. */
    method PenalizeWorker(userId: int, jobId: int, shardId: int, why: string, dbOk: bool, ghost t: nat)
      requires Valid() && t in Now().tasks && Now().tasks[t] == Penalise(userId, jobId, shardId, why)
      modifies this, accounts
      ensures Took(Punish(t, dbOk)) && Now().lock.Free? && unchanged(`tables)
      ensures if dbOk && userId != 0 && userId in old(accounts.balance) && old(accounts.balance[userId]) >= 10_000 then
                Entered(old(accounts.View()), accounts.View(), userId, -10_000, "worker_penalty", About(jobId, shardId))
              else accounts.View() == old(accounts.View())
      ensures t in Now().tasks && Now().tasks[t] == Requeue(shardId)
    {
      BalancesFit(check, states, events);
      hide Run;
      if userId != 0 {
        var outcome := accounts.ChangeUserBalance(userId, -WORKER_PENALTY, "worker_penalty",
                                                  About(jobId, shardId), dbOk);
      }
      Record(Punish(t, dbOk));
    }

    /** One transaction on a copy of the tables, which the commit stores. */
    method StoreSatShardResult(workerId: int, jobId: int, shardId: int, assignment: seq<int>, dbOk: bool, ghost t: nat)
      returns (ok: bool)
      requires Valid() && t in Now().tasks && Now().tasks[t] == StoreSat(workerId, jobId, shardId, assignment)
      modifies this
      ensures Took(CommitSat(t, dbOk)) && Now().lock.Free? && ok == dbOk
      ensures if ok then Stored(old(tables), tables, jobId, shardId, FoundSat(assignment), Some(JobSat(assignment)))
              else tables == old(tables)
      ensures ok ==> t in Now().tasks && Now().tasks[t] == FinishSat(workerId, jobId, shardId)
    {
      SatHasRow(t);
      hide Run;
      var tx := tables;
      tx := tx.(results := tx.results[shardId := FoundSat(assignment)]);
      tx := tx.(shards := tx.shards[shardId := tx.shards[shardId].(status := Completed)]);
      if jobId !in tx.verdicts {
        tx := tx.(verdicts := tx.verdicts[jobId := JobSat(assignment)]);
      }
      tx := tx.(jobs := tx.jobs[jobId := tx.jobs[jobId].(status := Completed)]);
      if dbOk {
        tables := tx;
      }
      Record(CommitSat(t, dbOk));
      return dbOk;
    }

    lemma SatHasRow(t: nat)
      requires Valid() && t in Now().tasks && Now().tasks[t].StoreSat?
      ensures RowOf(tables, Now().tasks[t].jobId, Now().tasks[t].shardId)
    {
      RunSafe(check, states, events, |events|);
      hide Run, Safe, DbSound, Accepts;
      KnownSat(check, Now(), t);
    }

    lemma UnsatHasRow(t: nat)
      requires Valid() && t in Now().tasks && (Now().tasks[t].CountUnsat? || Now().tasks[t].CommitUnsat?)
      ensures RowOf(tables, Now().tasks[t].jobId, Now().tasks[t].shardId)
    {
      RunSafe(check, states, events, |events|);
      hide Run, Safe, DbSound, Evident, Refuted;
      if Now().tasks[t].CountUnsat? {
        KnownUnsat(check, Now(), t);
      } else {
        KnownCounts(check, Now(), t);
      }
    }

    /** The job is marked completed; the other workers on it are sent a cancellation. */
    method MarkJobCompletedAndCancelOthers(jobId: int, winner: int, shardId: int, ghost t: nat)
      returns (targets: seq<int>)
      requires Valid() && t in Now().tasks && Now().tasks[t] == FinishSat(winner, jobId, shardId)
      modifies this
      ensures Took(Finish(t)) && Now().lock.Free? && unchanged(`tables, `workerShard)
      ensures completedJobs == old(completedJobs) + {jobId}
      ensures t in Now().tasks && Now().tasks[t] == Reward(winner, jobId, shardId)
      ensures forall w :: w in targets <==> w in workerShard && workerShard[w].jobId == jobId && w != winner
    {
      hide Run;
      completedJobs := completedJobs + {jobId};
      Record(Finish(t));
      targets := OthersOn(workerShard, jobId, winner);
    }

    static method OthersOn(slots: map<int, Shard>, jobId: int, winner: int) returns (targets: seq<int>)
      ensures forall w :: w in targets <==> w in slots && slots[w].jobId == jobId && w != winner
    {
      targets := [];
      var left := slots.Keys;
      while left != {}
        invariant left <= slots.Keys
        invariant forall w :: w in targets <==> w in slots && w !in left && slots[w].jobId == jobId && w != winner
        decreases |left|
      {
        assert (forall w :: w !in left) ==> left == {};
        var wid :| wid in left;
        left := left - {wid};
        if slots[wid].jobId == jobId && wid != winner {
          targets := targets + [wid];
        }
      }
    }

    /** The counts inside the UNSAT transaction, after its own two writes. */
    method CountShards(workerId: int, jobId: int, shardId: int, dratId: int, ghost t: nat) returns (all: bool)
      requires Valid() && t in Now().tasks && Now().tasks[t] == CountUnsat(workerId, jobId, shardId, dratId)
      modifies this
      ensures Took(Count(t)) && Now().lock.Free? && unchanged(`tables)
      ensures all == AllRefuted(StoreUnsatShard(tables, shardId, dratId), jobId)
      ensures t in Now().tasks && Now().tasks[t] == if all then FinishUnsat(workerId, jobId, shardId, dratId)
                                                    else CommitUnsat(workerId, jobId, shardId, dratId, false)
    {
      UnsatHasRow(t);
      hide Run, ShardsOf, CompletedOf, SatOf;
      var tx := tables;
      tx := tx.(results := tx.results[shardId := FoundUnsat(dratId)]);
      tx := tx.(shards := tx.shards[shardId := tx.shards[shardId].(status := Completed)]);
      var totalShards, completedShards := |ShardsOf(tx, jobId)|, |CompletedOf(tx, jobId)|;
      var satShards := |SatOf(tx, jobId)|;
      all := totalShards > 0 && completedShards == totalShards && satShards == 0;
      Record(Count(t));
    }

    /** In memory the job is completed before the transaction commits. */
    method MarkRefuted(workerId: int, jobId: int, shardId: int, dratId: int, ghost t: nat)
      requires Valid() && t in Now().tasks && Now().tasks[t] == FinishUnsat(workerId, jobId, shardId, dratId)
      modifies this
      ensures Took(Finish(t)) && Now().lock.Free? && unchanged(`tables)
      ensures completedJobs == old(completedJobs) + {jobId}
      ensures t in Now().tasks && Now().tasks[t] == CommitUnsat(workerId, jobId, shardId, dratId, true)
    {
      hide Run;
      completedJobs := completedJobs + {jobId};
      Record(Finish(t));
    }

    method StoreUnsatShardResult(workerId: int, jobId: int, shardId: int, dratId: int, all: bool, dbOk: bool,
                                 ghost t: nat)
      returns (ok: bool)
      requires Valid() && t in Now().tasks && Now().tasks[t] == CommitUnsat(workerId, jobId, shardId, dratId, all)
      modifies this
      ensures Took(Commit(t, dbOk)) && Now().lock.Free? && ok == dbOk
      ensures if ok then
                Stored(old(tables), tables, jobId, shardId, FoundUnsat(dratId), if all then Some(JobUnsat) else None)
              else tables == old(tables)
      ensures ok ==> t in Now().tasks && Now().tasks[t] == Reward(workerId, jobId, shardId)
    {
      UnsatHasRow(t);
      hide Run;
      var tx := tables;
      tx := tx.(results := tx.results[shardId := FoundUnsat(dratId)]);
      tx := tx.(shards := tx.shards[shardId := tx.shards[shardId].(status := Completed)]);
      if all {
        if jobId !in tx.verdicts {
          tx := tx.(verdicts := tx.verdicts[jobId := JobUnsat]);
        }
        tx := tx.(jobs := tx.jobs[jobId := tx.jobs[jobId].(status := Completed)]);
      }
      if dbOk {
        tables := tx;
      }
      Record(Commit(t, dbOk));
      return dbOk;
    }

    /** First half of re-enqueueing: the shard's row is read and set pending. */
    method ReopenShard(shardId: int, dbOk: bool, ghost t: nat) returns (sh: Option<Shard>)
      requires Valid() && t in Now().tasks && Now().tasks[t] == Requeue(shardId)
      modifies this
      ensures Took(Reopen(t, dbOk)) && Now().lock.Free? && unchanged(`pending)
      ensures sh.Some? <==> dbOk && shardId in old(tables).shards
      ensures sh.Some? ==> t in Now().tasks && Now().tasks[t] == Append([sh.value])
    {
      hide Run;
      if !dbOk || shardId !in tables.shards {
        Record(Reopen(t, dbOk));
        return None;
      }
      var row := tables.shards[shardId];
      tables := tables.(shards := tables.shards[shardId := row.(status := Status.Pending)]);
      Record(Reopen(t, dbOk));
      return Some(Shard(row.jobId, shardId, row.cube, 0));
    }

    /** Second half, under the mutex. */
    method AppendPending(shards: seq<Shard>, ghost t: nat)
      requires Valid() && t in Now().tasks && Now().tasks[t] == Append(shards)
      modifies this
      ensures Took(Queue(t)) && Now().lock.Free? && unchanged(`tables)
      ensures pending == old(pending) + shards
    {
      hide Run;
      pending := pending + shards;
      Record(Queue(t));
    }

    method MarkShardAssigned(shardId: int, dbOk: bool, ghost t: nat)
      requires Valid() && t in Now().tasks && Now().tasks[t] == MarkRunning(shardId)
      modifies this
      ensures Took(Started(t, dbOk)) && Now().lock.Free?
    {
      hide Run;
      if dbOk && shardId in tables.shards {
        tables := tables.(shards := tables.shards[shardId := tables.shards[shardId].(status := Status.Running)]);
      }
      Record(Started(t, dbOk));
    }

    method RewardWorkerForJob(jobId: int, shardId: int, workerId: int, dbOk: bool, ghost t: nat)
      returns (ghost log: seq<Event>)
      requires Valid() && t in Now().tasks && Now().tasks[t] == Reward(workerId, jobId, shardId)
      modifies this, accounts
      ensures Did(log) && unchanged(`tables)
      ensures log == [Resolve(t)] + if workerId in workers.data then [Settle(t, dbOk)] else []
    {
      hide Run, Effect, Enabled;
      var userId := GetWorkerUserID(workerId, jobId, shardId, t);
      log := [Resolve(t)];
      if userId.Some? {
        PayWorker(workerId, userId.value, jobId, shardId, dbOk, t);
        log := log + [Settle(t, dbOk)];
      }
    }

    method GetWorkerUserID(workerId: int, jobId: int, shardId: int, ghost t: nat) returns (userId: Option<int>)
      requires Valid() && t in Now().tasks && Now().tasks[t] == Reward(workerId, jobId, shardId)
      modifies this`states, this`events
      ensures Took(Resolve(t)) && Now().lock.Free?
      ensures userId == if workerId in workers.data then Some(workers.data[workerId]) else None
      ensures userId.Some? ==> t in Now().tasks && Now().tasks[t] == Payout(workerId, userId.value, jobId, shardId)
    {
      hide Run;
      userId := workers.Get(workerId);
      Record(Resolve(t));
    }

    method PayWorker(workerId: int, userId: int, jobId: int, shardId: int, dbOk: bool, ghost t: nat)
      requires Valid() && t in Now().tasks && Now().tasks[t] == Payout(workerId, userId, jobId, shardId)
      modifies this`states, this`events, accounts
      ensures Took(Settle(t, dbOk)) && Now().lock.Free?
    {
      SettleIs(check, Now(), t, dbOk);
      hide Run, Effect, Enabled, PayReward, FeeMoved, CanPay, Fee;
      TransferReward(jobId, shardId, userId, dbOk);
      Record(Settle(t, dbOk));
    }

    lemma RewardIsPaidIff(userId: int, jobId: int, shardId: int)
      requires Valid()
      ensures var s, pay := Now(), PayReward(Now(), userId, jobId, shardId);
              if jobId in s.db.jobs && CanPay(s, userId, jobId, Fee(s.db.jobs[jobId].file)) then
                pay.Some? && FeeMoved(s, pay.value, userId, jobId, shardId)
              else pay.None?
    {
      BooksParts(check, states, events, |events|, jobId, shardId);
      hide Run, AlreadyPaid, Balanced, PayReward, FeeMoved, CanPay, Fee;
      PaysIff(Now(), userId, jobId, shardId);
    }

    /** Client to worker, once nothing in the books says the shard was rewarded. */
    method TransferReward(jobId: int, shardId: int, userId: int, dbOk: bool)
      requires Valid()
      modifies accounts
      ensures var pay := PayReward(Now(), userId, jobId, shardId);
              accounts.View() == if dbOk && pay.Some? then pay.value else old(accounts.View())
      ensures var s := old(Now());
              if dbOk && jobId in s.db.jobs && CanPay(s, userId, jobId, Fee(s.db.jobs[jobId].file)) then
                FeeMoved(s, accounts.View(), userId, jobId, shardId)
              else accounts.View() == s.book
    {
      RewardIsPaidIff(userId, jobId, shardId);
      BalancesFit(check, states, events);
      hide Run, AlreadyPaid, Transfer, RewardFor, FeeMoved, CanPay, Fee;
      var paid := CountRewards(accounts.rows, jobId, shardId);
      assert paid > 0 <==> AlreadyPaid(accounts.View(), jobId, shardId);
      if paid > 0 || jobId !in tables.jobs {
        return;
      }
      var reward := ComputeReward(tables.jobs[jobId].file);
      if reward.Some? {
        var outcome := accounts.TransferUserBalance(tables.jobs[jobId].userId, userId, reward.value,
                                                    "worker_reward", About(jobId, shardId), dbOk);
      }
    }

    static method CountRewards(rows: seq<Row>, jobId: int, shardId: int) returns (n: nat)
      ensures n > 0 <==> exists i :: 0 <= i < |rows| && RewardedFor(rows[i], jobId, shardId)
    {
      n := 0;
      for k := 0 to |rows|
        invariant n > 0 <==> exists i :: 0 <= i < k && RewardedFor(rows[i], jobId, shardId)
      {
        if RewardedFor(rows[k], jobId, shardId) {
          n := n + 1;
        }
      }
    }

    // ---- Splitting a job ----

    /** Validation, cubes, and one transaction for all shard rows, whose ids the database hands out. */
    method SplitIntoShards(jobId: int, ids: seq<int>, dbOk: bool, ghost t: nat)
      returns (valid: bool, shards: Option<seq<Shard>>)
      requires Valid() && t in Now().tasks && Now().tasks[t] == SplitJob(jobId)
      requires jobId in tables.jobs && tables.jobs[jobId].maxWorkers <= MAX_INT64 && FreshIds(tables, jobId, ids)
      modifies this
      ensures Took(Insert(t, ids, dbOk)) && Now().lock.Free?
      ensures valid <==> Dimacs.Valid(old(tables).jobs[jobId].file)
      ensures shards.Some? <==> valid && dbOk && CubesOf(old(tables).jobs[jobId]).Some?
      ensures !valid ==> t in Now().tasks && Now().tasks[t] == RejectJob(jobId)
      ensures valid && shards.Some? ==> t in Now().tasks && Now().tasks[t] == Append(shards.value)
    {
      hide Run, Dimacs.Valid, CubesOf, InsertShards, NewShards;
      valid, shards, tables := GenerateRows(tables, jobId, ids, dbOk);
      Record(Insert(t, ids, dbOk));
    }

    static method GenerateRows(db: Database, jobId: int, ids: seq<int>, dbOk: bool)
      returns (valid: bool, shards: Option<seq<Shard>>, tx: Database)
      requires jobId in db.jobs && db.jobs[jobId].maxWorkers <= MAX_INT64 && FreshIds(db, jobId, ids)
      ensures valid <==> Dimacs.Valid(db.jobs[jobId].file)
      ensures var cubes := CubesOf(db.jobs[jobId]);
              if valid && cubes.Some? && dbOk then
                tx == InsertShards(db, jobId, ids, cubes.value) && shards == Some(NewShards(jobId, ids, cubes.value))
              else tx == db && shards == None
    {
      hide Dimacs.Valid, CubesOf, InsertShards, NewShards;
      var job := db.jobs[jobId];
      var maxWorkers := if job.maxWorkers <= 0 then 1 else job.maxWorkers;
      shards, tx := None, db;
      valid := ValidateDIMACS(job.file);
      if !valid {
        return;
      }
      var cubes := GenerateCubes(job.file, maxWorkers);
      assert cubes == CubesOf(job) by { IsSplit(job); }
      if cubes.None? || !dbOk {
        return;
      }
      var newShards;
      tx, newShards := InsertRows(db, jobId, ids, cubes.value);
      shards := Some(newShards);
    }

    static lemma IsSplit(job: JobRow)
      ensures CubesOf(job) == Split(job.file, if job.maxWorkers <= 0 then 1 else job.maxWorkers)
    {
    }

    static method InsertRows(db: Database, jobId: int, ids: seq<int>, cubes: seq<seq<int>>)
      returns (tx: Database, newShards: seq<Shard>)
      requires |ids| == |cubes|
      ensures tx == InsertShards(db, jobId, ids, cubes) && newShards == NewShards(jobId, ids, cubes)
    {
      tx, newShards := db, [];
      for i := 0 to |cubes|
        invariant tx == InsertShards(db, jobId, ids[..i], cubes[..i])
        invariant newShards == NewShards(jobId, ids, cubes)[..i]
      {
        tx := tx.(shards := tx.shards[ids[i] := ShardRow(jobId, cubes[i], Status.Pending)]);
        newShards := newShards + [Shard(jobId, ids[i], cubes[i], 0)];
        assert ids[..i + 1][..i] == ids[..i] && cubes[..i + 1][..i] == cubes[..i];
      }
      assert ids[..|ids|] == ids && cubes[..|cubes|] == cubes;
    }

    method FailJob(jobId: int, dbOk: bool, ghost t: nat)
      requires Valid() && t in Now().tasks && Now().tasks[t] == RejectJob(jobId)
      modifies this
      ensures Took(Reject(t, dbOk)) && Now().lock.Free?
      ensures t in Now().tasks && Now().tasks[t] == AbandonJob(jobId)
    {
      hide Run;
      if dbOk && jobId in tables.jobs {
        tables := tables.(jobs := tables.jobs[jobId := tables.jobs[jobId].(status := Status.Failed)]);
      }
      Record(Reject(t, dbOk));
    }

    method Forget(jobId: int, ghost t: nat)
      requires Valid() && t in Now().tasks && Now().tasks[t] == AbandonJob(jobId)
      modifies this
      ensures Took(Abandon(t)) && Now().lock.Free? && completedJobs == old(completedJobs) + {jobId}
    {
      hide Run;
      completedJobs := completedJobs + {jobId};
      Record(Abandon(t));
    }

    // ---- Connections ----

    method Accept(userId: int) returns (workerId: int)
      requires Valid()
      modifies this, workers
      ensures Took(Connect(userId)) && Now().lock.Free? && InPhase(Now(), workerId, Fresh(userId))
      ensures workerId == old(workers.nextID) + 1
    {
      hide Run;
      workerId := workers.NewID();
      Record(Connect(userId));
    }

    method RegisterWorker(workerId: int, userId: int)
      requires Valid() && InPhase(Now(), workerId, Fresh(userId))
      modifies this, workers
      ensures Took(Register(workerId)) && Now().lock.Free? && InPhase(Now(), workerId, Live)
    {
      hide Run;
      workers.Set(workerId, userId);
      Record(Register(workerId));
    }

    method UnregisterWorker(workerId: int)
      requires Valid() && InPhase(Now(), workerId, Live)
      modifies this, workers
      ensures Took(Unregister(workerId)) && Now().lock.Free? && InPhase(Now(), workerId, Leaving)
    {
      hide Run;
      workers.Delete(workerId);
      Record(Unregister(workerId));
    }

    method LeaveSlot(workerId: int) returns (held: Option<Shard>, ghost t: nat)
      requires Valid() && InPhase(Now(), workerId, Leaving)
      modifies this
      ensures Took(Disconnect(workerId)) && Now().lock.Free? && InPhase(Now(), workerId, Gone)
      ensures held == if workerId in old(workerShard) then Some(old(workerShard[workerId])) else None
      ensures unchanged(`tables) && t == old(Now().nextTask)
      ensures held.Some? ==> t in Now().tasks && Now().tasks[t] == Requeue(held.value.shardId)
    {
      t := Now().nextTask;
      hide Run;
      held := if workerId in workerShard then Some(workerShard[workerId]) else None;
      workerShard := workerShard - {workerId};
      Record(Disconnect(workerId));
    }

    // ---- The handlers ----

    /** Every registered worker is asked once. */
    method NudgeWorkers() returns (ghost log: seq<Event>)
      requires Valid()
      modifies this
      ensures Did(log) && Offers(log, workers.data.Keys)
    {
      hide Run, Asked;
      log := [];
      var workerIDs := workers.IDs();
      NobodyAsked();
      for i := 0 to |workerIDs|
        invariant Did(log) && Assigns(log) && Asked(log) == workerIDs[..i]
      {
        var readable: bool, sendOk: bool := *, *;
        var more := MaybeAssignWork(workerIDs[i], readable, sendOk);
        AskedConcat(log, more);
        log := log + more;
      }
      assert Asked(log) == workerIDs;
      assert (set w | w in Asked(log)) == workers.data.Keys;
    }

    method ReenqueueShard(shardId: int, ghost t: nat) returns (ghost log: seq<Event>)
      requires Valid() && t in Now().tasks && Now().tasks[t] == Requeue(shardId)
      modifies this
      ensures Did(log) && Requeues(old(tables), workers.data.Keys, shardId, t, log)
    {
      hide Run, Effect, Enabled;
      var dbOk: bool := *;
      var sh := ReopenShard(shardId, dbOk, t);
      log := [Reopen(t, dbOk)];
      if sh.None? {
        return;
      }
      AppendPending([sh.value], t);
      var more := NudgeWorkers();
      log := log + [Queue(t)] + more;
    }

    method VerifySatResult(res: Result, lookupOk: bool) returns (j: Judgement)
      ensures j == JudgeSat(tables, res, lookupOk)
    {
      hide ParsedAssignment, Accepts;
      var assignment := ParseAssignment(res.info);
      if assignment.None? {
        return Rejected("invalid_sat_assignment_parse");
      }
      if !lookupOk || !RowOf(tables, res.jobId, res.shardId) {
        return Judgement.Dropped;
      }
      var ok := VerifySatAssignment(tables.jobs[res.jobId].file, tables.shards[res.shardId].cube, assignment.value);
      if !ok {
        return Rejected("invalid_sat_assignment_unsatisfied");
      }
      return SatProved(assignment.value);
    }

    method VerifyUnsatResult(res: Result, lookupOk: bool) returns (j: Judgement)
      ensures j == JudgeUnsat(check, tables, res, lookupOk)
    {
      hide TrimSpace, Atoi, Cubed, Normalised;
      var dratIDStr := TrimSpace(res.info);
      if dratIDStr == "" {
        return Rejected("unsat_missing_drat_id");
      }
      var dratID := Atoi(dratIDStr);
      if dratID.None? {
        return Rejected("unsat_invalid_drat_id");
      }
      if !lookupOk {
        return Judgement.Dropped;
      }
      if dratID.value !in tables.proofs {
        return Rejected("unsat_drat_file_not_found");
      }
      if !RowOf(tables, res.jobId, res.shardId) {
        return Judgement.Dropped;
      }
      var cubed := ApplyCube(tables.jobs[res.jobId].file, tables.shards[res.shardId].cube);
      var solveCNF := PrepareCNFForSolving(cubed);
      if !check(solveCNF, tables.proofs[dratID.value]) {
        return Rejected("invalid_drat_proof");
      }
      return UnsatProved(dratID.value);
    }

    method VerifyResult(res: Result, lookupOk: bool) returns (j: Judgement)
      ensures j == Judge(check, tables, res, lookupOk)
    {
      hide JudgeSat, JudgeUnsat;
      if res.sat {
        j := VerifySatResult(res, lookupOk);
      } else {
        j := VerifyUnsatResult(res, lookupOk);
      }
    }

    /** The lookups and the check of one result; what the handler goes on with. */
    method JudgeReported(workerId: int, userId: int, res: Result, lookupOk: bool, ghost t: nat) returns (j: Judgement)
      requires Valid() && t in Now().tasks && Now().tasks[t] == JudgeResult(workerId, userId, res)
      modifies this
      ensures Took(Verify(t, lookupOk)) && Now().lock.Free? && unchanged(`tables)
      ensures j == Judge(check, tables, res, lookupOk)
      ensures !j.Dropped? ==> t in Now().tasks && Now().tasks[t] == GoesOn(j, workerId, userId, res)
    {
      hide Run, Judge;
      j := VerifyResult(res, lookupOk);
      Record(Verify(t, lookupOk));
    }

    method StoreSatAndFinish(workerId: int, jobId: int, shardId: int, assignment: seq<int>, ghost t: nat)
      returns (ghost log: seq<Event>)
      requires Valid() && t in Now().tasks && Now().tasks[t] == StoreSat(workerId, jobId, shardId, assignment)
      modifies this
      ensures Did(log) && StoresSat(t, log)
    {
      hide Run, Effect, Enabled;
      var dbOk: bool := *;
      var ok := StoreSatShardResult(workerId, jobId, shardId, assignment, dbOk, t);
      log := [CommitSat(t, dbOk)];
      if ok {
        var cancelled := MarkJobCompletedAndCancelOthers(jobId, workerId, shardId, t);
        log := log + [Finish(t)];
      }
    }

    method StoreUnsatAndFinish(workerId: int, jobId: int, shardId: int, dratId: int, ghost t: nat)
      returns (ghost log: seq<Event>)
      requires Valid() && t in Now().tasks && Now().tasks[t] == CountUnsat(workerId, jobId, shardId, dratId)
      modifies this
      ensures Did(log) && StoresUnsat(AllRefuted(StoreUnsatShard(old(tables), shardId, dratId), jobId), t, log)
    {
      hide Run, Effect, Enabled, AllRefuted, StoreUnsatShard;
      var all := CountShards(workerId, jobId, shardId, dratId, t);
      log := [Count(t)];
      if all {
        MarkRefuted(workerId, jobId, shardId, dratId, t);
        log := log + [Finish(t)];
      }
      var dbOk: bool := *;
      var ok := StoreUnsatShardResult(workerId, jobId, shardId, dratId, all, dbOk, t);
      log := log + [Commit(t, dbOk)];
    }

    method PunishAndReenqueue(userId: int, jobId: int, shardId: int, why: string, ghost t: nat)
      returns (ghost log: seq<Event>)
      requires Valid() && t in Now().tasks && Now().tasks[t] == Penalise(userId, jobId, shardId, why)
      modifies this, accounts
      ensures Did(log) && Punishes(old(tables), workers.data.Keys, shardId, t, log)
    {
      hide Run, Effect, Enabled, Requeues;
      var dbOk: bool := *;
      PenalizeWorker(userId, jobId, shardId, why, dbOk, t);
      var more := ReenqueueShard(shardId, t);
      log := [Punish(t, dbOk)] + more;
      assert log[1..] == more;
    }

    method GoOn(j: Judgement, workerId: int, userId: int, res: Result, ghost t: nat) returns (ghost log: seq<Event>)
      requires Valid() && (!j.Dropped? ==> t in Now().tasks && Now().tasks[t] == GoesOn(j, workerId, userId, res))
      modifies this, accounts
      ensures Did(log) && Follows(old(tables), workers.data.Keys, res, j, t, log)
    {
      hide Run, Effect, Enabled, Punishes, StoresSat, StoresUnsat, AllRefuted, StoreUnsatShard;
      log := [];
      match j {
        case Dropped =>
        case Rejected(why) => log := PunishAndReenqueue(userId, res.jobId, res.shardId, why, t);
        case SatProved(a) => log := StoreSatAndFinish(workerId, res.jobId, res.shardId, a, t);
        case UnsatProved(d) => log := StoreUnsatAndFinish(workerId, res.jobId, res.shardId, d, t);
      }
    }

    method HandleJobResult(workerId: int, res: Result) returns (ghost log: seq<Event>)
      requires Valid() && InPhase(Now(), workerId, Live)
      modifies this, accounts
      ensures Did(log) && Handles(check, old(tables), workers.data.Keys, workerId, res, old(Now().nextTask), log)
    {
      hide Run, Effect, Enabled, Judge, Follows, GoesOn;
      var lookupOk: bool := *;
      ghost var t;
      var userId;
      userId, t := TakeResult(workerId, res);
      var j := JudgeReported(workerId, userId, res, lookupOk, t);
      var more := GoOn(j, workerId, userId, res, t);
      log := [Receive(workerId, res), Verify(t, lookupOk)] + more;
      assert log[2..] == more;
    }

    /** Runs after the connection was unregistered. */
    method HandleDisconnect(workerId: int) returns (ghost log: seq<Event>)
      requires Valid() && InPhase(Now(), workerId, Leaving)
      modifies this
      ensures Did(log) && log != [] && log[0] == Disconnect(workerId) && AllIndoors(log[1..])
      ensures if workerId in old(workerShard)
              then Requeues(old(tables), workers.data.Keys, old(workerShard[workerId]).shardId,
                            old(Now().nextTask), log[1..])
              else log[1..] == []
    {
      hide Run, Effect, Enabled, Requeues;
      ghost var t;
      var shard;
      shard, t := LeaveSlot(workerId);
      log := [Disconnect(workerId)];
      if shard.Some? {
        var more := ReenqueueShard(shard.value.shardId, t);
        RequeuesIndoors(old(tables), workers.data.Keys, shard.value.shardId, t, more);
        log := log + more;
        assert log[1..] == more;
      }
    }

    /** An invalid file fails the job; otherwise all its shards are inserted, queued and offered. */
    method EnqueueJob(jobId: int, ids: seq<int>, ghost t: nat) returns (ghost log: seq<Event>)
      requires Valid() && t in Now().tasks && Now().tasks[t] == SplitJob(jobId)
      requires jobId in tables.jobs && tables.jobs[jobId].maxWorkers <= MAX_INT64 && FreshIds(tables, jobId, ids)
      modifies this
      ensures Did(log) && log != [] && log[0].Insert? && log[0].task == t && log[0].ids == ids
      ensures !Dimacs.Valid(old(tables).jobs[jobId].file) ==>
                |log| == 3 && log[1].Reject? && log[1].task == t && log[2] == Abandon(t) && jobId in completedJobs
      ensures Dimacs.Valid(old(tables).jobs[jobId].file) ==>
                if log[0].ok && CubesOf(old(tables).jobs[jobId]).Some? then
                  |log| > 1 && log[1] == Queue(t) && Offers(log[2..], workers.data.Keys)
                else |log| == 1
    {
      hide Run, Effect, Enabled, Dimacs.Valid, FreshIds, CubesOf, Offers;
      var insertOk: bool := *;
      var valid, newShards := SplitIntoShards(jobId, ids, insertOk, t);
      log := [Insert(t, ids, insertOk)];
      if !valid {
        var dbOk: bool := *;
        FailJob(jobId, dbOk, t);
        Forget(jobId, t);
        log := log + [Reject(t, dbOk), Abandon(t)];
      } else if newShards.Some? {
        AppendPending(newShards.value, t);
        var more := NudgeWorkers();
        log := log + [Queue(t)] + more;
        assert log[2..] == more;
      }
    }

    // ---- Serving a connection ----

    /** One connection from its first to its last step. */
    method Work(userId: int, inbox: seq<Message>) returns (workerId: int, ghost marks: seq<nat>)
      requires Valid()
      modifies this, workers, accounts
      ensures Valid() && old(states) <= states && old(events) <= events
      ensures workerId == old(workers.nextID) + 1
      ensures Lifetime(check, states, events, |old(events)|, userId, workerId, marks, inbox)
      ensures InPhase(Now(), workerId, Gone) && workerId !in workerShard && workerId !in workers.data
    {
      hide Run, Arrives, TurnsTaken, LeavesAt;
      workerId := Arrive(userId);
      ghost var arrived := events;
      marks := ReceiveAll(workerId, inbox);
      ghost var was, done := states, events;
      Depart(workerId);
      ArrivesLater(arrived, events, |old(events)|, |arrived|, userId, workerId);
      TurnsLater(check, was, done, states, events, marks, workerId, inbox);
    }

    method Arrive(userId: int) returns (workerId: int)
      requires Valid()
      modifies this, workers
      ensures Valid() && old(states) <= states && old(events) <= events && InPhase(Now(), workerId, Live)
      ensures workerId == old(workers.nextID) + 1
      ensures Arrives(events, |old(events)|, |events|, userId, workerId)
    {
      hide Run, Effect, Enabled, Offered;
      workerId := Accept(userId);
      RegisterWorker(workerId, userId);
      ghost var n, mid := |events|, events;
      OfferWork(workerId);
      assert mid[n - 2] == events[n - 2] && mid[n - 1] == events[n - 1] && events[n..] == events[n..|events|];
    }

    /** Each message in its turn; `marks` says where in the run the turns begin and end. */
    method ReceiveAll(workerId: int, inbox: seq<Message>) returns (ghost marks: seq<nat>)
      requires Valid() && InPhase(Now(), workerId, Live)
      modifies this, accounts
      ensures Valid() && old(states) <= states && old(events) <= events && InPhase(Now(), workerId, Live)
      ensures TurnsTaken(check, states, events, marks, workerId, inbox)
      ensures marks[0] == |old(events)| && marks[|inbox|] == |events|
    {
      hide Run, Turn;
      marks := [|events|];
      for i := 0 to |inbox|
        invariant Valid() && old(states) <= states && old(events) <= events && InPhase(Now(), workerId, Live)
        invariant TurnsTaken(check, states, events, marks, workerId, inbox[..i])
        invariant marks[0] == |old(events)| && marks[i] == |events|
      {
        ghost var was, done := states, events;
        TakeTurn(workerId, inbox[i]);
        TurnsLater(check, was, done, states, events, marks, workerId, inbox[..i]);
        assert inbox[..i + 1] == inbox[..i] + [inbox[i]];
        TurnsSnoc(check, states, events, marks, workerId, inbox[..i], inbox[i]);
        marks := marks + [|events|];
      }
      assert inbox[..|inbox|] == inbox;
    }

    method TakeTurn(workerId: int, msg: Message)
      requires Valid() && InPhase(Now(), workerId, Live)
      modifies this, accounts
      ensures Valid() && old(states) <= states && old(events) <= events && Now().phases == old(Now().phases)
      ensures Turn(check, states, events, |old(events)|, |events|, workerId, msg)
    {
      hide Run, Offered, Answers;
      ghost var n := |events|;
      match msg {
        case Hello =>
          OfferWork(workerId);
          assert events[n..] == events[n..|events|];
        case JobResult(res) =>
          Answer(workerId, res);
          ghost var m, mid := |events|, events;
          assert mid[n..] == mid[n..m];
          OfferWork(workerId);
          assert events[n..m] == mid[n..m] && events[m..] == events[m..|events|];
          assert AnswersUntil(check, states, events, n, m, |events|, workerId, res);
        case Unknown =>
      }
    }

    /** The deferred calls run in this order: the registry entry goes first, then the slot, so
        nothing stays recorded against the connection. */
    method Depart(workerId: int)
      requires Valid() && InPhase(Now(), workerId, Live)
      modifies this, workers
      ensures Valid() && old(states) <= states && old(events) <= events
      ensures LeavesAt(states, events, |old(events)|, workerId)
      ensures InPhase(Now(), workerId, Gone) && workerId !in workerShard && workerId !in workers.data
    {
      hide Run, Effect, Enabled, Leaves;
      ghost var n := |events|;
      UnregisterWorker(workerId);
      ghost var mid := events;
      LeaveScheduler(workerId);
      assert events[n] == mid[n];
    }

    method LeaveScheduler(workerId: int)
      requires Valid() && InPhase(Now(), workerId, Leaving)
      modifies this
      ensures Valid() && old(states) <= states && old(events) <= events
      ensures Leaves(old(Now()), workerId, events[|old(events)|..])
      ensures InPhase(Now(), workerId, Gone) && workerId !in workerShard && workerId !in workers.data
    {
      var log := HandleDisconnect(workerId);
      assert events[|old(events)|..] == log;
      DepartedIn(workerId, |old(events)| + 1);
    }

    /** After `HandleDisconnect` the connection is gone, and gone connections hold nothing. */
    lemma DepartedIn(workerId: int, i: nat)
      requires Valid() && 1 <= i < |states|
      requires events[i - 1] == Disconnect(workerId) && forall n :: i <= n < |events| ==> Indoors(events[n])
      ensures InPhase(Now(), workerId, Gone) && workerId !in workerShard && workerId !in workers.data
    {
      assert Step(check, states[i - 1], events[i - 1], states[i]);
      assert InPhase(states[i], workerId, Gone);
      RunKeepsPhases(check, states, events, i, |events|);
      RunConnected(check, states, events, |events|);
      hide Run, Effect, Enabled, Indoors;
    }

    method OfferWork(workerId: int)
      requires Valid()
      modifies this
      ensures Valid() && old(states) <= states && old(events) <= events && Now().phases == old(Now().phases)
      ensures Offered(events[|old(events)|..], workerId)
    {
      var readable: bool, sendOk: bool := *, *;
      var log := MaybeAssignWork(workerId, readable, sendOk);
      hide PickStep, SendStep;
      assert events[|old(events)|..] == log;
      RunKeepsPhases(check, states, events, |old(events)|, |events|);
    }

    method Answer(workerId: int, res: Result)
      requires Valid() && InPhase(Now(), workerId, Live)
      modifies this, accounts
      ensures Valid() && old(states) <= states && old(events) <= events && Now().phases == old(Now().phases)
      ensures Answers(check, old(Now()), workerId, res, events[|old(events)|..])
    {
      var log := HandleJobResult(workerId, res);
      HandlesIndoors(check, old(tables), workers.data.Keys, workerId, res, old(Now().nextTask), log);
      hide Handles;
      assert events[|old(events)|..] == log;
      RunKeepsPhases(check, states, events, |old(events)|, |events|);
    }

    // ---- What the web handlers write ----

    /** A new job's file is normalised before it is stored. */
    method AcceptUpload(jobId: int, userId: int, upload: File, maxWorkers: int) returns (ghost t: nat)
      requires Valid() && jobId !in tables.jobs && 1 <= maxWorkers <= MAX_INT64
      modifies this
      ensures Took(Upload(jobId, userId, upload, maxWorkers)) && Now().lock.Free?
      ensures jobId in tables.jobs && UpToPercent(upload, tables.jobs[jobId].file)
      ensures tables == old(tables).(jobs := old(tables).jobs[jobId :=
                          JobRow(userId, tables.jobs[jobId].file, maxWorkers, Status.Pending)])
      ensures t in Now().tasks && Now().tasks[t] == SplitJob(jobId)
    {
      t := Now().nextTask;
      hide Run, Normalised;
      NormalisedIsUpToPercent(upload);
      var cleaned := PrepareCNFForSolving(upload);
      tables := tables.(jobs := tables.jobs[jobId := JobRow(userId, cleaned, maxWorkers, Status.Pending)]);
      Record(Upload(jobId, userId, upload, maxWorkers));
    }

    method AcceptProof(proofId: int, proof: Proof)
      requires Valid() && proofId !in tables.proofs
      modifies this
      ensures Took(UploadProof(proofId, proof)) && Now().lock.Free?
    {
      hide Run;
      tables := tables.(proofs := tables.proofs[proofId := proof]);
      Record(UploadProof(proofId, proof));
    }

    method AddUser(userId: int)
      requires Valid() && userId !in accounts.balance
      modifies this, accounts
      ensures Took(SignUp(userId)) && Now().lock.Free?
    {
      hide Run;
      accounts.AddUser(userId);
      Record(SignUp(userId));
    }

    /** Deposits, withdrawals and upload charges go through the same guarded change. */
    method ChangeWallet(userId: int, op: Wallet) returns (outcome: Outcome)
      requires Valid() && (op.UploadCharge? ==> op.cost <= MAX_INT64)
      modifies this, accounts
      ensures Took(Pay(userId, op)) && Now().lock.Free?
      ensures outcome == Committed
         <==> Change(old(accounts.View()), userId, WalletDelta(op), WalletReason(op), NoMeta).Some?
    {
      BalancesFit(check, states, events);
      hide Run, Change;
      outcome := accounts.ChangeUserBalance(userId, WalletDelta(op), WalletReason(op), NoMeta, true);
      Record(Pay(userId, op));
    }

    // ---- What holds of the object at any time ----

    /** The verdicts the object has stored are right about what was uploaded. */
    lemma StoredVerdictIsRight(j: int, n: nat, numVars: int)
      requires Valid() && j in tables.verdicts && n < |events| && events[n].Upload? && events[n].jobId == j
      ensures tables.verdicts[j].JobSat? ==>
                forall v: Valuation :: Agrees(v, Fold(tables.verdicts[j].assignment)) ==>
                  Models(v, Clauses(events[n].upload))
      ensures tables.verdicts[j].JobUnsat? && SoundChecker(check) && Tidy(Normalised(events[n].upload), numVars) ==>
                !Satisfiable(Clauses(events[n].upload))
    {
      var i := |states| - 1;
      hide Run, Agrees, Fold, Models, Clauses, SoundChecker, Tidy, Satisfiable, Normalised;
      if tables.verdicts[j].JobSat? {
        SatVerdictIsRight(check, states, events, n, i);
      } else if SoundChecker(check) && Tidy(Normalised(events[n].upload), numVars) {
        UnsatVerdictIsRight(check, states, events, n, i, numVars);
      }
    }

    /** Every user's balance is the sum of the user's transaction rows, and not negative. */
    lemma AccountsBalance()
      requires Valid()
      ensures Balanced(accounts.View())
    {
      BooksAlwaysBalance(check, states, events, |states| - 1);
      hide Run, Balanced;
    }
  }
}
