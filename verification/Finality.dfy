/** What a run never takes back: stored verdicts and results, completed jobs, closed
    connections; and what follows for assignments. */
module Finality {
  import opened GoText
  import opened Dimacs
  import opened Tables
  import opened DbSafety
  import opened Ledger
  import opened Protocol

  // ---- The tables only grow ----

  lemma ShardStatusExtends(db: Database, id: int, status: Status)
    ensures Extends(db, SetShardStatus(db, id, status))
  {
  }

  lemma JobStatusExtends(db: Database, j: int, status: Status)
    ensures Extends(db, SetJobStatus(db, j, status))
  {
  }

  lemma DecideExtends(db: Database, j: int, decision: Decision)
    ensures Extends(db, DecideOnce(db, j, decision))
  {
  }

  /** Completing a shard with a finding, then deciding its job. */
  lemma DecidedExtends(db: Database, j: int, id: int, finding: Finding, decision: Decision)
    ensures var db1 := SetShardStatus(db.(results := db.results[id := finding]), id, Completed);
            Extends(db, db1) && Extends(db, SetJobStatus(DecideOnce(db1, j, decision), j, Completed))
  {
    hide Extends, SetShardStatus, SetJobStatus, DecideOnce;
    var db1 := SetShardStatus(db.(results := db.results[id := finding]), id, Completed);
    var db2 := DecideOnce(db1, j, decision);
    CompletingKeepsRows(db, id, finding);
    DecideExtends(db1, j, decision);
    JobStatusExtends(db2, j, Completed);
    ExtendsTransitive(db, db1, db2);
    ExtendsTransitive(db, db2, SetJobStatus(db2, j, Completed));
  }

  lemma InsertExtends(db: Database, j: int, ids: seq<int>, cubes: seq<seq<int>>)
    requires |ids| == |cubes| && forall i :: 0 <= i < |ids| ==> ids[i] !in db.shards
    ensures Extends(db, InsertShards(db, j, ids, cubes))
  {
    InsertedKeys(db, j, ids, cubes);
  }

  lemma SameExtends(db: Database)
    ensures Extends(db, db)
  {
  }

  /** The events whose effect includes a write to the job tables. */
  predicate Writes(e: Event) {
    e.Upload? || e.UploadProof? || e.Insert? || e.Reject? || e.CommitSat? || e.Commit? || e.Reopen? || e.Started?
  }

  lemma OthersWriteNothing(check: ProofCheck, s: State, e: Event)
    requires Enabled(s, e) && !Writes(e)
    ensures Effect(check, s, e).db == s.db
  {
    hide SplitStep, ReceiveStep, VerifyStep, PunishStep, CommitSatStep, FinishStep, CountStep, CommitStep, ReopenStep,
         PickStep, SendStep, DisconnectStep, UploadStep, RejectStep, StartedStep, ResolveStep, SettleStep, ConnectStep,
         RegisterStep, UnregisterStep, FreshIds, Change;
  }

  lemma InsertStepExtends(s: State, t: nat, ids: seq<int>, ok: bool)
    requires t in s.tasks && s.tasks[t].SplitJob? && s.tasks[t].jobId in s.db.jobs
    requires FreshIds(s.db, s.tasks[t].jobId, ids)
    ensures Extends(s.db, SplitStep(s, t, ids, ok).db)
  {
    hide Extends, InsertShards, CubesOf;
    var j := s.tasks[t].jobId;
    SameExtends(s.db);
    if CubesOf(s.db.jobs[j]).Some? {
      InsertExtends(s.db, j, ids, CubesOf(s.db.jobs[j]).value);
    }
  }

  lemma CommitsExtend(s: State, t: nat, ok: bool)
    requires t in s.tasks
    ensures s.tasks[t].StoreSat? ==> Extends(s.db, CommitSatStep(s, t, ok).db)
    ensures s.tasks[t].CommitUnsat? ==> Extends(s.db, CommitStep(s, t, ok).db)
  {
    hide Extends, SetShardStatus, SetJobStatus, DecideOnce;
    SameExtends(s.db);
    match s.tasks[t]
    case StoreSat(_, j, id, a) => DecidedExtends(s.db, j, id, FoundSat(a), JobSat(a));
    case CommitUnsat(_, j, id, d, _) => DecidedExtends(s.db, j, id, FoundUnsat(d), JobUnsat);
    case _ =>
  }

  lemma StatusStepsExtend(check: ProofCheck, s: State, e: Event)
    requires Enabled(s, e) && (e.Reject? || e.Reopen? || e.Started?)
    ensures Extends(s.db, Effect(check, s, e).db)
  {
    hide Extends, SetShardStatus, SetJobStatus;
    SameExtends(s.db);
    match e
    case Reject(t, ok) => JobStatusExtends(s.db, s.tasks[t].jobId, Status.Failed);
    case Reopen(t, ok) => ShardStatusExtends(s.db, s.tasks[t].shardId, Status.Pending);
    case Started(t, ok) => ShardStatusExtends(s.db, s.tasks[t].shardId, Status.Running);
  }

  lemma UploadsExtend(check: ProofCheck, s: State, e: Event)
    requires Enabled(s, e) && (e.Upload? || e.UploadProof?)
    ensures Extends(s.db, Effect(check, s, e).db)
  {
    hide Normalised;
  }

  /** No step removes or changes a job, a shard's cube, a proof or a verdict, nor removes a
      shard's result: a job_results row stays as it was first written. */
  lemma StepExtends(check: ProofCheck, s: State, e: Event)
    requires Enabled(s, e)
    ensures Extends(s.db, Effect(check, s, e).db)
  {
    hide Extends, SplitStep, CommitSatStep, CommitStep;
    if !Writes(e) {
      hide Effect, Enabled;
      OthersWriteNothing(check, s, e);
      SameExtends(s.db);
    } else if e.Upload? || e.UploadProof? {
      hide Effect, Enabled;
      UploadsExtend(check, s, e);
    } else if e.Insert? {
      InsertStepExtends(s, e.task, e.ids, e.ok);
    } else if e.CommitSat? || e.Commit? {
      CommitsExtend(s, e.task, e.ok);
    } else {
      hide Effect, Enabled;
      StatusStepsExtend(check, s, e);
    }
  }

  lemma {:induction false} RunExtends(check: ProofCheck, states: seq<State>, events: seq<Event>, i: nat, k: nat)
    requires Run(check, states, events) && i <= k < |states|
    ensures Extends(states[i].db, states[k].db)
  {
    hide Effect, Enabled, Extends;
    if i == k {
      SameExtends(states[i].db);
    } else {
      RunExtends(check, states, events, i, k - 1);
      assert Step(check, states[k - 1], events[k - 1], states[k]);
      StepExtends(check, states[k - 1], events[k - 1]);
      ExtendsTransitive(states[i].db, states[k - 1].db, states[k].db);
    }
  }

  /** A verdict, once written, is the job's verdict for good, also across restarts. */
  lemma VerdictIsFinal(check: ProofCheck, states: seq<State>, events: seq<Event>, i: nat, k: nat, j: int)
    requires Run(check, states, events) && i <= k < |states| && j in states[i].db.verdicts
    ensures j in states[k].db.verdicts && states[k].db.verdicts[j] == states[i].db.verdicts[j]
  {
    hide Run;
    RunExtends(check, states, events, i, k);
  }

  // ---- Uploads ----

  /** `g` is the part of the upload before its first '%' line. */
  ghost predicate UpToPercent(f: File, g: File) {
    exists m :: 0 <= m <= |f| && g == f[..m] && (m < |f| ==> HasPrefix(TrimSpace(f[m]), "%"))
                && forall x :: 0 <= x < m ==> !HasPrefix(TrimSpace(f[x]), "%")
  }

  lemma NormalisedIsUpToPercent(f: File)
    ensures UpToPercent(f, Normalised(f))
  {
    hide TrimSpace, HasPrefix;
    var m := FirstPercent(f);
    assert Normalised(f) == f[..m];
    FirstPercentIs(f);
  }

  lemma {:induction false} FirstPercentIs(f: File)
    ensures var m := FirstPercent(f);
            (m < |f| ==> HasPrefix(TrimSpace(f[m]), "%")) && forall x :: 0 <= x < m ==> !HasPrefix(TrimSpace(f[x]), "%")
  {
    hide TrimSpace, HasPrefix;
    if f != [] && !Percent(f[0]) {
      FirstPercentIs(f[1..]);
      assert forall x :: 0 < x < FirstPercent(f) ==> f[x] == f[1..][x - 1];
    }
  }

  lemma UploadStores(check: ProofCheck, s: State, j: int, u: int, upload: File, n: int, s': State)
    requires Step(check, s, Upload(j, u, upload, n), s')
    ensures j in s'.db.jobs && s'.db.jobs[j] == JobRow(u, Normalised(upload), n, Pending)
  {
    hide Normalised;
  }

  /** From its upload on, a job's file is the upload before its first '%' line, and its owner and
      its number of workers are the upload's. */
  lemma UploadIsKept(check: ProofCheck, states: seq<State>, events: seq<Event>, n: nat, k: nat)
    requires Run(check, states, events) && n < k < |states| && events[n].Upload?
    ensures events[n].jobId in states[k].db.jobs
    ensures var job := states[k].db.jobs[events[n].jobId];
            && job.file == Normalised(events[n].upload) && UpToPercent(events[n].upload, job.file)
            && job.userId == events[n].userId && job.maxWorkers == events[n].maxWorkers
  {
    var Upload(j, u, f, w) := events[n];
    hide Effect, Enabled, UpToPercent, Normalised;
    assert Step(check, states[n], events[n], states[n + 1]);
    UploadStores(check, states[n], j, u, f, w, states[n + 1]);
    RunExtends(check, states, events, n + 1, k);
    NormalisedIsUpToPercent(f);
    hide Run;
  }

  lemma NoOtherJobs(check: ProofCheck, s: State, e: Event, j: int)
    requires Enabled(s, e) && j in Effect(check, s, e).db.jobs
    ensures j in s.db.jobs || (e.Upload? && e.jobId == j)
  {
    hide SplitStep, CommitSatStep, CommitStep, FreshIds;
    if !Writes(e) {
      hide Effect, Enabled;
      OthersWriteNothing(check, s, e);
    } else if e.Insert? {
      InsertAddsNoJob(s, e.task, e.ids, e.ok);
    } else if e.CommitSat? || e.Commit? {
      CommitsAddNoJob(s, e.task, e.ok);
    } else {
      hide Normalised;
    }
  }

  lemma InsertAddsNoJob(s: State, t: nat, ids: seq<int>, ok: bool)
    requires t in s.tasks && s.tasks[t].SplitJob? && s.tasks[t].jobId in s.db.jobs
    requires FreshIds(s.db, s.tasks[t].jobId, ids)
    ensures SplitStep(s, t, ids, ok).db.jobs == s.db.jobs
  {
    hide InsertShards, CubesOf, Valid;
    var j := s.tasks[t].jobId;
    if CubesOf(s.db.jobs[j]).Some? {
      InsertedKeys(s.db, j, ids, CubesOf(s.db.jobs[j]).value);
    }
  }

  lemma CommitsAddNoJob(s: State, t: nat, ok: bool)
    requires t in s.tasks
    ensures s.tasks[t].StoreSat? ==> CommitSatStep(s, t, ok).db.jobs.Keys == s.db.jobs.Keys
    ensures s.tasks[t].CommitUnsat? ==> CommitStep(s, t, ok).db.jobs.Keys == s.db.jobs.Keys
  {
  }

  /** Every job was uploaded. */
  lemma {:induction false} EveryJobWasUploaded(check: ProofCheck, states: seq<State>, events: seq<Event>, k: nat,
                                               j: int)
    requires Run(check, states, events) && k < |states| && j in states[k].db.jobs
    ensures exists n :: 0 <= n < k && events[n].Upload? && events[n].jobId == j
  {
    hide Effect, Enabled;
    assert k > 0;
    assert Step(check, states[k - 1], events[k - 1], states[k]);
    NoOtherJobs(check, states[k - 1], events[k - 1], j);
    if j in states[k - 1].db.jobs {
      EveryJobWasUploaded(check, states, events, k - 1, j);
    }
  }

  // ---- Connections ----

  /** A connection whose goroutine has registered and not yet left the disconnect handler's
      critical section. */
  predicate Served(s: State, w: int) {
    w in s.phases && (s.phases[w].Live? || s.phases[w].Leaving?)
  }

  predicate Connected(s: State) {
    && (forall w :: w in s.conns.users ==> InPhase(s, w, Live))
    && (forall w :: w in s.mem.slots ==> Served(s, w))
    && (s.lock.Sending? ==> Served(s, s.lock.workerId) && s.lock.workerId !in s.mem.slots
                            && s.lock.shard.jobId !in s.mem.completed)
    && s.conns.nextId >= 0 && (forall w :: w in s.phases ==> 1 <= w <= s.conns.nextId)
  }

  lemma {:induction false} PickedIsLive(pending: seq<Shard>, completed: set<int>)
    ensures var p := PickLive(pending, completed); p.shard.Some? ==> p.shard.value.jobId !in completed
  {
    if pending != [] && pending[0].jobId in completed {
      PickedIsLive(pending[1..], completed);
    }
  }

  /** The events that touch the mutex's memory, the registry or the connections. */
  predicate Moves(e: Event) {
    e.Restart? || e.Abandon? || e.Queue? || e.Connect? || e.Register? || e.Unregister? || e.Disconnect? || e.Receive?
    || e.Finish? || e.Pick? || e.Send?
  }

  predicate SameMoves(s: State, s': State) {
    s'.mem == s.mem && s'.lock == s.lock && s'.conns == s.conns && s'.phases == s.phases && s'.owed == s.owed
  }

  lemma OutsidersMoveNothing(check: ProofCheck, s: State, e: Event)
    requires Enabled(s, e)
    requires e.SignUp? || e.Pay? || e.Upload? || e.UploadProof? || e.Resolve? || e.Settle? || e.Started? || e.Reject?
    ensures SameMoves(s, Effect(check, s, e))
  {
    hide SetShardStatus, SetJobStatus, Change, PayReward, Normalised;
  }

  lemma JudgingMovesNothing(check: ProofCheck, s: State, t: nat, ok: bool)
    requires t in s.tasks
    ensures s.tasks[t].JudgeResult? ==> SameMoves(s, VerifyStep(check, s, t, ok))
    ensures s.tasks[t].Penalise? ==> SameMoves(s, PunishStep(s, t, ok))
    ensures s.tasks[t].CountUnsat? ==> SameMoves(s, CountStep(s, t))
  {
    hide Judge, Change, AllRefuted, StoreUnsatShard;
  }

  lemma StoringMovesNothing(s: State, t: nat, ok: bool)
    requires t in s.tasks
    ensures s.tasks[t].StoreSat? ==> SameMoves(s, CommitSatStep(s, t, ok))
    ensures s.tasks[t].CommitUnsat? ==> SameMoves(s, CommitStep(s, t, ok))
    ensures s.tasks[t].Requeue? ==> SameMoves(s, ReopenStep(s, t, ok))
  {
    hide RowOf, StoreSatResult, StoreUnsatResult, SetShardStatus;
  }

  lemma InsertMovesNothing(s: State, t: nat, ids: seq<int>, ok: bool)
    requires t in s.tasks && s.tasks[t].SplitJob? && s.tasks[t].jobId in s.db.jobs
    requires FreshIds(s.db, s.tasks[t].jobId, ids)
    ensures SameMoves(s, SplitStep(s, t, ids, ok))
  {
    hide CubesOf, InsertShards;
  }

  lemma HandlersMoveNothing(check: ProofCheck, s: State, e: Event)
    requires Enabled(s, e)
    requires e.Insert? || e.Verify? || e.Punish? || e.CommitSat? || e.Count? || e.Commit? || e.Reopen?
    ensures SameMoves(s, Effect(check, s, e))
  {
    hide SplitStep, VerifyStep, PunishStep, CommitSatStep, CountStep, CommitStep, ReopenStep, SameMoves, FreshIds;
    match e
    case Insert(t, ids, ok) => InsertMovesNothing(s, t, ids, ok);
    case Verify(t, ok) => JudgingMovesNothing(check, s, t, ok);
    case Punish(t, ok) => JudgingMovesNothing(check, s, t, ok);
    case Count(t) => JudgingMovesNothing(check, s, t, true);
    case CommitSat(t, ok) => StoringMovesNothing(s, t, ok);
    case Commit(t, ok) => StoringMovesNothing(s, t, ok);
    case Reopen(t, ok) => StoringMovesNothing(s, t, ok);
  }

  lemma OthersMoveNothing(check: ProofCheck, s: State, e: Event)
    requires Enabled(s, e) && !Moves(e)
    ensures SameMoves(s, Effect(check, s, e))
  {
    hide Effect, Enabled;
    if e.SignUp? || e.Pay? || e.Upload? || e.UploadProof? || e.Resolve? || e.Settle? || e.Started? || e.Reject? {
      OutsidersMoveNothing(check, s, e);
    } else {
      HandlersMoveNothing(check, s, e);
    }
  }

  /** The handlers an event starts or goes on with. */
  predicate Begins(e: Event, task: Task) {
    match e
    case Upload(_, _, _, _) => task.SplitJob?
    case Insert(_, _, _) => task.RejectJob? || task.Append?
    case Reject(_, _) => task.AbandonJob?
    case Disconnect(_) => task.Requeue?
    case Receive(_, _) => task.JudgeResult?
    case Verify(_, _) => task.Penalise? || task.StoreSat? || task.CountUnsat?
    case Punish(_, _) => task.Requeue?
    case CommitSat(_, _) => task.FinishSat?
    case Finish(_) => task.Reward? || task.CommitUnsat?
    case Count(_) => task.FinishUnsat? || task.CommitUnsat?
    case Commit(_, _) => task.Reward?
    case Reopen(_, _) => task.Append?
    case Resolve(_) => task.Payout?
    case Send(_) => task.MarkRunning?
    case _ => false
  }

  predicate BeginsOnly(s: State, s': State, e: Event) {
    forall u :: u in s'.tasks ==> (u in s.tasks && s'.tasks[u] == s.tasks[u]) || Begins(e, s'.tasks[u])
  }

  lemma SplittingBegins(s: State, t: nat, ids: seq<int>, ok: bool)
    requires t in s.tasks && s.tasks[t].SplitJob? && s.tasks[t].jobId in s.db.jobs
    requires FreshIds(s.db, s.tasks[t].jobId, ids)
    ensures BeginsOnly(s, SplitStep(s, t, ids, ok), Insert(t, ids, ok))
  {
    hide CubesOf, InsertShards, Valid, FreshIds;
  }

  lemma JudgingBegins(check: ProofCheck, s: State, t: nat, ok: bool)
    requires t in s.tasks && s.tasks[t].JudgeResult?
    ensures BeginsOnly(s, VerifyStep(check, s, t, ok), Verify(t, ok))
  {
    hide Judge;
  }

  lemma PunishingBegins(s: State, t: nat, ok: bool)
    requires t in s.tasks && s.tasks[t].Penalise?
    ensures BeginsOnly(s, PunishStep(s, t, ok), Punish(t, ok))
  {
    hide Change;
  }

  lemma CountingBegins(s: State, t: nat)
    requires t in s.tasks && s.tasks[t].CountUnsat?
    ensures BeginsOnly(s, CountStep(s, t), Count(t))
  {
    hide AllRefuted, StoreUnsatShard;
  }

  lemma ReopeningBegins(s: State, t: nat, ok: bool)
    requires t in s.tasks && s.tasks[t].Requeue?
    ensures BeginsOnly(s, ReopenStep(s, t, ok), Reopen(t, ok))
  {
    hide SetShardStatus;
  }

  lemma StoringBegins(s: State, t: nat, ok: bool)
    requires t in s.tasks
    ensures s.tasks[t].StoreSat? ==> BeginsOnly(s, CommitSatStep(s, t, ok), CommitSat(t, ok))
    ensures s.tasks[t].CommitUnsat? ==> BeginsOnly(s, CommitStep(s, t, ok), Commit(t, ok))
  {
    hide RowOf, StoreSatResult, StoreUnsatResult, SetShardStatus;
  }

  lemma MovingBegins(s: State, e: Event)
    ensures e.Receive? ==> BeginsOnly(s, ReceiveStep(s, e.workerId, e.res), e)
    ensures e.Disconnect? ==> BeginsOnly(s, DisconnectStep(s, e.workerId), e)
    ensures e.Send? && s.lock.Sending? ==> BeginsOnly(s, SendStep(s, e.ok), e)
    ensures e.Pick? ==> BeginsOnly(s, PickStep(s, e.workerId, e.readable), e)
  {
    hide PickLive, MayWork;
  }

  lemma OutsideBegins(check: ProofCheck, s: State, e: Event)
    requires Enabled(s, e)
    requires e.Restart? || e.SignUp? || e.Pay? || e.Upload? || e.UploadProof? || e.Connect? || e.Register?
             || e.Unregister?
    ensures BeginsOnly(s, Effect(check, s, e), e)
  {
    hide Change, Normalised;
  }

  lemma EndingBegins(check: ProofCheck, s: State, e: Event)
    requires Enabled(s, e)
    requires e.Reject? || e.Abandon? || e.Queue? || e.Finish? || e.Started? || e.Resolve? || e.Settle?
    ensures BeginsOnly(s, Effect(check, s, e), e)
  {
    hide SetShardStatus, SetJobStatus, Change, PayReward;
  }

  lemma HandlersBegin(check: ProofCheck, s: State, e: Event)
    requires Enabled(s, e)
    requires e.Insert? || e.Verify? || e.Punish? || e.CommitSat? || e.Count? || e.Commit? || e.Reopen?
    ensures BeginsOnly(s, Effect(check, s, e), e)
  {
    hide BeginsOnly, SplitStep, VerifyStep, PunishStep, CommitSatStep, CountStep, CommitStep, ReopenStep, FreshIds;
    match e
    case Insert(t, ids, ok) => SplittingBegins(s, t, ids, ok);
    case Verify(t, ok) => JudgingBegins(check, s, t, ok);
    case Punish(t, ok) => PunishingBegins(s, t, ok);
    case Count(t) => CountingBegins(s, t);
    case CommitSat(t, ok) => StoringBegins(s, t, ok);
    case Commit(t, ok) => StoringBegins(s, t, ok);
    case Reopen(t, ok) => ReopeningBegins(s, t, ok);
  }

  lemma SlotsBegin(check: ProofCheck, s: State, e: Event)
    requires Enabled(s, e) && (e.Receive? || e.Disconnect? || e.Send? || e.Pick?)
    ensures BeginsOnly(s, Effect(check, s, e), e)
  {
    hide BeginsOnly, ReceiveStep, DisconnectStep, SendStep, PickStep;
    MovingBegins(s, e);
  }

  /** Which handlers an event can start: each goroutine goes through its steps in order. */
  lemma StepBegins(check: ProofCheck, s: State, e: Event)
    requires Enabled(s, e)
    ensures BeginsOnly(s, Effect(check, s, e), e)
  {
    hide Effect, Enabled, BeginsOnly;
    if e.Insert? || e.Verify? || e.Punish? || e.CommitSat? || e.Count? || e.Commit? || e.Reopen? {
      HandlersBegin(check, s, e);
    } else if e.Receive? || e.Disconnect? || e.Send? || e.Pick? {
      SlotsBegin(check, s, e);
    } else if e.Reject? || e.Abandon? || e.Queue? || e.Finish? || e.Started? || e.Resolve? || e.Settle? {
      EndingBegins(check, s, e);
    } else {
      OutsideBegins(check, s, e);
    }
  }

  lemma StepConnected(check: ProofCheck, s: State, e: Event)
    requires Connected(s) && Enabled(s, e)
    ensures Connected(Effect(check, s, e))
  {
    if !Moves(e) {
      hide Effect, Enabled;
      OthersMoveNothing(check, s, e);
    } else if e.Pick? {
      PickConnected(s, e.workerId, e.readable);
    } else if e.Disconnect? || e.Receive? || e.Finish? || e.Send? {
      hide Effect, Enabled;
      SlotMoveConnected(check, s, e);
    } else {
      hide Effect, Enabled;
      MoveConnected(check, s, e);
    }
  }

  lemma ReceiveConnected(s: State, w: int, res: Result)
    requires Connected(s)
    ensures Connected(ReceiveStep(s, w, res))
  {
  }

  lemma DisconnectConnected(s: State, w: int)
    requires Connected(s) && s.lock.Free? && InPhase(s, w, Leaving)
    ensures Connected(DisconnectStep(s, w))
  {
  }

  lemma SendConnected(s: State, ok: bool)
    requires Connected(s) && s.lock.Sending?
    ensures Connected(SendStep(s, ok))
  {
  }

  lemma FinishConnected(s: State, t: nat)
    requires Connected(s) && s.lock.Free? && t in s.tasks && (s.tasks[t].FinishSat? || s.tasks[t].FinishUnsat?)
    ensures Connected(FinishStep(s, t))
  {
  }

  lemma SlotMoveConnected(check: ProofCheck, s: State, e: Event)
    requires Connected(s) && Enabled(s, e) && (e.Disconnect? || e.Receive? || e.Finish? || e.Send?)
    ensures Connected(Effect(check, s, e))
  {
    hide Connected, ReceiveStep, DisconnectStep, SendStep, FinishStep;
    match e
    case Disconnect(w) => DisconnectConnected(s, w);
    case Receive(w, res) => ReceiveConnected(s, w, res);
    case Finish(t) => FinishConnected(s, t);
    case Send(ok) => SendConnected(s, ok);
  }

  lemma MoveConnected(check: ProofCheck, s: State, e: Event)
    requires Connected(s) && Enabled(s, e)
    requires e.Restart? || e.Abandon? || e.Queue? || e.Connect? || e.Register? || e.Unregister?
    ensures Connected(Effect(check, s, e))
  {
  }

  lemma PickConnected(s: State, w: int, readable: bool)
    requires Connected(s) && s.lock.Free?
    ensures Connected(PickStep(s, w, readable))
  {
    PickedIsLive(s.mem.pending, s.mem.completed);
    hide PickLive;
  }

  lemma {:induction false} RunConnected(check: ProofCheck, states: seq<State>, events: seq<Event>, i: nat)
    requires Run(check, states, events) && i < |states|
    ensures Connected(states[i])
  {
    hide Effect, Enabled;
    if i > 0 {
      RunConnected(check, states, events, i - 1);
      assert Step(check, states[i - 1], events[i - 1], states[i]);
      StepConnected(check, states[i - 1], events[i - 1]);
    }
  }

  lemma StepKeepsGone(check: ProofCheck, s: State, e: Event, w: int)
    requires Connected(s) && Enabled(s, e) && InPhase(s, w, Gone) && !e.Restart?
    ensures InPhase(Effect(check, s, e), w, Gone)
  {
    if !Moves(e) {
      hide Effect, Enabled;
      OthersMoveNothing(check, s, e);
    } else if e.Pick? || e.Send? || e.Receive? || e.Finish? {
      QueuesKeepPhases(check, s, e);
    }
  }

  lemma QueuesKeepPhases(check: ProofCheck, s: State, e: Event)
    requires Enabled(s, e) && (e.Pick? || e.Send? || e.Receive? || e.Finish?)
    ensures Effect(check, s, e).phases == s.phases
    ensures s.mem.completed <= Effect(check, s, e).mem.completed
  {
    hide PickStep, SendStep, ReceiveStep, FinishStep;
    match e
    case Pick(w, readable) => QueueStepsKeepPhases(s, w, readable);
    case Send(ok) => QueueStepsKeepPhases(s, 0, ok);
    case Receive(w, res) => SlotStepsKeepPhases(s, w, res);
    case Finish(t) => FinishKeepsPhases(s, t);
  }

  lemma QueueStepsKeepPhases(s: State, w: int, ok: bool)
    ensures PickStep(s, w, ok).phases == s.phases && PickStep(s, w, ok).mem.completed == s.mem.completed
    ensures s.lock.Sending? ==> SendStep(s, ok).phases == s.phases && SendStep(s, ok).mem.completed == s.mem.completed
  {
    hide PickLive, MayWork;
  }

  lemma SlotStepsKeepPhases(s: State, w: int, res: Result)
    ensures ReceiveStep(s, w, res).phases == s.phases && ReceiveStep(s, w, res).mem.completed == s.mem.completed
  {
  }

  lemma FinishKeepsPhases(s: State, t: nat)
    requires t in s.tasks && (s.tasks[t].FinishSat? || s.tasks[t].FinishUnsat?)
    ensures FinishStep(s, t).phases == s.phases && s.mem.completed <= FinishStep(s, t).mem.completed
  {
  }

  /** Once the disconnect handler of a connection has left its critical section, no shard is
      recorded or being sent against that connection again as long as the server runs. */
  lemma {:induction false} NothingStranded(check: ProofCheck, states: seq<State>, events: seq<Event>, i: nat, k: nat,
                                           w: int)
    requires Run(check, states, events) && i <= k < |states| && InPhase(states[i], w, Gone)
    requires forall n :: i <= n < k ==> !events[n].Restart?
    ensures InPhase(states[k], w, Gone)
    ensures w !in states[k].mem.slots && !(states[k].lock.Sending? && states[k].lock.workerId == w)
  {
    hide Effect, Enabled;
    if i < k {
      NothingStranded(check, states, events, i, k - 1, w);
      assert Step(check, states[k - 1], events[k - 1], states[k]);
      RunConnected(check, states, events, k - 1);
      StepKeepsGone(check, states[k - 1], events[k - 1], w);
    }
    RunConnected(check, states, events, k);
  }

  // ---- Completed jobs ----

  lemma StepKeepsCompleted(check: ProofCheck, s: State, e: Event)
    requires Enabled(s, e) && !e.Restart?
    ensures s.mem.completed <= Effect(check, s, e).mem.completed
  {
    if !Moves(e) {
      hide Effect, Enabled;
      OthersMoveNothing(check, s, e);
    } else if e.Pick? || e.Send? || e.Receive? || e.Finish? {
      hide Effect, Enabled;
      QueuesKeepPhases(check, s, e);
    }
  }

  /** While the server runs, completed jobs stay completed, and no worker is sent a shard of
      one, however often its shards are re-enqueued. */
  lemma {:induction false} NoWorkAfterCompletion(check: ProofCheck, states: seq<State>, events: seq<Event>, i: nat,
                                                 k: nat, j: int)
    requires Run(check, states, events) && i <= k < |states| && j in states[i].mem.completed
    requires forall n :: i <= n < k ==> !events[n].Restart?
    ensures j in states[k].mem.completed
    ensures k < |events| && events[k].Send? ==> states[k].lock.Sending? && states[k].lock.shard.jobId != j
  {
    hide Effect;
    if i < k {
      NoWorkAfterCompletion(check, states, events, i, k - 1, j);
      assert Step(check, states[k - 1], events[k - 1], states[k]);
      StepKeepsCompleted(check, states[k - 1], events[k - 1]);
    }
    RunConnected(check, states, events, k);
    if k < |events| {
      assert Step(check, states[k], events[k], states[k + 1]);
    }
  }

  // ---- Queue discipline ----

  function LiveOnly(pending: seq<Shard>, completed: set<int>): seq<Shard> {
    if pending == [] then []
    else (if pending[0].jobId in completed then [] else [pending[0]]) + LiveOnly(pending[1..], completed)
  }

  /** Picking takes the first live shard: apart from it, the live shards stay as they are, in
      order, and only shards of completed jobs are dropped. */
  lemma {:induction false} PickTakesTheFirstLive(pending: seq<Shard>, completed: set<int>)
    ensures var p := PickLive(pending, completed);
            LiveOnly(pending, completed)
            == (if p.shard.Some? then [p.shard.value] else []) + LiveOnly(p.rest, completed)
    ensures exists n :: 0 <= n <= |pending| && PickLive(pending, completed).rest == pending[n..]
  {
    var p := PickLive(pending, completed);
    if pending == [] {
      assert pending[0..] == [];
    } else if pending[0].jobId in completed {
      PickTakesTheFirstLive(pending[1..], completed);
      var n :| 0 <= n <= |pending| - 1 && p.rest == pending[1..][n..];
      assert pending[1..][n..] == pending[n + 1..];
    } else {
      assert p.rest == pending[1..];
    }
  }

  /** An assignment attempt that does not go on to send leaves the live part of the queue as
      it was: a refused worker never costs a shard its place. */
  lemma RefusalKeepsTheQueue(s: State, w: int, readable: bool)
    requires s.lock.Free?
    ensures var s' := PickStep(s, w, readable);
            && s'.mem.slots == s.mem.slots && s'.mem.completed == s.mem.completed
            && (s'.lock.Free? ==> LiveOnly(s'.mem.pending, s.mem.completed) == LiveOnly(s.mem.pending, s.mem.completed))
            && (s'.lock.Sending? ==>
                  [s'.lock.shard] + LiveOnly(s'.mem.pending, s.mem.completed)
                  == LiveOnly(s.mem.pending, s.mem.completed)
                  && s'.lock.workerId == w && w !in s.mem.slots && MayWork(s.conns, s.book, w))
  {
    hide MayWork;
    var p := PickLive(s.mem.pending, s.mem.completed);
    PickTakesTheFirstLive(s.mem.pending, s.mem.completed);
    PickedIsLive(s.mem.pending, s.mem.completed);
    if p.shard.Some? {
      assert ([p.shard.value] + p.rest)[1..] == p.rest;
    }
  }

  /** A failed send puts the shard back in front; a successful one fills the slot. */
  lemma SendKeepsTheQueue(s: State, ok: bool)
    requires s.lock.Sending? && s.lock.shard.jobId !in s.mem.completed
    ensures var s' := SendStep(s, ok);
            && s'.lock.Free?
            && (!ok ==> LiveOnly(s'.mem.pending, s.mem.completed)
                        == [s.lock.shard] + LiveOnly(s.mem.pending, s.mem.completed))
            && (ok ==> s'.mem.pending == s.mem.pending && s.lock.workerId in s'.mem.slots
                       && s'.mem.slots[s.lock.workerId] == s.lock.shard.(userId := s.lock.userId))
  {
    assert ([s.lock.shard] + s.mem.pending)[1..] == s.mem.pending;
  }
}
