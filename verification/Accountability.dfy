/** Who is charged and who is paid, in every run: penalties hit only the sender of a result the
    server rejected, and rewards go only to the sender of one it verified and stored. */
module Accountability {
  import opened GoText
  import opened Dimacs
  import opened VerifySat
  import opened Tables
  import opened DbSafety
  import opened Ledger
  import opened Protocol
  import opened Safety
  import opened Finality
  import opened Books
  import opened Placement

  // ---- Slots carry the right user ----

  /** A live connection is registered; its slot, and the shard on its way to it, carry the user
      it is registered under. */
  ghost predicate Attributed(s: State) {
    && (forall w :: InPhase(s, w, Live) ==> w in s.conns.users)
    && (forall w :: w in s.mem.slots && w in s.conns.users ==> s.mem.slots[w].userId == s.conns.users[w])
    && (s.lock.Sending? && s.lock.workerId in s.conns.users ==> s.lock.userId == s.conns.users[s.lock.workerId])
  }

  lemma SameAttributed(s: State, s': State)
    requires Attributed(s) && s'.mem.slots == s.mem.slots && s'.lock == s.lock && s'.conns == s.conns
    requires s'.phases == s.phases
    ensures Attributed(s')
  {
  }

  lemma ReceiveAttributed(s: State, w: int, res: Result)
    requires Attributed(s)
    ensures Attributed(ReceiveStep(s, w, res))
  {
  }

  lemma DisconnectAttributed(s: State, w: int)
    requires Attributed(s)
    ensures Attributed(DisconnectStep(s, w))
  {
  }

  lemma PickAttributed(s: State, w: int, readable: bool)
    requires Attributed(s) && s.lock.Free?
    ensures Attributed(PickStep(s, w, readable))
  {
    hide PickLive;
  }

  lemma SendAttributed(s: State, ok: bool)
    requires Attributed(s) && s.lock.Sending?
    ensures Attributed(SendStep(s, ok))
  {
  }

  lemma ConnectAttributed(s: State, userId: int)
    requires Attributed(s)
    ensures Attributed(ConnectStep(s, userId))
  {
  }

  lemma RegisterAttributed(s: State, w: int)
    requires Attributed(s) && Connected(s) && w in s.phases && s.phases[w].Fresh?
    ensures Attributed(RegisterStep(s, w))
  {
    assert !Served(s, w);
  }

  lemma UnregisterAttributed(s: State, w: int)
    requires Attributed(s)
    ensures Attributed(UnregisterStep(s, w))
  {
  }

  lemma StepAttributed(check: ProofCheck, s: State, e: Event)
    requires Attributed(s) && Connected(s) && Enabled(s, e)
    ensures Attributed(Effect(check, s, e))
  {
    hide Attributed, Connected, ReceiveStep, DisconnectStep, PickStep, SendStep, ConnectStep, RegisterStep,
         UnregisterStep;
    if !Moves(e) {
      hide Effect, Enabled;
      OthersMoveNothing(check, s, e);
      SameAttributed(s, Effect(check, s, e));
    } else {
      match e
      case Receive(w, res) => ReceiveAttributed(s, w, res);
      case Disconnect(w) => DisconnectAttributed(s, w);
      case Pick(w, readable) => PickAttributed(s, w, readable);
      case Send(ok) => SendAttributed(s, ok);
      case Connect(u) => ConnectAttributed(s, u);
      case Register(w) => RegisterAttributed(s, w);
      case Unregister(w) => UnregisterAttributed(s, w);
      case _ => hide Effect, Enabled; QuietAttributed(check, s, e);
    }
  }

  lemma QuietAttributed(check: ProofCheck, s: State, e: Event)
    requires Attributed(s) && Enabled(s, e) && (e.Restart? || e.Abandon? || e.Queue? || e.Finish?)
    ensures Attributed(Effect(check, s, e))
  {
  }

  lemma {:induction false} RunAttributed(check: ProofCheck, states: seq<State>, events: seq<Event>, i: nat)
    requires Run(check, states, events) && i < |states|
    ensures Attributed(states[i])
  {
    hide Effect, Enabled, Connected;
    if i > 0 {
      RunAttributed(check, states, events, i - 1);
      RunConnected(check, states, events, i - 1);
      assert Step(check, states[i - 1], events[i - 1], states[i]);
      hide Attributed;
      StepAttributed(check, states[i - 1], events[i - 1]);
    }
  }

  // ---- Connections keep their user ----

  predicate SameLife(events: seq<Event>, k: nat, i: nat) {
    forall n :: k <= n < i <= |events| ==> !events[n].Restart?
  }

  /** The connection has been registered, and while it is, under this user. */
  predicate Belongs(s: State, w: int, u: int) {
    w in s.phases && !s.phases[w].Fresh? && (w in s.conns.users ==> s.conns.users[w] == u)
  }

  lemma StepKeepsBelongs(check: ProofCheck, s: State, e: Event, w: int, u: int)
    requires Belongs(s, w, u) && Connected(s) && Enabled(s, e) && !e.Restart?
    ensures Belongs(Effect(check, s, e), w, u)
  {
    if !Moves(e) {
      hide Effect, Enabled;
      OthersMoveNothing(check, s, e);
    } else if e.Pick? || e.Send? || e.Receive? || e.Finish? {
      hide Effect, Enabled;
      QueuesKeepPhases(check, s, e);
      QueuesKeepConns(check, s, e);
    } else {
      hide Effect, Enabled;
      ConnectionsKeepBelongs(check, s, e, w, u);
    }
  }

  lemma QueuesKeepConns(check: ProofCheck, s: State, e: Event)
    requires Enabled(s, e) && (e.Pick? || e.Send? || e.Receive? || e.Finish?)
    ensures Effect(check, s, e).conns == s.conns
  {
    hide PickLive, MayWork;
  }

  lemma ConnectionsKeepBelongs(check: ProofCheck, s: State, e: Event, w: int, u: int)
    requires Belongs(s, w, u) && Connected(s) && Enabled(s, e)
    requires e.Abandon? || e.Queue? || e.Connect? || e.Register? || e.Unregister? || e.Disconnect?
    ensures Belongs(Effect(check, s, e), w, u)
  {
  }

  lemma {:induction false} ConnectionKeepsItsUser(check: ProofCheck, states: seq<State>, events: seq<Event>, k: nat,
                                                  i: nat, w: int)
    requires Run(check, states, events) && k <= i < |states| && SameLife(events, k, i) && w in states[k].conns.users
    ensures Belongs(states[i], w, states[k].conns.users[w])
  {
    hide Effect, Enabled, Belongs, Connected;
    if i == k {
      RegisteredBelongs(check, states, events, k, w);
    } else {
      ConnectionKeepsItsUser(check, states, events, k, i - 1, w);
      RunConnected(check, states, events, i - 1);
      assert Step(check, states[i - 1], events[i - 1], states[i]);
      StepKeepsBelongs(check, states[i - 1], events[i - 1], w, states[k].conns.users[w]);
    }
  }

  lemma RegisteredBelongs(check: ProofCheck, states: seq<State>, events: seq<Event>, k: nat, w: int)
    requires Run(check, states, events) && k < |states| && w in states[k].conns.users
    ensures Belongs(states[k], w, states[k].conns.users[w])
  {
    RunConnected(check, states, events, k);
    hide Run;
  }

  // ---- Where results come from ----

  /** At step k the result came in over the registered connection w. */
  predicate Sent(states: seq<State>, events: seq<Event>, k: nat, w: int, res: Result) {
    k < |events| < |states| && events[k] == Receive(w, res) && w in states[k].conns.users
  }

  /** Whom a bad result from connection w is charged to: its user, if it held a shard. */
  function Charged(s: State, w: int): int {
    if w in s.mem.slots && w in s.conns.users then s.conns.users[w] else 0
  }

  ghost predicate Reported(states: seq<State>, events: seq<Event>, i: nat, w: int, u: int, res: Result) {
    exists k: nat :: k < i && Sent(states, events, k, w, res) && u == Charged(states[k], w) && SameLife(events, k, i)
  }

  /** A result from w that was judged, at step m, and rejected. */
  ghost predicate Refutes(check: ProofCheck, states: seq<State>, events: seq<Event>, m: nat,
                          u: int, w: int, res: Result, why: string) {
    && m < |events| < |states| && events[m].Verify? && Reported(states, events, m, w, u, res)
    && Judge(check, states[m].db, res, events[m].lookupOk) == Rejected(why)
  }

  ghost predicate Guilty(check: ProofCheck, states: seq<State>, events: seq<Event>, i: nat, u: int, j: int, id: int,
                         why: string) {
    exists m: nat, w: int, res: Result ::
      m < i && res.jobId == j && res.shardId == id && Refutes(check, states, events, m, u, w, res, why)
  }

  /** A result on the job's shard that w sent at step k and that was verified at step m. */
  ghost predicate Proves(check: ProofCheck, states: seq<State>, events: seq<Event>, k: nat, m: nat,
                         w: int, res: Result, j: int, id: int) {
    && k < m < |events| < |states| && Sent(states, events, k, w, res) && res.jobId == j && res.shardId == id
    && events[m].Verify? && var judgement := Judge(check, states[m].db, res, events[m].lookupOk);
       judgement.SatProved? || judgement.UnsatProved?
  }

  /** ... in the same life of the server, while w was registered under u. */
  ghost predicate Backs(check: ProofCheck, states: seq<State>, events: seq<Event>, k: nat, m: nat, res: Result,
                        i: nat, w: int, u: int, j: int, id: int) {
    && m < i && Proves(check, states, events, k, m, w, res, j, id)
    && SameLife(events, k, i) && u == states[k].conns.users[w]
  }

  ghost predicate Confirmed(check: ProofCheck, states: seq<State>, events: seq<Event>, i: nat, w: int, u: int, j: int,
                            id: int) {
    exists k: nat, m: nat, res: Result :: Backs(check, states, events, k, m, res, i, w, u, j, id)
  }

  ghost predicate Delivered(check: ProofCheck, states: seq<State>, events: seq<Event>, i: nat, w: int, j: int,
                            id: int) {
    exists u: int :: Confirmed(check, states, events, i, w, u, j, id)
  }

  /** The stages after a result was verified. */
  predicate InHand(task: Task) {
    task.StoreSat? || task.FinishSat? || task.CountUnsat? || task.FinishUnsat? || task.CommitUnsat? || task.Reward?
  }

  ghost predicate TaskTraced(check: ProofCheck, states: seq<State>, events: seq<Event>, i: nat, task: Task) {
    && (task.JudgeResult? ==> Reported(states, events, i, task.workerId, task.userId, task.res))
    && (task.Penalise? ==> Guilty(check, states, events, i, task.userId, task.jobId, task.shardId, task.why))
    && (InHand(task) ==> Delivered(check, states, events, i, task.workerId, task.jobId, task.shardId))
    && (task.Payout? ==> Confirmed(check, states, events, i, task.workerId, task.userId, task.jobId, task.shardId))
  }

  lemma ReportedLater(states: seq<State>, events: seq<Event>, i: nat, w: int, u: int, res: Result)
    requires Reported(states, events, i, w, u, res) && i < |events| && !events[i].Restart?
    ensures Reported(states, events, i + 1, w, u, res)
  {
    hide Sent, Charged;
  }

  lemma ConfirmedLater(check: ProofCheck, states: seq<State>, events: seq<Event>, i: nat, w: int, u: int, j: int,
                       id: int)
    requires Confirmed(check, states, events, i, w, u, j, id) && i < |events| && !events[i].Restart?
    ensures Confirmed(check, states, events, i + 1, w, u, j, id)
  {
    hide Backs;
    var k: nat, m: nat, res: Result :| Backs(check, states, events, k, m, res, i, w, u, j, id);
    BacksLater(check, states, events, k, m, res, i, w, u, j, id);
  }

  lemma BacksLater(check: ProofCheck, states: seq<State>, events: seq<Event>, k: nat, m: nat, res: Result,
                   i: nat, w: int, u: int, j: int, id: int)
    requires Backs(check, states, events, k, m, res, i, w, u, j, id) && i < |events| && !events[i].Restart?
    ensures Backs(check, states, events, k, m, res, i + 1, w, u, j, id)
  {
    hide Judge;
  }

  lemma TracedLater(check: ProofCheck, states: seq<State>, events: seq<Event>, i: nat, task: Task)
    requires TaskTraced(check, states, events, i, task) && i < |events| && !events[i].Restart?
    ensures TaskTraced(check, states, events, i + 1, task)
  {
    hide Reported, Refutes, Confirmed;
    if task.JudgeResult? {
      ReportedLater(states, events, i, task.workerId, task.userId, task.res);
    } else if task.Payout? {
      ConfirmedLater(check, states, events, i, task.workerId, task.userId, task.jobId, task.shardId);
    } else if InHand(task) {
      DeliveredLater(check, states, events, i, task.workerId, task.jobId, task.shardId);
    }
  }

  lemma DeliveredLater(check: ProofCheck, states: seq<State>, events: seq<Event>, i: nat, w: int, j: int, id: int)
    requires Delivered(check, states, events, i, w, j, id) && i < |events| && !events[i].Restart?
    ensures Delivered(check, states, events, i + 1, w, j, id)
  {
    hide Confirmed;
    var u: int :| Confirmed(check, states, events, i, w, u, j, id);
    ConfirmedLater(check, states, events, i, w, u, j, id);
  }

  lemma ReceivedTraced(check: ProofCheck, states: seq<State>, events: seq<Event>, i: nat, t: nat)
    requires i < |events| < |states| && events[i].Receive? && Attributed(states[i])
    requires InPhase(states[i], events[i].workerId, Live)
    requires var s' := ReceiveStep(states[i], events[i].workerId, events[i].res);
             t in s'.tasks && !(t in states[i].tasks && s'.tasks[t] == states[i].tasks[t])
    ensures TaskTraced(check, states, events, i + 1, ReceiveStep(states[i], events[i].workerId, events[i].res).tasks[t])
  {
    var w, res := events[i].workerId, events[i].res;
    var JudgeResult(_, u, _) := ReceiveStep(states[i], w, res).tasks[t];
    assert Sent(states, events, i, w, res) && u == Charged(states[i], w) && SameLife(events, i, i + 1);
    hide Sent, Charged, SameLife;
  }

  lemma ReportedIsDelivered(check: ProofCheck, states: seq<State>, events: seq<Event>, i: nat, w: int, c: int,
                            res: Result)
    requires i < |events| < |states| && events[i].Verify? && Reported(states, events, i, w, c, res)
    requires var j := Judge(check, states[i].db, res, events[i].lookupOk); j.SatProved? || j.UnsatProved?
    ensures Delivered(check, states, events, i + 1, w, res.jobId, res.shardId)
  {
    hide Judge;
    var k: nat :| k < i && Sent(states, events, k, w, res) && c == Charged(states[k], w) && SameLife(events, k, i);
    assert Proves(check, states, events, k, i, w, res, res.jobId, res.shardId);
    assert SameLife(events, k, i + 1);
    hide Proves, SameLife, Charged;
    var u := states[k].conns.users[w];
    assert Backs(check, states, events, k, i, res, i + 1, w, u, res.jobId, res.shardId);
    hide Backs;
    assert Confirmed(check, states, events, i + 1, w, u, res.jobId, res.shardId);
  }

  lemma JudgedTraced(check: ProofCheck, states: seq<State>, events: seq<Event>, i: nat, t: nat)
    requires i < |events| < |states| && events[i].Verify? && events[i].task in states[i].tasks
    requires states[i].tasks[events[i].task].JudgeResult?
    requires TaskTraced(check, states, events, i, states[i].tasks[events[i].task])
    requires var s' := VerifyStep(check, states[i], events[i].task, events[i].lookupOk);
             t in s'.tasks && !(t in states[i].tasks && s'.tasks[t] == states[i].tasks[t])
    ensures TaskTraced(check, states, events, i + 1,
                       VerifyStep(check, states[i], events[i].task, events[i].lookupOk).tasks[t])
  {
    hide Judge, Sent, Reported, Delivered;
    var JudgeResult(w, u, res) := states[i].tasks[events[i].task];
    var j := Judge(check, states[i].db, res, events[i].lookupOk);
    if j.Rejected? {
      assert Refutes(check, states, events, i, u, w, res, j.why);
    } else if !j.Dropped? {
      ReportedIsDelivered(check, states, events, i, w, u, res);
    }
  }

  /** The stages after verification hand on worker, job and shard. */
  predicate HandsOn(s: State, s': State, t: nat, u: nat) {
    u in s'.tasks && !(u in s.tasks && s'.tasks[u] == s.tasks[u]) ==>
      && u == t && t in s.tasks && InHand(s.tasks[t])
      && (InHand(s'.tasks[t]) || (s'.tasks[t].Payout? && t in s.tasks && s.tasks[t].workerId in s.conns.users
                                  && s'.tasks[t].userId == s.conns.users[s.tasks[t].workerId]))
      && s'.tasks[t].workerId == s.tasks[t].workerId
      && s'.tasks[t].jobId == s.tasks[t].jobId && s'.tasks[t].shardId == s.tasks[t].shardId
  }

  lemma StoresHandOn(s: State, t: nat, ok: bool, u: nat)
    requires t in s.tasks
    ensures s.tasks[t].StoreSat? ==> HandsOn(s, CommitSatStep(s, t, ok), t, u)
    ensures s.tasks[t].CommitUnsat? ==> HandsOn(s, CommitStep(s, t, ok), t, u)
  {
    hide RowOf, StoreSatResult, StoreUnsatResult;
  }

  lemma OthersHandOn(s: State, t: nat, u: nat)
    requires t in s.tasks
    ensures s.tasks[t].FinishSat? || s.tasks[t].FinishUnsat? ==> HandsOn(s, FinishStep(s, t), t, u)
    ensures s.tasks[t].CountUnsat? ==> HandsOn(s, CountStep(s, t), t, u)
    ensures s.tasks[t].Reward? ==> HandsOn(s, ResolveStep(s, t), t, u)
  {
    hide AllRefuted, StoreUnsatShard;
  }

  predicate AfterVerifying(e: Event) {
    e.CommitSat? || e.Commit? || e.Finish? || e.Count? || e.Resolve?
  }

  lemma StepHandsOn(check: ProofCheck, s: State, e: Event, u: nat)
    requires Enabled(s, e) && AfterVerifying(e)
    ensures HandsOn(s, Effect(check, s, e), e.task, u)
  {
    hide HandsOn, CommitSatStep, CommitStep, FinishStep, CountStep, ResolveStep;
    match e
    case CommitSat(t, ok) => StoresHandOn(s, t, ok, u);
    case Commit(t, ok) => StoresHandOn(s, t, ok, u);
    case Finish(t) => OthersHandOn(s, t, u);
    case Count(t) => OthersHandOn(s, t, u);
    case Resolve(t) => OthersHandOn(s, t, u);
  }

  lemma HandedOnTraced(check: ProofCheck, states: seq<State>, events: seq<Event>, i: nat, u: nat)
    requires Run(check, states, events) && i < |events| && AfterVerifying(events[i])
    requires forall t :: t in states[i].tasks ==> TaskTraced(check, states, events, i, states[i].tasks[t])
    requires u in states[i + 1].tasks && !(u in states[i].tasks && states[i + 1].tasks[u] == states[i].tasks[u])
    ensures TaskTraced(check, states, events, i + 1, states[i + 1].tasks[u])
  {
    var s, s', t := states[i], states[i + 1], events[i].task;
    hide Effect, Enabled, Confirmed;
    assert Step(check, s, events[i], s');
    StepHandsOn(check, s, events[i], u);
    hide Run;
    assert TaskTraced(check, states, events, i, s.tasks[t]);
    var w, j, id := s.tasks[t].workerId, s.tasks[t].jobId, s.tasks[t].shardId;
    DeliveredLater(check, states, events, i, w, j, id);
    if s'.tasks[t].Payout? {
      PayoutTraced(check, states, events, i, w, j, id);
    }
  }

  lemma PayoutTraced(check: ProofCheck, states: seq<State>, events: seq<Event>, i: nat, w: int, j: int, id: int)
    requires Run(check, states, events) && i < |events| && !events[i].Restart?
    requires Delivered(check, states, events, i, w, j, id) && w in states[i].conns.users
    ensures Confirmed(check, states, events, i + 1, w, states[i].conns.users[w], j, id)
  {
    var u: int :| Confirmed(check, states, events, i, w, u, j, id);
    var k: nat, m: nat, res: Result :| Backs(check, states, events, k, m, res, i, w, u, j, id);
    hide Run, Judge;
    ConnectionKeepsItsUser(check, states, events, k, i, w);
    hide Proves;
    ConfirmedLater(check, states, events, i, w, u, j, id);
  }

  lemma StepTraced(check: ProofCheck, states: seq<State>, events: seq<Event>, i: nat, t: nat)
    requires Run(check, states, events) && i < |events| && Attributed(states[i])
    requires forall u :: u in states[i].tasks ==> TaskTraced(check, states, events, i, states[i].tasks[u])
    requires t in states[i + 1].tasks
    ensures TaskTraced(check, states, events, i + 1, states[i + 1].tasks[t])
  {
    hide Attributed, TaskTraced, ReceiveStep, VerifyStep;
    var s, e := states[i], events[i];
    assert Step(check, s, e, states[i + 1]);
    if e.Receive? {
      if !(t in s.tasks && states[i + 1].tasks[t] == s.tasks[t]) {
        ReceivedTraced(check, states, events, i, t);
      }
    } else if e.Verify? {
      if !(t in s.tasks && states[i + 1].tasks[t] == s.tasks[t]) {
        JudgedTraced(check, states, events, i, t);
      }
    }
    hide Effect, Enabled, Run;
    if t in s.tasks && states[i + 1].tasks[t] == s.tasks[t] {
      RestartEndsAll(check, s, e);
      TracedLater(check, states, events, i, s.tasks[t]);
    } else if AfterVerifying(e) {
      HandedOnTraced(check, states, events, i, t);
    } else if !e.Receive? && !e.Verify? {
      StepBegins(check, s, e);
      OthersTraced(check, states, events, i, e, states[i + 1].tasks[t]);
    }
  }

  lemma RestartEndsAll(check: ProofCheck, s: State, e: Event)
    requires Enabled(s, e)
    ensures e.Restart? ==> Effect(check, s, e).tasks == map[]
  {
  }

  lemma OthersTraced(check: ProofCheck, states: seq<State>, events: seq<Event>, i: nat, e: Event, task: Task)
    requires Begins(e, task) && !e.Receive? && !e.Verify? && !AfterVerifying(e)
    ensures TaskTraced(check, states, events, i + 1, task)
  {
  }

  lemma {:induction false} RunTraced(check: ProofCheck, states: seq<State>, events: seq<Event>, i: nat)
    requires Run(check, states, events) && i < |states|
    ensures forall t :: t in states[i].tasks ==> TaskTraced(check, states, events, i, states[i].tasks[t])
  {
    hide Effect, Enabled, TaskTraced;
    if i > 0 {
      RunTraced(check, states, events, i - 1);
      RunAttributed(check, states, events, i - 1);
      hide Attributed, Run;
      forall t | t in states[i].tasks ensures TaskTraced(check, states, events, i, states[i].tasks[t]) {
        StepTraced(check, states, events, i - 1, t);
      }
    } else {
      NoTasks(check, states, events);
    }
  }

  lemma NoTasks(check: ProofCheck, states: seq<State>, events: seq<Event>)
    requires Run(check, states, events)
    ensures states[0].tasks == map[]
  {
  }

  // ---- Penalties ----

  /** Nobody is penalised but the user whose connection, holding a shard, had sent a result
      that the server judged and rejected; and then only that user's balance changes, by the
      penalty. */
  lemma PenaltiesAreDeserved(check: ProofCheck, states: seq<State>, events: seq<Event>, i: nat)
    requires Run(check, states, events) && i < |events| && events[i].Punish?
    requires states[i + 1].book != states[i].book
    ensures exists u, j, id, why :: u != 0 && Guilty(check, states, events, i, u, j, id, why)
              && Some(states[i + 1].book) == Change(states[i].book, u, -WORKER_PENALTY, "worker_penalty", About(j, id))
  {
    RunTraced(check, states, events, i);
    hide Change, Guilty;
    assert Step(check, states[i], events[i], states[i + 1]);
    var Penalise(u, j, id, why) := states[i].tasks[events[i].task];
    assert TaskTraced(check, states, events, i, states[i].tasks[events[i].task]);
    assert u != 0 && Guilty(check, states, events, i, u, j, id, why);
  }

  // ---- Rewards ----

  predicate TaskEarned(db: Database, task: Task) {
    task.FinishSat? || task.Reward? || task.Payout? ==>
      RowOf(db, task.jobId, task.shardId) && task.shardId in db.results
  }

  lemma EarnedLater(a: Database, b: Database, task: Task)
    requires TaskEarned(a, task) && Extends(a, b)
    ensures TaskEarned(b, task)
  {
  }

  lemma SatEarns(s: State, t: nat, ok: bool)
    requires t in s.tasks && s.tasks[t].StoreSat? && t in CommitSatStep(s, t, ok).tasks
    ensures TaskEarned(CommitSatStep(s, t, ok).db, CommitSatStep(s, t, ok).tasks[t])
  {
  }

  lemma UnsatEarns(s: State, t: nat, ok: bool)
    requires t in s.tasks && s.tasks[t].CommitUnsat? && t in CommitStep(s, t, ok).tasks
    ensures TaskEarned(CommitStep(s, t, ok).db, CommitStep(s, t, ok).tasks[t])
  {
  }

  lemma FinishEarns(s: State, t: nat)
    requires t in s.tasks && (s.tasks[t].FinishSat? || s.tasks[t].FinishUnsat?) && TaskEarned(s.db, s.tasks[t])
    ensures t in FinishStep(s, t).tasks && TaskEarned(FinishStep(s, t).db, FinishStep(s, t).tasks[t])
  {
    hide RowOf;
  }

  lemma ResolveEarns(s: State, t: nat)
    requires t in s.tasks && s.tasks[t].Reward? && TaskEarned(s.db, s.tasks[t])
    ensures t in ResolveStep(s, t).tasks ==> TaskEarned(ResolveStep(s, t).db, ResolveStep(s, t).tasks[t])
  {
    hide RowOf;
  }

  lemma StepEarned(check: ProofCheck, s: State, e: Event, u: nat)
    requires Enabled(s, e) && u in Effect(check, s, e).tasks
    requires forall t :: t in s.tasks ==> TaskEarned(s.db, s.tasks[t])
    ensures TaskEarned(Effect(check, s, e).db, Effect(check, s, e).tasks[u])
  {
    hide TaskEarned, Extends, Effect, Enabled;
    StepExtends(check, s, e);
    var s' := Effect(check, s, e);
    if u in s.tasks && s'.tasks[u] == s.tasks[u] {
      EarnedLater(s.db, s'.db, s.tasks[u]);
    } else if AfterVerifying(e) {
      StepHandsOn(check, s, e, u);
      HandedOnEarned(check, s, e);
    } else {
      StepBegins(check, s, e);
      NothingEarned(s'.db, e, s'.tasks[u]);
    }
  }

  lemma HandedOnEarned(check: ProofCheck, s: State, e: Event)
    requires Enabled(s, e) && AfterVerifying(e) && TaskEarned(s.db, s.tasks[e.task])
    requires e.task in Effect(check, s, e).tasks
    ensures TaskEarned(Effect(check, s, e).db, Effect(check, s, e).tasks[e.task])
  {
    hide TaskEarned, CommitSatStep, CommitStep, FinishStep, CountStep, ResolveStep;
    match e
    case CommitSat(t, ok) => SatEarns(s, t, ok);
    case Commit(t, ok) => UnsatEarns(s, t, ok);
    case Finish(t) => FinishEarns(s, t);
    case Count(t) => CountEarns(s, t);
    case Resolve(t) => ResolveEarns(s, t);
  }

  lemma CountEarns(s: State, t: nat)
    requires t in s.tasks && s.tasks[t].CountUnsat?
    ensures t in CountStep(s, t).tasks && TaskEarned(CountStep(s, t).db, CountStep(s, t).tasks[t])
  {
    hide AllRefuted, StoreUnsatShard, RowOf;
  }

  lemma NothingEarned(db: Database, e: Event, task: Task)
    requires Begins(e, task) && !AfterVerifying(e)
    ensures TaskEarned(db, task)
  {
  }

  lemma {:induction false} RunEarned(check: ProofCheck, states: seq<State>, events: seq<Event>, i: nat)
    requires Run(check, states, events) && i < |states|
    ensures forall t :: t in states[i].tasks ==> TaskEarned(states[i].db, states[i].tasks[t])
  {
    hide Effect, Enabled, TaskEarned;
    if i > 0 {
      RunEarned(check, states, events, i - 1);
      assert Step(check, states[i - 1], events[i - 1], states[i]);
      forall t | t in states[i].tasks ensures TaskEarned(states[i].db, states[i].tasks[t]) {
        StepEarned(check, states[i - 1], events[i - 1], t);
      }
    }
  }

  /** `fee` satoshi went from the client to the worker's user, and nothing else happened. */
  predicate FeeMoved(b: Book, c: Book, client: int, worker: int, fee: int) {
    && client in b.balance && worker in b.balance && 0 < fee <= b.balance[client]
    && c.balance == (if client == worker then b.balance
                     else b.balance[client := b.balance[client] - fee][worker := b.balance[worker] + fee])
    && |c.rows| == |b.rows| + 2 && c.rows[..|b.rows|] == b.rows
    && c.rows[|b.rows|].userId == client && c.rows[|b.rows|].amount == -fee
    && c.rows[|b.rows| + 1].userId == worker && c.rows[|b.rows| + 1].amount == fee
  }

  lemma TransferMovesTheFee(b: Book, client: int, worker: int, fee: int, reason: string, meta: Meta)
    requires Balanced(b)
    ensures var c := Transfer(b, client, worker, fee, reason, meta);
            c.Some? ==> FeeMoved(b, c.value, client, worker, fee)
  {
    hide Sum;
  }

  /** The fee is ten a variable and one a clause, as the job's header declares them. */
  predicate RewardPaid(f: File, b: Book, c: Book, client: int, worker: int) {
    && DeclaredSize(f).Some?
    && FeeMoved(b, c, client, worker, ToInt64(10 * DeclaredSize(f).value.0 + DeclaredSize(f).value.1))
  }

  lemma SettlingMovesTheFee(s: State, t: nat, ok: bool)
    requires Balanced(s.book) && t in s.tasks && s.tasks[t].Payout? && s.tasks[t].jobId in s.db.jobs
    requires SettleStep(s, t, ok).book != s.book
    ensures var Payout(w, u, j, id) := s.tasks[t];
            RewardPaid(s.db.jobs[j].file, s.book, SettleStep(s, t, ok).book, s.db.jobs[j].userId, u)
  {
    hide Transfer, DeclaredSize, FeeMoved, Balanced, AlreadyPaid;
    var Payout(w, u, j, id) := s.tasks[t];
    var fee := RewardFor(s.db.jobs[j].file).value;
    TransferMovesTheFee(s.book, s.db.jobs[j].userId, u, fee, "worker_reward", About(j, id));
  }

  lemma StoredIsEvident(check: ProofCheck, states: seq<State>, events: seq<Event>, i: nat, id: int)
    requires Run(check, states, events) && i < |states| && id in states[i].db.results
    ensures Evident(check, states[i].db, id, states[i].db.results[id])
  {
    RunSafe(check, states, events, i);
    hide Run, Evident, RowsSound, StatusSound, VerdictsSound, TasksSound, MemorySound, SplitOnce;
  }

  lemma BooksBalance(check: ProofCheck, states: seq<State>, events: seq<Event>, i: nat)
    requires Run(check, states, events) && i < |states|
    ensures Balanced(states[i].book)
  {
    BooksAlwaysBalance(check, states, events, i);
    hide Run, Balanced;
  }

  lemma SettledIs(check: ProofCheck, states: seq<State>, events: seq<Event>, i: nat)
    requires Run(check, states, events) && i < |events| && events[i].Settle?
    ensures events[i].task in states[i].tasks && states[i].tasks[events[i].task].Payout?
    ensures states[i + 1] == SettleStep(states[i], events[i].task, events[i].ok)
  {
    hide SettleStep;
    assert Step(check, states[i], events[i], states[i + 1]);
  }

  /** A reward is paid only for a shard of the job whose verified result is stored, out of the
      job owner's balance, to the user of the connection that had sent such a result for
      this shard and had it verified. */
  lemma RewardsAreEarned(check: ProofCheck, states: seq<State>, events: seq<Event>, i: nat)
    requires Run(check, states, events) && i < |events| && events[i].Settle?
    requires states[i + 1].book != states[i].book
    ensures events[i].task in states[i].tasks && states[i].tasks[events[i].task].Payout?
    ensures var s, Payout(w, u, j, id) := states[i], states[i].tasks[events[i].task];
            && Confirmed(check, states, events, i, w, u, j, id)
            && RowOf(s.db, j, id) && id in s.db.results && Evident(check, s.db, id, s.db.results[id])
            && RewardPaid(s.db.jobs[j].file, s.book, states[i + 1].book, s.db.jobs[j].userId, u)
  {
    var s, t := states[i], events[i].task;
    SettledIs(check, states, events, i);
    RunEarned(check, states, events, i);
    RunTraced(check, states, events, i);
    BooksBalance(check, states, events, i);
    hide Run, Evident, RewardPaid, Balanced, SettleStep, Confirmed;
    assert TaskEarned(s.db, s.tasks[t]);
    assert TaskTraced(check, states, events, i, s.tasks[t]);
    StoredIsEvident(check, states, events, i, s.tasks[t].shardId);
    SettlingMovesTheFee(s, t, events[i].ok);
  }

  /** When workers keep to the protocol, the paid user is moreover the one whose connection
      held this very shard when the result came in. */
  lemma RewardsGoToTheHolder(check: ProofCheck, states: seq<State>, events: seq<Event>, i: nat)
    requires HonestRun(check, states, events) && i < |events| && events[i].Settle?
    requires states[i + 1].book != states[i].book
    ensures events[i].task in states[i].tasks && states[i].tasks[events[i].task].Payout?
    ensures var Payout(w, u, j, id) := states[i].tasks[events[i].task];
            exists k: nat, m: nat, res: Result ::
              m < i && Proves(check, states, events, k, m, w, res, j, id) && HeldBy(states[k], w, u, j, id)
  {
    hide WorkersHonest;
    RewardsAreEarned(check, states, events, i);
    var Payout(w, u, j, id) := states[i].tasks[events[i].task];
    var k: nat, m: nat, res: Result :| Backs(check, states, events, k, m, res, i, w, u, j, id);
    SenderHeldIt(check, states, events, k, w, res);
  }

  predicate HeldBy(s: State, w: int, u: int, j: int, id: int) {
    w in s.mem.slots && s.mem.slots[w].userId == u && s.mem.slots[w].jobId == j && s.mem.slots[w].shardId == id
  }

  lemma SenderHeldIt(check: ProofCheck, states: seq<State>, events: seq<Event>, k: nat, w: int, res: Result)
    requires HonestRun(check, states, events) && Sent(states, events, k, w, res)
    ensures HeldBy(states[k], w, states[k].conns.users[w], res.jobId, res.shardId)
  {
    RunPlaced(check, states, events, k);
    RunAttributed(check, states, events, k);
    assert Step(check, states[k], events[k], states[k + 1]);
    hide Located, NoneLost, ListsClean, NamesRows, Effect;
    HonestReceive(states[k], w, res);
  }
}
