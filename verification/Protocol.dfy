/** The server as a state machine. A step is one critical section of the scheduler's or the
    registry's mutex, or one database transaction; between any two steps of one goroutine all
    others may run. Messages, failures and the environment's choices are the step's labels. */
module Protocol {
  import opened GoText
  import opened Dimacs
  import opened Tables
  import opened DbSafety
  import opened Ledger

  // ---- State ----

  /** What the scheduler's mutex guards. A missing slot is an idle worker. */
  datatype Memory = Memory(pending: seq<Shard>, slots: map<int, Shard>, completed: set<int>)

  /** The worker registry: the user behind each registered connection. */
  datatype Conns = Conns(users: map<int, int>, nextId: int)

  /** Who holds the scheduler's mutex across a step: only an assignment that has picked a
      shard and found the worker's connection, and now sends. */
  datatype Lock = Free | Sending(workerId: int, userId: int, shard: Shard)

  /** How far the goroutine that serves a connection has come. */
  datatype Phase = Fresh(userId: int) | Live | Leaving | Gone

  /** Goroutines between two steps, with the values they carry. */
  datatype Task =
    | SplitJob(jobId: int)
    | RejectJob(jobId: int)
    | AbandonJob(jobId: int)
    | Append(shards: seq<Shard>)
    | JudgeResult(workerId: int, userId: int, res: Result)
    | Penalise(userId: int, jobId: int, shardId: int, why: string)
    | StoreSat(workerId: int, jobId: int, shardId: int, assignment: seq<int>)
    | FinishSat(workerId: int, jobId: int, shardId: int)
    | CountUnsat(workerId: int, jobId: int, shardId: int, dratId: int)
    | FinishUnsat(workerId: int, jobId: int, shardId: int, dratId: int)
    | CommitUnsat(workerId: int, jobId: int, shardId: int, dratId: int, all: bool)
    | Requeue(shardId: int)
    | MarkRunning(shardId: int)
    | Reward(workerId: int, jobId: int, shardId: int)
    | Payout(workerId: int, userId: int, jobId: int, shardId: int)

  /** `owed` is the workers' side: assignments sent to a worker and not answered yet. */
  datatype State = State(
    mem: Memory,
    lock: Lock,
    conns: Conns,
    phases: map<int, Phase>,
    db: Database,
    book: Book,
    tasks: map<nat, Task>,
    nextTask: nat,
    owed: map<int, seq<Shard>>)

  const EMPTY_MEMORY := Memory([], map[], {})
  const INIT := State(EMPTY_MEMORY, Free, Conns(map[], 0), map[],
                      Database(map[], map[], map[], map[], map[]), Book(map[], []), map[], 0, map[])

  datatype Wallet = Deposit | Withdraw | UploadCharge(cost: nat)

  datatype Event =
    | Restart
    | SignUp(userId: int)
    | Pay(userId: int, op: Wallet)
    | Upload(jobId: int, userId: int, upload: File, maxWorkers: int)
    | UploadProof(proofId: int, proof: Proof)
    | Insert(task: nat, ids: seq<int>, ok: bool)
    | Reject(task: nat, ok: bool)
    | Abandon(task: nat)
    | Queue(task: nat)
    | Connect(userId: int)
    | Register(workerId: int)
    | Unregister(workerId: int)
    | Disconnect(workerId: int)
    | Receive(workerId: int, res: Result)
    | Verify(task: nat, lookupOk: bool)
    | Punish(task: nat, ok: bool)
    | CommitSat(task: nat, ok: bool)
    | Finish(task: nat)
    | Count(task: nat)
    | Commit(task: nat, ok: bool)
    | Reopen(task: nat, ok: bool)
    | Pick(workerId: int, readable: bool)
    | Send(ok: bool)
    | Started(task: nat, ok: bool)
    | Resolve(task: nat)
    | Settle(task: nat, ok: bool)

  // ---- Parts of steps ----

  function Spawn(s: State, task: Task): State {
    s.(tasks := s.tasks[s.nextTask := task], nextTask := s.nextTask + 1)
  }

  function Become(s: State, t: nat, task: Task): State {
    s.(tasks := s.tasks[t := task])
  }

  function End(s: State, t: nat): State {
    s.(tasks := s.tasks - {t})
  }

  datatype Picked = Picked(shard: Option<Shard>, rest: seq<Shard>)

  /** Shards of completed jobs are dropped up to the first live one, which is taken. */
  function PickLive(pending: seq<Shard>, completed: set<int>): Picked {
    if pending == [] then Picked(None, [])
    else if pending[0].jobId in completed then PickLive(pending[1..], completed)
    else Picked(Some(pending[0]), pending[1..])
  }

  /** The worker is registered and its user can afford a penalty. */
  predicate MayWork(conns: Conns, book: Book, workerId: int) {
    && workerId in conns.users && conns.users[workerId] in book.balance
    && book.balance[conns.users[workerId]] >= MIN_WORKER_BALANCE
  }

  function WithQueue(s: State, pending: seq<Shard>): State {
    s.(mem := s.mem.(pending := pending))
  }

  function ClearSlot(s: State, workerId: int): State {
    s.(mem := s.mem.(slots := s.mem.slots - {workerId}))
  }

  function MarkComplete(s: State, jobId: int): State {
    s.(mem := s.mem.(completed := s.mem.completed + {jobId}))
  }

  function OwedTo(s: State, workerId: int): seq<Shard> {
    if workerId in s.owed then s.owed[workerId] else []
  }

  function Booked(s: State, change: Option<Book>, ok: bool): State {
    if ok && change.Some? then s.(book := change.value) else s
  }

  function WalletDelta(op: Wallet): int {
    match op case Deposit => 1000 case Withdraw => -1000 case UploadCharge(cost) => 0 - cost
  }

  function WalletReason(op: Wallet): string {
    match op case Deposit => "deposit" case Withdraw => "withdraw" case UploadCharge(_) => "upload_cnf"
  }

  /** The rows the reward guard counts: it asks for the bare reason "worker_reward". */
  predicate RewardedFor(row: Row, jobId: int, shardId: int) {
    row.reason == "worker_reward" && row.meta == About(jobId, shardId)
  }

  predicate AlreadyPaid(book: Book, jobId: int, shardId: int) {
    exists i :: 0 <= i < |book.rows| && RewardedFor(book.rows[i], jobId, shardId)
  }

  function PayReward(s: State, userId: int, jobId: int, shardId: int): Option<Book> {
    if AlreadyPaid(s.book, jobId, shardId) || jobId !in s.db.jobs then None
    else
      var reward := RewardFor(s.db.jobs[jobId].file);
      if reward.None? then None
      else Transfer(s.book, s.db.jobs[jobId].userId, userId, reward.value, "worker_reward", About(jobId, shardId))
  }

  // ---- Steps, by goroutine ----

  /** Ids the database may hand out for a job's shard rows. */
  predicate FreshIds(db: Database, jobId: int, ids: seq<int>)
    requires jobId in db.jobs
  {
    && Distinct(ids) && (forall i :: 0 <= i < |ids| ==> ids[i] !in db.shards)
    && (CubesOf(db.jobs[jobId]).Some? ==> |ids| == |CubesOf(db.jobs[jobId]).value|)
  }

  /** Splitting a job: validation, cubes, and one transaction for all shard rows. */
  ghost function SplitStep(s: State, t: nat, ids: seq<int>, ok: bool): (r: State)
    requires t in s.tasks && s.tasks[t].SplitJob? && s.tasks[t].jobId in s.db.jobs
    requires FreshIds(s.db, s.tasks[t].jobId, ids)
    ensures r.book == s.book
  {
    var j := s.tasks[t].jobId;
    var cubes := CubesOf(s.db.jobs[j]);
    if !Valid(s.db.jobs[j].file) then Become(s, t, RejectJob(j))
    else if cubes.None? || !ok then End(s, t)
    else Become(s.(db := InsertShards(s.db, j, ids, cubes.value)), t, Append(NewShards(j, ids, cubes.value)))
  }

  function ReceiveStep(s: State, w: int, res: Result): (r: State)
    ensures r.db == s.db && r.book == s.book
  {
    var userId := if w in s.mem.slots then s.mem.slots[w].userId else 0;
    var s1 := ClearSlot(s, w);
    var s2 := if OwedTo(s, w) == [] then s1 else s1.(owed := s1.owed[w := OwedTo(s, w)[1..]]);
    Spawn(s2, JudgeResult(w, userId, res))
  }

  function VerifyStep(check: ProofCheck, s: State, t: nat, lookupOk: bool): (r: State)
    requires t in s.tasks && s.tasks[t].JudgeResult?
    ensures r.db == s.db && r.book == s.book
  {
    var JudgeResult(w, userId, res) := s.tasks[t];
    match Judge(check, s.db, res, lookupOk)
    case Dropped => End(s, t)
    case Rejected(why) => Become(s, t, Penalise(userId, res.jobId, res.shardId, why))
    case SatProved(a) => Become(s, t, StoreSat(w, res.jobId, res.shardId, a))
    case UnsatProved(d) => Become(s, t, CountUnsat(w, res.jobId, res.shardId, d))
  }

  /** A failed penalty is only logged; the shard is re-enqueued either way. */
  function PunishStep(s: State, t: nat, ok: bool): (r: State)
    requires t in s.tasks && s.tasks[t].Penalise?
    ensures r.db == s.db
  {
    var Penalise(userId, jobId, shardId, why) := s.tasks[t];
    var change := if userId == 0 then None
                  else Change(s.book, userId, -WORKER_PENALTY, "worker_penalty", About(jobId, shardId));
    Become(Booked(s, change, ok), t, Requeue(shardId))
  }

  function CommitSatStep(s: State, t: nat, ok: bool): (r: State)
    requires t in s.tasks && s.tasks[t].StoreSat?
    ensures r.book == s.book
  {
    var StoreSat(w, jobId, shardId, a) := s.tasks[t];
    if !ok || !RowOf(s.db, jobId, shardId) then End(s, t)
    else Become(s.(db := StoreSatResult(s.db, jobId, shardId, a)), t, FinishSat(w, jobId, shardId))
  }

  /** `completed` is set after the SAT commit, but before the UNSAT commit. */
  function FinishStep(s: State, t: nat): (r: State)
    requires t in s.tasks && (s.tasks[t].FinishSat? || s.tasks[t].FinishUnsat?)
    ensures r.db == s.db && r.book == s.book
  {
    match s.tasks[t]
    case FinishSat(w, jobId, shardId) => Become(MarkComplete(s, jobId), t, Reward(w, jobId, shardId))
    case FinishUnsat(w, jobId, shardId, d) => Become(MarkComplete(s, jobId), t, CommitUnsat(w, jobId, shardId, d, true))
  }

  /** The counts, read inside the transaction, after its own two writes. */
  function CountStep(s: State, t: nat): (r: State)
    requires t in s.tasks && s.tasks[t].CountUnsat?
    ensures r.db == s.db && r.book == s.book
  {
    var CountUnsat(w, jobId, shardId, d) := s.tasks[t];
    if AllRefuted(StoreUnsatShard(s.db, shardId, d), jobId) then Become(s, t, FinishUnsat(w, jobId, shardId, d))
    else Become(s, t, CommitUnsat(w, jobId, shardId, d, false))
  }

  function CommitStep(s: State, t: nat, ok: bool): (r: State)
    requires t in s.tasks && s.tasks[t].CommitUnsat?
    ensures r.book == s.book
  {
    var CommitUnsat(w, jobId, shardId, d, all) := s.tasks[t];
    if !ok || !RowOf(s.db, jobId, shardId) then End(s, t)
    else Become(s.(db := StoreUnsatResult(s.db, jobId, shardId, d, all)), t, Reward(w, jobId, shardId))
  }

  /** Re-enqueueing: the row is looked up and set 'pending', then the shard is appended. */
  function ReopenStep(s: State, t: nat, ok: bool): (r: State)
    requires t in s.tasks && s.tasks[t].Requeue?
    ensures r.book == s.book
  {
    var id := s.tasks[t].shardId;
    if !ok || id !in s.db.shards then End(s, t)
    else
      var row := s.db.shards[id];
      Become(s.(db := SetShardStatus(s.db, id, Pending)), t, Append([Shard(row.jobId, id, row.cube, 0)]))
  }

  /** First half of an assignment, under the mutex: pop, check balance, look up the worker. */
  function PickStep(s: State, w: int, readable: bool): (r: State)
    ensures r.db == s.db && r.book == s.book
  {
    if w in s.mem.slots then s
    else
      var p := PickLive(s.mem.pending, s.mem.completed);
      if p.shard.None? then WithQueue(s, p.rest)
      else if !readable || !MayWork(s.conns, s.book, w) then WithQueue(s, [p.shard.value] + p.rest)
      else WithQueue(s, p.rest).(lock := Sending(w, s.conns.users[w], p.shard.value))
  }

  /** Second half: send, then record the worker's slot or put the shard back in front. */
  function SendStep(s: State, ok: bool): (r: State)
    requires s.lock.Sending?
    ensures r.db == s.db && r.book == s.book
  {
    var Sending(w, userId, sh) := s.lock;
    var s1 := s.(lock := Free);
    if !ok then WithQueue(s1, [sh] + s1.mem.pending)
    else
      var held := sh.(userId := userId);
      var s2 := s1.(mem := s1.mem.(slots := s1.mem.slots[w := held]), owed := s1.owed[w := OwedTo(s1, w) + [held]]);
      Spawn(s2, MarkRunning(sh.shardId))
  }

  function DisconnectStep(s: State, w: int): (r: State)
    ensures r.db == s.db && r.book == s.book
  {
    var s1 := ClearSlot(s, w).(phases := s.phases[w := Gone]);
    if w in s.mem.slots then Spawn(s1, Requeue(s.mem.slots[w].shardId)) else s1
  }

  function UploadStep(s: State, jobId: int, userId: int, upload: File, maxWorkers: int): (r: State)
    ensures r.book == s.book
  {
    var row := JobRow(userId, Normalised(upload), maxWorkers, Pending);
    Spawn(s.(db := s.db.(jobs := s.db.jobs[jobId := row])), SplitJob(jobId))
  }

  function RejectStep(s: State, t: nat, ok: bool): (r: State)
    requires t in s.tasks && s.tasks[t].RejectJob?
    ensures r.book == s.book
  {
    var j := s.tasks[t].jobId;
    Become(if ok then s.(db := SetJobStatus(s.db, j, Status.Failed)) else s, t, AbandonJob(j))
  }

  function StartedStep(s: State, t: nat, ok: bool): (r: State)
    requires t in s.tasks && s.tasks[t].MarkRunning?
    ensures r.book == s.book
  {
    End(if ok then s.(db := SetShardStatus(s.db, s.tasks[t].shardId, Status.Running)) else s, t)
  }

  /** First half of a reward: the registry names the worker's user, if it is still connected. */
  function ResolveStep(s: State, t: nat): (r: State)
    requires t in s.tasks && s.tasks[t].Reward?
    ensures r.db == s.db && r.book == s.book
  {
    var Reward(w, jobId, shardId) := s.tasks[t];
    if w !in s.conns.users then End(s, t) else Become(s, t, Payout(w, s.conns.users[w], jobId, shardId))
  }

  /** Second half: the guard's query and the transfer. */
  function SettleStep(s: State, t: nat, ok: bool): (r: State)
    requires t in s.tasks && s.tasks[t].Payout?
    ensures r.db == s.db
  {
    var Payout(w, userId, jobId, shardId) := s.tasks[t];
    End(Booked(s, PayReward(s, userId, jobId, shardId), ok), t)
  }

  function ConnectStep(s: State, userId: int): (r: State)
    ensures r.db == s.db && r.book == s.book
  {
    var w := s.conns.nextId + 1;
    s.(conns := s.conns.(nextId := w), phases := s.phases[w := Fresh(userId)])
  }

  function RegisterStep(s: State, w: int): (r: State)
    requires w in s.phases && s.phases[w].Fresh?
    ensures r.db == s.db && r.book == s.book
  {
    s.(conns := s.conns.(users := s.conns.users[w := s.phases[w].userId]), phases := s.phases[w := Live])
  }

  function UnregisterStep(s: State, w: int): (r: State)
    ensures r.db == s.db && r.book == s.book
  {
    s.(conns := s.conns.(users := s.conns.users - {w}), phases := s.phases[w := Leaving])
  }

  // ---- The step relation ----

  predicate InPhase(s: State, w: int, phase: Phase) {
    w in s.phases && s.phases[w] == phase
  }

  predicate Enabled(s: State, e: Event) {
    match e
    case Restart => true
    case SignUp(u) => u !in s.book.balance
    case Pay(_, _) => true
    case Upload(j, _, _, maxWorkers) => j !in s.db.jobs && 1 <= maxWorkers <= MAX_INT64
    case UploadProof(p, _) => p !in s.db.proofs
    case Insert(t, ids, _) => t in s.tasks && s.tasks[t].SplitJob? && s.tasks[t].jobId in s.db.jobs
                             && FreshIds(s.db, s.tasks[t].jobId, ids)
    case Reject(t, _) => t in s.tasks && s.tasks[t].RejectJob?
    case Abandon(t) => s.lock.Free? && t in s.tasks && s.tasks[t].AbandonJob?
    case Queue(t) => s.lock.Free? && t in s.tasks && s.tasks[t].Append?
    case Connect(_) => true
    case Register(w) => w in s.phases && s.phases[w].Fresh?
    case Unregister(w) => InPhase(s, w, Live)
    case Disconnect(w) => s.lock.Free? && InPhase(s, w, Leaving)
    case Receive(w, _) => s.lock.Free? && InPhase(s, w, Live)
    case Verify(t, _) => t in s.tasks && s.tasks[t].JudgeResult?
    case Punish(t, _) => t in s.tasks && s.tasks[t].Penalise?
    case CommitSat(t, _) => t in s.tasks && s.tasks[t].StoreSat?
    case Finish(t) => s.lock.Free? && t in s.tasks && (s.tasks[t].FinishSat? || s.tasks[t].FinishUnsat?)
    case Count(t) => t in s.tasks && s.tasks[t].CountUnsat?
    case Commit(t, _) => t in s.tasks && s.tasks[t].CommitUnsat?
    case Reopen(t, _) => t in s.tasks && s.tasks[t].Requeue?
    case Pick(_, _) => s.lock.Free?
    case Send(_) => s.lock.Sending?
    case Started(t, _) => t in s.tasks && s.tasks[t].MarkRunning?
    case Resolve(t) => t in s.tasks && s.tasks[t].Reward?
    case Settle(t, _) => t in s.tasks && s.tasks[t].Payout?
  }

  ghost function Effect(check: ProofCheck, s: State, e: Event): State
    requires Enabled(s, e)
  {
    match e
    case Restart =>
      State(EMPTY_MEMORY, Free, Conns(map[], 0), map[], s.db, s.book, map[], s.nextTask, map[])
    case SignUp(u) => s.(book := s.book.(balance := s.book.balance[u := 0]))
    case Pay(u, op) => Booked(s, Change(s.book, u, WalletDelta(op), WalletReason(op), NoMeta), true)
    case Upload(j, u, upload, maxWorkers) => UploadStep(s, j, u, upload, maxWorkers)
    case UploadProof(p, proof) => s.(db := s.db.(proofs := s.db.proofs[p := proof]))
    case Insert(t, ids, ok) => SplitStep(s, t, ids, ok)
    case Reject(t, ok) => RejectStep(s, t, ok)
    case Abandon(t) => End(MarkComplete(s, s.tasks[t].jobId), t)
    case Queue(t) => End(WithQueue(s, s.mem.pending + s.tasks[t].shards), t)
    case Connect(u) => ConnectStep(s, u)
    case Register(w) => RegisterStep(s, w)
    case Unregister(w) => UnregisterStep(s, w)
    case Disconnect(w) => DisconnectStep(s, w)
    case Receive(w, res) => ReceiveStep(s, w, res)
    case Verify(t, lookupOk) => VerifyStep(check, s, t, lookupOk)
    case Punish(t, ok) => PunishStep(s, t, ok)
    case CommitSat(t, ok) => CommitSatStep(s, t, ok)
    case Finish(t) => FinishStep(s, t)
    case Count(t) => CountStep(s, t)
    case Commit(t, ok) => CommitStep(s, t, ok)
    case Reopen(t, ok) => ReopenStep(s, t, ok)
    case Pick(w, readable) => PickStep(s, w, readable)
    case Send(ok) => SendStep(s, ok)
    case Started(t, ok) => StartedStep(s, t, ok)
    case Resolve(t) => ResolveStep(s, t)
    case Settle(t, ok) => SettleStep(s, t, ok)
  }

  ghost predicate Step(check: ProofCheck, s: State, e: Event, s': State) {
    Enabled(s, e) && s' == Effect(check, s, e)
  }

  // ---- Runs ----

  /** The states of a run, from the empty server on, and the steps between them. */
  ghost predicate Run(check: ProofCheck, states: seq<State>, events: seq<Event>) {
    && |states| == |events| + 1 && states[0] == INIT
    && forall i :: 0 <= i < |events| ==> Step(check, states[i], events[i], states[i + 1])
  }
}
