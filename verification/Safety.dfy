/** What every step keeps, whatever workers send and whichever transactions fail. */
module Safety {
  import opened GoText
  import opened Dimacs
  import opened CubeApply
  import opened VerifySat
  import opened Tables
  import opened DbSafety
  import opened Ledger
  import opened Protocol

  /** A shard in memory is a copy of its row. */
  predicate Genuine(db: Database, sh: Shard) {
    && sh.shardId in db.shards && db.shards[sh.shardId].jobId == sh.jobId
    && db.shards[sh.shardId].cube == sh.cube
  }

  predicate AllGenuine(db: Database, shs: seq<Shard>) {
    forall i :: 0 <= i < |shs| ==> Genuine(db, shs[i])
  }

  /** The evidence a goroutine has gathered by the time it is about to store something. */
  ghost predicate TaskSound(check: ProofCheck, db: Database, task: Task) {
    match task
    case SplitJob(j) => j in db.jobs && NoRows(db, j)
    case Append(shs) => AllGenuine(db, shs)
    case StoreSat(_, j, id, a) => RowOf(db, j, id) && Accepts(db.jobs[j].file, db.shards[id].cube, a)
    case CountUnsat(_, j, id, d) => RowOf(db, j, id) && Evident(check, db, id, FoundUnsat(d))
    case FinishUnsat(_, j, id, d) =>
      RowOf(db, j, id) && Evident(check, db, id, FoundUnsat(d)) && Refuted(check, db.jobs[j])
    case CommitUnsat(_, j, id, d, all) =>
      RowOf(db, j, id) && Evident(check, db, id, FoundUnsat(d)) && (all ==> Refuted(check, db.jobs[j]))
    case _ => true
  }

  ghost predicate TasksSound(check: ProofCheck, db: Database, tasks: map<nat, Task>) {
    forall t :: t in tasks ==> TaskSound(check, db, tasks[t])
  }

  /** No job is being split twice. */
  predicate SplitOnce(tasks: map<nat, Task>) {
    forall t, u :: t in tasks && u in tasks && t != u && tasks[t].SplitJob? && tasks[u].SplitJob? ==>
      tasks[t].jobId != tasks[u].jobId
  }

  ghost predicate MemorySound(s: State) {
    && AllGenuine(s.db, s.mem.pending)
    && (forall w :: w in s.mem.slots ==> Genuine(s.db, s.mem.slots[w]))
    && (s.lock.Sending? ==> Genuine(s.db, s.lock.shard))
    && (forall w :: w in s.owed ==> AllGenuine(s.db, s.owed[w]))
  }

  /** The invariant behind every verdict. */
  ghost predicate Safe(check: ProofCheck, s: State) {
    && DbSound(check, s.db) && TasksSound(check, s.db, s.tasks) && MemorySound(s)
    && SplitOnce(s.tasks) && (forall t :: t in s.tasks ==> t < s.nextTask)
  }

  // ---- Evidence is permanent ----

  predicate NoNewRows(a: Database, b: Database) {
    forall id :: id in b.shards ==> id in a.shards && a.shards[id].jobId == b.shards[id].jobId
  }

  lemma TaskStable(check: ProofCheck, a: Database, b: Database, task: Task)
    requires Extends(a, b) && TaskSound(check, a, task) && (task.SplitJob? ==> NoRows(b, task.jobId))
    ensures TaskSound(check, b, task)
  {
    hide Accepts, Evident, Refuted;
    match task
    case CountUnsat(_, j, id, d) => EvidentStable(check, a, b, id, FoundUnsat(d));
    case FinishUnsat(_, j, id, d) =>
      EvidentStable(check, a, b, id, FoundUnsat(d));
      DecisionStable(check, a.jobs[j], b.jobs[j], JobUnsat);
    case CommitUnsat(_, j, id, d, all) =>
      EvidentStable(check, a, b, id, FoundUnsat(d));
      DecisionStable(check, a.jobs[j], b.jobs[j], JobUnsat);
    case _ =>
  }

  lemma MemoryStable(s: State, db: Database)
    requires MemorySound(s) && Extends(s.db, db)
    ensures MemorySound(s.(db := db))
  {
  }

  /** A step that adds no shard rows and only sound tasks, and moves only genuine shards. */
  lemma SafeAfter(check: ProofCheck, s: State, s': State)
    requires Safe(check, s) && MemorySound(s')
    requires DbSound(check, s'.db) && Extends(s.db, s'.db) && NoNewRows(s.db, s'.db)
    requires forall t :: t in s'.tasks ==>
               t < s'.nextTask && ((t in s.tasks && s'.tasks[t] == s.tasks[t])
                                   || (TaskSound(check, s'.db, s'.tasks[t]) && !s'.tasks[t].SplitJob?))
    ensures Safe(check, s')
  {
    hide DbSound, MemorySound, Extends, TaskSound;
    forall t | t in s'.tasks ensures TaskSound(check, s'.db, s'.tasks[t]) {
      if t in s.tasks && s'.tasks[t] == s.tasks[t] {
        NoRowsStay(check, s.db, s'.db, s.tasks[t]);
        TaskStable(check, s.db, s'.db, s.tasks[t]);
      }
    }
  }

  lemma NoRowsStay(check: ProofCheck, a: Database, b: Database, task: Task)
    requires TaskSound(check, a, task) && NoNewRows(a, b)
    ensures task.SplitJob? ==> NoRows(b, task.jobId)
  {
  }

  lemma SameDb(db: Database)
    ensures Extends(db, db) && NoNewRows(db, db)
  {
  }

  // ---- Steps that leave the tables alone ----

  /** The step touches neither the tables nor the tasks. */
  lemma SafeMove(check: ProofCheck, s: State, s': State)
    requires Safe(check, s) && MemorySound(s') && s'.db == s.db && s'.tasks == s.tasks && s'.nextTask == s.nextTask
    ensures Safe(check, s')
  {
    hide DbSound, MemorySound, TaskSound;
    SameDb(s.db);
    hide Extends;
    SafeAfter(check, s, s');
  }

  lemma {:induction false} PickKeepsGenuine(db: Database, pending: seq<Shard>, completed: set<int>)
    requires AllGenuine(db, pending)
    ensures var p := PickLive(pending, completed);
            AllGenuine(db, p.rest) && (p.shard.Some? ==> Genuine(db, p.shard.value))
  {
    hide Genuine;
    if pending != [] && pending[0].jobId in completed {
      PickKeepsGenuine(db, pending[1..], completed);
    }
  }

  lemma SafeParts(check: ProofCheck, s: State)
    requires Safe(check, s)
    ensures DbSound(check, s.db) && TasksSound(check, s.db, s.tasks) && MemorySound(s) && SplitOnce(s.tasks)
  {
    hide DbSound, TasksSound, MemorySound, SplitOnce;
  }

  lemma PickMemory(s: State, w: int, readable: bool)
    requires MemorySound(s) && s.lock.Free?
    ensures var s' := PickStep(s, w, readable);
            MemorySound(s') && s'.db == s.db && s'.tasks == s.tasks && s'.nextTask == s.nextTask
  {
    PickKeepsGenuine(s.db, s.mem.pending, s.mem.completed);
    hide MayWork, PickLive, Genuine;
  }

  lemma PickSafe(check: ProofCheck, s: State, w: int, readable: bool)
    requires Safe(check, s) && s.lock.Free?
    ensures Safe(check, PickStep(s, w, readable))
  {
    SafeParts(check, s);
    hide Safe, MemorySound, PickStep, DbSound, TasksSound, SplitOnce;
    PickMemory(s, w, readable);
    SafeMove(check, s, PickStep(s, w, readable));
  }

  lemma SendSafe(check: ProofCheck, s: State, ok: bool)
    requires Safe(check, s) && s.lock.Sending?
    ensures Safe(check, SendStep(s, ok))
  {
    hide DbSound;
    SameDb(s.db);
    hide Extends;
    SafeAfter(check, s, SendStep(s, ok));
  }

  lemma ReceiveSafe(check: ProofCheck, s: State, w: int, res: Result)
    requires Safe(check, s)
    ensures Safe(check, ReceiveStep(s, w, res))
  {
    hide DbSound;
    SameDb(s.db);
    hide Extends;
    SafeAfter(check, s, ReceiveStep(s, w, res));
  }

  lemma DisconnectSafe(check: ProofCheck, s: State, w: int)
    requires Safe(check, s)
    ensures Safe(check, DisconnectStep(s, w))
  {
    hide DbSound;
    SameDb(s.db);
    hide Extends;
    SafeAfter(check, s, DisconnectStep(s, w));
  }

  /** A task is replaced by one that is sound as the tables stand. */
  lemma SafeBecome(check: ProofCheck, s: State, t: nat, task: Task)
    requires Safe(check, s) && t in s.tasks && TaskSound(check, s.db, task) && !task.SplitJob?
    ensures Safe(check, Become(s, t, task))
  {
    hide DbSound, TaskSound;
    SameDb(s.db);
    hide Extends;
    SafeAfter(check, s, Become(s, t, task));
  }

  lemma SafeEnd(check: ProofCheck, s: State, t: nat)
    requires Safe(check, s)
    ensures Safe(check, End(s, t))
  {
    hide DbSound, TaskSound;
    SameDb(s.db);
    hide Extends;
    SafeAfter(check, s, End(s, t));
  }

  /** Other fields do not matter. */
  lemma SafeElsewhere(check: ProofCheck, s: State, book: Book, conns: Conns, phases: map<int, Phase>,
                      completed: set<int>)
    requires Safe(check, s)
    ensures Safe(check, s.(book := book, conns := conns, phases := phases, mem := s.mem.(completed := completed)))
  {
    hide DbSound, TaskSound;
  }

  lemma VerifySafe(check: ProofCheck, s: State, t: nat, lookupOk: bool)
    requires Safe(check, s) && t in s.tasks && s.tasks[t].JudgeResult?
    ensures Safe(check, VerifyStep(check, s, t, lookupOk))
  {
    hide DbSound, TasksSound, SplitOnce, MemorySound, Accepts, Prepared;
    var JudgeResult(w, userId, res) := s.tasks[t];
    match Judge(check, s.db, res, lookupOk)
    case Dropped => SafeEnd(check, s, t);
    case Rejected(why) => SafeBecome(check, s, t, Penalise(userId, res.jobId, res.shardId, why));
    case SatProved(a) => SafeBecome(check, s, t, StoreSat(w, res.jobId, res.shardId, a));
    case UnsatProved(d) => SafeBecome(check, s, t, CountUnsat(w, res.jobId, res.shardId, d));
  }

  // ---- What a goroutine knows ----

  lemma KnownSat(check: ProofCheck, s: State, t: nat)
    requires Safe(check, s) && t in s.tasks && s.tasks[t].StoreSat?
    ensures var StoreSat(_, j, id, a) := s.tasks[t];
            DbSound(check, s.db) && RowOf(s.db, j, id) && Accepts(s.db.jobs[j].file, s.db.shards[id].cube, a)
  {
    hide DbSound, Accepts, MemorySound, SplitOnce;
    assert TaskSound(check, s.db, s.tasks[t]);
  }

  lemma KnownUnsat(check: ProofCheck, s: State, t: nat)
    requires Safe(check, s) && t in s.tasks && s.tasks[t].CountUnsat?
    ensures var CountUnsat(_, j, id, d) := s.tasks[t];
            DbSound(check, s.db) && RowOf(s.db, j, id) && Evident(check, s.db, id, FoundUnsat(d))
  {
    hide DbSound, Evident, MemorySound, SplitOnce;
    assert TaskSound(check, s.db, s.tasks[t]);
  }

  lemma KnownAll(check: ProofCheck, s: State, t: nat)
    requires Safe(check, s) && t in s.tasks && s.tasks[t].FinishUnsat?
    ensures var FinishUnsat(_, j, id, d) := s.tasks[t];
            RowOf(s.db, j, id) && Evident(check, s.db, id, FoundUnsat(d)) && Refuted(check, s.db.jobs[j])
  {
    hide DbSound, Evident, Refuted, MemorySound, SplitOnce;
    assert TaskSound(check, s.db, s.tasks[t]);
  }

  lemma KnownCounts(check: ProofCheck, s: State, t: nat)
    requires Safe(check, s) && t in s.tasks && s.tasks[t].CommitUnsat?
    ensures var CommitUnsat(_, j, id, d, all) := s.tasks[t];
            DbSound(check, s.db) && RowOf(s.db, j, id) && Evident(check, s.db, id, FoundUnsat(d))
            && (all ==> Refuted(check, s.db.jobs[j]))
  {
    hide DbSound, Evident, Refuted, MemorySound, SplitOnce;
    assert TaskSound(check, s.db, s.tasks[t]);
  }

  lemma CountsKnown(check: ProofCheck, s: State, t: nat)
    requires Safe(check, s) && t in s.tasks && s.tasks[t].CountUnsat?
    requires AllRefuted(StoreUnsatShard(s.db, s.tasks[t].shardId, s.tasks[t].dratId), s.tasks[t].jobId)
    ensures Refuted(check, s.db.jobs[s.tasks[t].jobId])
  {
    KnownUnsat(check, s, t);
    hide Safe, DbSound, Evident, AllRefuted, CubesOf;
    var CountUnsat(_, j, id, d) := s.tasks[t];
    StoreFindingKeeps(check, s.db, id, FoundUnsat(d));
    CountsRefute(check, StoreUnsatShard(s.db, id, d), j);
    DecisionStable(check, s.db.jobs[j], StoreUnsatShard(s.db, id, d).jobs[j], JobUnsat);
  }

  lemma CountSafe(check: ProofCheck, s: State, t: nat)
    requires Safe(check, s) && t in s.tasks && s.tasks[t].CountUnsat?
    ensures Safe(check, CountStep(s, t))
  {
    hide Safe, AllRefuted, StoreUnsatShard, Become;
    var CountUnsat(w, j, id, d) := s.tasks[t];
    if AllRefuted(StoreUnsatShard(s.db, id, d), j) {
      CountedAll(check, s, t);
    } else {
      CountedSome(check, s, t);
    }
  }

  lemma CountedAll(check: ProofCheck, s: State, t: nat)
    requires Safe(check, s) && t in s.tasks && s.tasks[t].CountUnsat?
    requires AllRefuted(StoreUnsatShard(s.db, s.tasks[t].shardId, s.tasks[t].dratId), s.tasks[t].jobId)
    ensures var CountUnsat(w, j, id, d) := s.tasks[t]; Safe(check, Become(s, t, FinishUnsat(w, j, id, d)))
  {
    hide Safe, DbSound, Evident, AllRefuted, Refuted, StoreUnsatShard, Become;
    var CountUnsat(w, j, id, d) := s.tasks[t];
    KnownUnsat(check, s, t);
    CountsKnown(check, s, t);
    SafeBecome(check, s, t, FinishUnsat(w, j, id, d));
  }

  lemma CountedSome(check: ProofCheck, s: State, t: nat)
    requires Safe(check, s) && t in s.tasks && s.tasks[t].CountUnsat?
    ensures var CountUnsat(w, j, id, d) := s.tasks[t]; Safe(check, Become(s, t, CommitUnsat(w, j, id, d, false)))
  {
    hide Safe, DbSound, Evident, Become;
    var CountUnsat(w, j, id, d) := s.tasks[t];
    KnownUnsat(check, s, t);
    SafeBecome(check, s, t, CommitUnsat(w, j, id, d, false));
  }

  // ---- Steps that write the tables ----

  /** The tables are replaced by sound ones that extend them without new rows. */
  lemma SafeWrite(check: ProofCheck, s: State, db: Database)
    requires Safe(check, s) && DbSound(check, db) && Extends(s.db, db) && NoNewRows(s.db, db)
    ensures Safe(check, s.(db := db))
  {
    MemoryStable(s, db);
    hide DbSound, TaskSound, Extends, MemorySound;
    SafeAfter(check, s, s.(db := db));
  }

  /** ... and the goroutine that wrote them goes on to a step that needs no evidence. */
  lemma SafeWriteThen(check: ProofCheck, s: State, db: Database, t: nat, task: Task)
    requires Safe(check, s) && DbSound(check, db) && Extends(s.db, db) && NoNewRows(s.db, db)
    requires t in s.tasks && (task.FinishSat? || task.Reward?)
    ensures Safe(check, Become(s.(db := db), t, task))
  {
    hide Safe, DbSound, Extends, NoNewRows;
    SafeWrite(check, s, db);
    SafeBecome(check, s.(db := db), t, task);
  }

  lemma StoreSatNoNewRows(db: Database, j: int, id: int, a: seq<int>)
    ensures NoNewRows(db, StoreSatResult(db, j, id, a))
  {
  }

  lemma StoreUnsatNoNewRows(db: Database, j: int, id: int, d: int, all: bool)
    ensures NoNewRows(db, StoreUnsatResult(db, j, id, d, all))
  {
  }

  lemma CommitSatSafe(check: ProofCheck, s: State, t: nat, ok: bool)
    requires Safe(check, s) && t in s.tasks && s.tasks[t].StoreSat?
    ensures Safe(check, CommitSatStep(s, t, ok))
  {
    hide Safe, RowOf, StoreSatResult, Become, End;
    var StoreSat(w, j, id, a) := s.tasks[t];
    if ok && RowOf(s.db, j, id) {
      StoredSat(check, s, t);
    } else {
      SafeEnd(check, s, t);
    }
  }

  lemma StoredSat(check: ProofCheck, s: State, t: nat)
    requires Safe(check, s) && t in s.tasks && s.tasks[t].StoreSat?
    ensures var StoreSat(w, j, id, a) := s.tasks[t];
            Safe(check, Become(s.(db := StoreSatResult(s.db, j, id, a)), t, FinishSat(w, j, id)))
  {
    hide Safe, DbSound, Accepts, Extends, StoreSatResult, Become;
    var StoreSat(w, j, id, a) := s.tasks[t];
    KnownSat(check, s, t);
    StoreSatKeeps(check, s.db, j, id, a);
    StoreSatNoNewRows(s.db, j, id, a);
    SafeWriteThen(check, s, StoreSatResult(s.db, j, id, a), t, FinishSat(w, j, id));
  }

  lemma CommitSafe(check: ProofCheck, s: State, t: nat, ok: bool)
    requires Safe(check, s) && t in s.tasks && s.tasks[t].CommitUnsat?
    ensures Safe(check, CommitStep(s, t, ok))
  {
    hide Safe, RowOf, StoreUnsatResult, Become, End;
    var CommitUnsat(w, j, id, d, all) := s.tasks[t];
    if ok && RowOf(s.db, j, id) {
      StoredUnsat(check, s, t);
    } else {
      SafeEnd(check, s, t);
    }
  }

  lemma StoredUnsat(check: ProofCheck, s: State, t: nat)
    requires Safe(check, s) && t in s.tasks && s.tasks[t].CommitUnsat?
    ensures var CommitUnsat(w, j, id, d, all) := s.tasks[t];
            Safe(check, Become(s.(db := StoreUnsatResult(s.db, j, id, d, all)), t, Reward(w, j, id)))
  {
    hide Safe, DbSound, Evident, Refuted, Extends, StoreUnsatResult, Become;
    var CommitUnsat(w, j, id, d, all) := s.tasks[t];
    KnownCounts(check, s, t);
    StoreUnsatKeeps(check, s.db, j, id, d, all);
    StoreUnsatNoNewRows(s.db, j, id, d, all);
    SafeWriteThen(check, s, StoreUnsatResult(s.db, j, id, d, all), t, Reward(w, j, id));
  }

  lemma ReopenSafe(check: ProofCheck, s: State, t: nat, ok: bool)
    requires Safe(check, s) && t in s.tasks && s.tasks[t].Requeue?
    ensures Safe(check, ReopenStep(s, t, ok))
  {
    hide DbSound, TasksSound, SplitOnce, MemorySound, Extends;
    var id := s.tasks[t].shardId;
    if ok && id in s.db.shards {
      ShardStatusKeeps(check, s.db, id, Status.Pending);
      var db := SetShardStatus(s.db, id, Status.Pending);
      SafeWrite(check, s, db);
      var row := s.db.shards[id];
      SafeBecome(check, s.(db := db), t, Append([Shard(row.jobId, id, row.cube, 0)]));
    } else {
      SafeEnd(check, s, t);
    }
  }

  lemma StartedSafe(check: ProofCheck, s: State, t: nat, ok: bool)
    requires Safe(check, s) && Enabled(s, Started(t, ok))
    ensures Safe(check, Effect(check, s, Started(t, ok)))
  {
    hide DbSound, TasksSound, SplitOnce, MemorySound, Extends;
    if ok {
      ShardStatusKeeps(check, s.db, s.tasks[t].shardId, Status.Running);
      var db := SetShardStatus(s.db, s.tasks[t].shardId, Status.Running);
      SafeWrite(check, s, db);
      SafeEnd(check, s.(db := db), t);
    } else {
      SafeEnd(check, s, t);
    }
  }

  lemma RejectSafe(check: ProofCheck, s: State, t: nat, ok: bool)
    requires Safe(check, s) && Enabled(s, Reject(t, ok))
    ensures Safe(check, Effect(check, s, Reject(t, ok)))
  {
    hide DbSound, TasksSound, SplitOnce, MemorySound, Extends;
    var j := s.tasks[t].jobId;
    if ok {
      JobStatusKeeps(check, s.db, j, Status.Failed);
      var db := SetJobStatus(s.db, j, Status.Failed);
      SafeWrite(check, s, db);
      SafeBecome(check, s.(db := db), t, AbandonJob(j));
    } else {
      SafeBecome(check, s, t, AbandonJob(j));
    }
  }

  lemma UploadSafe(check: ProofCheck, s: State, j: int, u: int, upload: File, maxWorkers: int)
    requires Safe(check, s) && j !in s.db.jobs
    ensures Safe(check, UploadStep(s, j, u, upload, maxWorkers))
  {
    SafeParts(check, s);
    var row := JobRow(u, Normalised(upload), maxWorkers, Pending);
    hide Safe, DbSound, MemorySound, TasksSound, SplitOnce, Normalised, Spawn, PercentFree;
    NewJobKeeps(check, s.db, j, row);
    var db := s.db.(jobs := s.db.jobs[j := row]);
    hide Extends, NoNewRows;
    SafeWrite(check, s, db);
    NoRowsYet(check, s.db, j);
    SafeSpawnSplit(check, s.(db := db), j);
  }

  /** A new job's splitting goroutine. */
  lemma SafeSpawnSplit(check: ProofCheck, s: State, j: int)
    requires Safe(check, s) && j in s.db.jobs && NoRows(s.db, j)
    requires forall t :: t in s.tasks && s.tasks[t].SplitJob? ==> s.tasks[t].jobId != j
    ensures Safe(check, Spawn(s, SplitJob(j)))
  {
    hide DbSound;
  }

  lemma NoRowsYet(check: ProofCheck, db: Database, j: int)
    requires DbSound(check, db) && j !in db.jobs
    ensures NoRows(db, j)
  {
  }

  lemma OtherTasks(a: State, b: State)
    requires MemorySound(a) && b.db == a.db && b.mem == a.mem && b.lock == a.lock && b.owed == a.owed
    ensures MemorySound(b)
  {
  }

  lemma NewJobKeeps(check: ProofCheck, db: Database, j: int, row: JobRow)
    requires DbSound(check, db) && j !in db.jobs && PercentFree(row.file)
    ensures var b := db.(jobs := db.jobs[j := row]); DbSound(check, b) && Extends(db, b) && NoNewRows(db, b)
  {
    hide Evident, CubesOf, DecisionEvident, Valid, PercentFree;
    var b := db.(jobs := db.jobs[j := row]);
    assert Extends(db, b);
    ResultsStable(check, db, b);
    VerdictsStable(check, db, b);
    forall i | i in b.jobs ensures NoRows(b, i) || FullySplit(b, i) {
      if i != j && FullySplit(db, i) {
        var cubes := CubesOf(db.jobs[i]).value;
        forall k | 0 <= k < |cubes| ensures HasRow(b, i, cubes[k]) {
          assert HasRow(db, i, cubes[k]);
        }
      }
    }
  }

  lemma UploadProofSafe(check: ProofCheck, s: State, p: int, proof: Proof)
    requires Safe(check, s) && p !in s.db.proofs
    ensures Safe(check, s.(db := s.db.(proofs := s.db.proofs[p := proof])))
  {
    hide Evident, FullySplit, DecisionEvident, TaskSound;
    var b := s.db.(proofs := s.db.proofs[p := proof]);
    RowsSame(s.db, b);
    ResultsStable(check, s.db, b);
    VerdictsStable(check, s.db, b);
    hide RowsSound, ResultsSound, VerdictsSound;
    SafeWrite(check, s, b);
  }

  lemma InsertSafe(check: ProofCheck, s: State, t: nat, ids: seq<int>, ok: bool)
    requires Safe(check, s) && Enabled(s, Insert(t, ids, ok))
    ensures Safe(check, SplitStep(s, t, ids, ok))
  {
    var j := s.tasks[t].jobId;
    var cubes := CubesOf(s.db.jobs[j]);
    assert TaskSound(check, s.db, s.tasks[t]);
    hide CubesOf, Valid, Evident, DecisionEvident, FullySplit, Genuine, SplitOnce;
    if !Valid(s.db.jobs[j].file) {
      SafeBecome(check, s, t, RejectJob(j));
    } else if cubes.None? || !ok {
      SafeEnd(check, s, t);
    } else {
      InsertedSafe(check, s, t, ids);
    }
  }

  lemma InsertedSafe(check: ProofCheck, s: State, t: nat, ids: seq<int>)
    requires Safe(check, s) && Enabled(s, Insert(t, ids, true)) && Valid(s.db.jobs[s.tasks[t].jobId].file)
    requires CubesOf(s.db.jobs[s.tasks[t].jobId]).Some? && NoRows(s.db, s.tasks[t].jobId)
    ensures Safe(check, SplitStep(s, t, ids, true))
  {
    hide CubesOf, Valid, DbSound, TasksSound, SplitOnce, NoRows;
    var j := s.tasks[t].jobId;
    var cubes := CubesOf(s.db.jobs[j]).value;
    InsertKeeps(check, s.db, j, ids);
    var db := InsertShards(s.db, j, ids, cubes);
    Inserted(s.db, j, ids, cubes);
    hide InsertShards;
    MemoryStable(s, db);
    hide Safe, MemorySound;
    SplitTasksSafe(check, s, t, ids, db);
  }

  lemma SplitTasksSafe(check: ProofCheck, s: State, t: nat, ids: seq<int>, db: Database)
    requires Safe(check, s) && Enabled(s, Insert(t, ids, true)) && CubesOf(s.db.jobs[s.tasks[t].jobId]).Some?
    requires DbSound(check, db) && Extends(s.db, db) && MemorySound(s.(db := db))
    requires forall id :: id in db.shards ==>
               id in s.db.shards || (id in ids && db.shards[id].jobId == s.tasks[t].jobId)
    requires forall i :: 0 <= i < |ids| ==>
               ids[i] in db.shards && db.shards[ids[i]]
                 == ShardRow(s.tasks[t].jobId, CubesOf(s.db.jobs[s.tasks[t].jobId]).value[i], Status.Pending)
    ensures Safe(check, Become(s.(db := db), t,
                               Append(NewShards(s.tasks[t].jobId, ids, CubesOf(s.db.jobs[s.tasks[t].jobId]).value))))
  {
    hide DbSound, CubesOf;
    var j := s.tasks[t].jobId;
    var shs := NewShards(j, ids, CubesOf(s.db.jobs[j]).value);
    var s' := Become(s.(db := db), t, Append(shs));
    forall u | u in s'.tasks ensures TaskSound(check, db, s'.tasks[u]) {
      if u == t {
        assert AllGenuine(db, shs);
      } else {
        assert TaskSound(check, s.db, s.tasks[u]);
        if s.tasks[u].SplitJob? {
          assert s.tasks[u].jobId != j;
          forall id | id in db.shards ensures db.shards[id].jobId != s.tasks[u].jobId {
          }
        }
        TaskStable(check, s.db, db, s.tasks[u]);
      }
    }
    OtherTasks(s.(db := db), s');
  }

  // ---- All steps ----

  lemma StepSafe(check: ProofCheck, s: State, e: Event)
    requires Safe(check, s) && Enabled(s, e)
    ensures Safe(check, Effect(check, s, e))
  {
    hide Safe, SendStep, PickStep, ReceiveStep, DisconnectStep, VerifyStep, PunishStep, CommitSatStep, FinishStep,
         CountStep,
         CommitStep, ReopenStep, SplitStep;
    match e
    case Restart => RestartSafe(check, s);
    case SignUp(_) => LightSafe(check, s, e);
    case Pay(_, _) => LightSafe(check, s, e);
    case Upload(j, u, upload, maxWorkers) => UploadSafe(check, s, j, u, upload, maxWorkers);
    case UploadProof(p, proof) => UploadProofSafe(check, s, p, proof);
    case Insert(t, ids, ok) => InsertSafe(check, s, t, ids, ok);
    case Reject(t, ok) => RejectSafe(check, s, t, ok);
    case Abandon(t) => AbandonSafe(check, s, t);
    case Queue(t) => QueueSafe(check, s, t);
    case Connect(_) => LightSafe(check, s, e);
    case Register(_) => LightSafe(check, s, e);
    case Unregister(_) => LightSafe(check, s, e);
    case Disconnect(w) => DisconnectSafe(check, s, w);
    case Receive(w, res) => ReceiveSafe(check, s, w, res);
    case Verify(t, lookupOk) => VerifySafe(check, s, t, lookupOk);
    case Punish(t, ok) => PunishSafe(check, s, t, ok);
    case CommitSat(t, ok) => CommitSatSafe(check, s, t, ok);
    case Finish(t) => FinishSafe(check, s, t);
    case Count(t) => CountSafe(check, s, t);
    case Commit(t, ok) => CommitSafe(check, s, t, ok);
    case Reopen(t, ok) => ReopenSafe(check, s, t, ok);
    case Pick(w, readable) => PickSafe(check, s, w, readable);
    case Send(ok) => SendSafe(check, s, ok);
    case Started(t, ok) => StartedSafe(check, s, t, ok);
    case Resolve(t) => ResolveSafe(check, s, t);
    case Settle(t, ok) => SettleSafe(check, s, t, ok);
  }

  lemma RestartSafe(check: ProofCheck, s: State)
    requires Safe(check, s)
    ensures Safe(check, Effect(check, s, Restart))
  {
    hide DbSound;
  }

  lemma LightSafe(check: ProofCheck, s: State, e: Event)
    requires Safe(check, s) && Enabled(s, e)
    requires e.SignUp? || e.Pay? || e.Connect? || e.Register? || e.Unregister?
    ensures Safe(check, Effect(check, s, e))
  {
    hide Safe, Change;
    var s' := Effect(check, s, e);
    SafeElsewhere(check, s, s'.book, s'.conns, s'.phases, s.mem.completed);
  }

  lemma AbandonSafe(check: ProofCheck, s: State, t: nat)
    requires Safe(check, s) && Enabled(s, Abandon(t))
    ensures Safe(check, Effect(check, s, Abandon(t)))
  {
    hide Safe;
    SafeElsewhere(check, s, s.book, s.conns, s.phases, s.mem.completed + {s.tasks[t].jobId});
    SafeEnd(check, MarkComplete(s, s.tasks[t].jobId), t);
  }

  lemma PunishSafe(check: ProofCheck, s: State, t: nat, ok: bool)
    requires Safe(check, s) && Enabled(s, Punish(t, ok))
    ensures Safe(check, Effect(check, s, Punish(t, ok)))
  {
    hide Safe, Change;
    var s' := PunishStep(s, t, ok);
    SafeBecome(check, s, t, Requeue(s.tasks[t].shardId));
    SafeElsewhere(check, Become(s, t, Requeue(s.tasks[t].shardId)), s'.book, s.conns, s.phases, s.mem.completed);
  }

  lemma ResolveSafe(check: ProofCheck, s: State, t: nat)
    requires Safe(check, s) && Enabled(s, Resolve(t))
    ensures Safe(check, Effect(check, s, Resolve(t)))
  {
    hide Safe, Become, End;
    var Reward(w, j, id) := s.tasks[t];
    SafeEnd(check, s, t);
    if w in s.conns.users {
      SafeBecome(check, s, t, Payout(w, s.conns.users[w], j, id));
    }
  }

  lemma SettleSafe(check: ProofCheck, s: State, t: nat, ok: bool)
    requires Safe(check, s) && Enabled(s, Settle(t, ok))
    ensures Safe(check, Effect(check, s, Settle(t, ok)))
  {
    hide Safe, PayReward;
    var s' := Effect(check, s, Settle(t, ok));
    SafeEnd(check, s, t);
    SafeElsewhere(check, End(s, t), s'.book, s.conns, s.phases, s.mem.completed);
  }

  lemma QueueSafe(check: ProofCheck, s: State, t: nat)
    requires Safe(check, s) && Enabled(s, Queue(t))
    ensures Safe(check, Effect(check, s, Queue(t)))
  {
    assert TaskSound(check, s.db, s.tasks[t]);
    hide DbSound;
    var s1 := WithQueue(s, s.mem.pending + s.tasks[t].shards);
    assert MemorySound(s1);
    hide TasksSound, MemorySound;
    SafeMove(check, s, s1);
    SafeEnd(check, s1, t);
  }

  lemma FinishSafe(check: ProofCheck, s: State, t: nat)
    requires Safe(check, s) && t in s.tasks && (s.tasks[t].FinishSat? || s.tasks[t].FinishUnsat?)
    ensures Safe(check, FinishStep(s, t))
  {
    hide Safe, Evident, Refuted, Become;
    SafeElsewhere(check, s, s.book, s.conns, s.phases, s.mem.completed + {s.tasks[t].jobId});
    var s1 := MarkComplete(s, s.tasks[t].jobId);
    match s.tasks[t]
    case FinishSat(w, j, id) => SafeBecome(check, s1, t, Reward(w, j, id));
    case FinishUnsat(w, j, id, d) =>
      KnownAll(check, s, t);
      SafeBecome(check, s1, t, CommitUnsat(w, j, id, d, true));
  }

  /** Every state of every run is safe. */
  lemma {:induction false} RunSafe(check: ProofCheck, states: seq<State>, events: seq<Event>, i: nat)
    requires Run(check, states, events) && i < |states|
    ensures Safe(check, states[i])
  {
    hide Effect, Enabled;
    if i == 0 {
      InitSafe(check);
    } else {
      RunSafe(check, states, events, i - 1);
      assert Step(check, states[i - 1], events[i - 1], states[i]);
      StepSafe(check, states[i - 1], events[i - 1]);
    }
  }

  lemma InitSafe(check: ProofCheck)
    ensures Safe(check, INIT)
  {
  }
}
