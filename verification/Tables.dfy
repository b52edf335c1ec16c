/** The job tables, the transactions on them, and the judgement of a worker's result. */
module Tables {
  import opened GoText
  import opened Cnf
  import opened Dimacs
  import opened CubeApply
  import opened Cubes
  import opened VerifySat
  import opened Kissat

  /** The contents of a DRAT file. */
  type Proof = string

  /** drat-trim: whether it accepts a proof for a CNF file. */
  type ProofCheck = (File, Proof) -> bool

  datatype Status = Pending | Running | Completed | Failed

  datatype JobRow = JobRow(userId: int, file: File, maxWorkers: int, status: Status)
  datatype ShardRow = ShardRow(jobId: int, cube: seq<int>, status: Status)

  /** A shard_results row; only verified ones are ever written. */
  datatype Finding = FoundSat(assignment: seq<int>) | FoundUnsat(dratId: int)

  /** A job_results row. */
  datatype Decision = JobSat(assignment: seq<int>) | JobUnsat

  datatype Database = Database(
    jobs: map<int, JobRow>,
    shards: map<int, ShardRow>,
    results: map<int, Finding>,
    verdicts: map<int, Decision>,
    proofs: map<int, Proof>)

  /** A shard in the scheduler's memory; `userId` is 0 until a worker is assigned. */
  datatype Shard = Shard(jobId: int, shardId: int, cube: seq<int>, userId: int)

  /** A worker's JobResult message. */
  datatype Result = Result(jobId: int, shardId: int, sat: bool, info: string)

  // ---- Statements ----

  function SetShardStatus(db: Database, shardId: int, status: Status): Database {
    if shardId in db.shards then
      db.(shards := db.shards[shardId := db.shards[shardId].(status := status)])
    else db
  }

  function SetJobStatus(db: Database, jobId: int, status: Status): Database {
    if jobId in db.jobs then
      db.(jobs := db.jobs[jobId := db.jobs[jobId].(status := status)])
    else db
  }

  /** INSERT ... ON CONFLICT (job_id) DO NOTHING. */
  function DecideOnce(db: Database, jobId: int, decision: Decision): Database {
    if jobId in db.verdicts then db else db.(verdicts := db.verdicts[jobId := decision])
  }

  function Workers(maxWorkers: int): int {
    if maxWorkers <= 0 then 1 else maxWorkers
  }

  /** The cubes a job is split into. */
  function CubesOf(job: JobRow): Option<seq<seq<int>>> {
    Split(job.file, Workers(job.maxWorkers))
  }

  /** Rows of one job's shards, under the ids the database hands out. */
  function InsertShards(db: Database, jobId: int, ids: seq<int>, cubes: seq<seq<int>>): Database
    requires |ids| == |cubes|
  {
    if ids == [] then db
    else
      var n := |ids| - 1;
      var rest := InsertShards(db, jobId, ids[..n], cubes[..n]);
      rest.(shards := rest.shards[ids[n] := ShardRow(jobId, cubes[n], Pending)])
  }

  function NewShards(jobId: int, ids: seq<int>, cubes: seq<seq<int>>): (shs: seq<Shard>)
    requires |ids| == |cubes|
    ensures |shs| == |ids|
    ensures forall i :: 0 <= i < |ids| ==> shs[i] == Shard(jobId, ids[i], cubes[i], 0)
  {
    seq(|ids|, i requires 0 <= i < |ids| => Shard(jobId, ids[i], cubes[i], 0))
  }

  // ---- Transactions ----

  /** The shard row belongs to the job: what the handlers look up before they verify. */
  predicate RowOf(db: Database, jobId: int, shardId: int) {
    jobId in db.jobs && shardId in db.shards && db.shards[shardId].jobId == jobId
  }

  /** A verified model: result, shard, verdict and job in one transaction. */
  function StoreSatResult(db: Database, jobId: int, shardId: int, assignment: seq<int>): Database {
    var db1 := db.(results := db.results[shardId := FoundSat(assignment)]);
    var db2 := SetShardStatus(db1, shardId, Completed);
    SetJobStatus(DecideOnce(db2, jobId, JobSat(assignment)), jobId, Completed)
  }

  /** The first writes of the UNSAT transaction: result and shard. */
  function StoreUnsatShard(db: Database, shardId: int, dratId: int): Database {
    SetShardStatus(db.(results := db.results[shardId := FoundUnsat(dratId)]), shardId, Completed)
  }

  function ShardsOf(db: Database, jobId: int): set<int> {
    set id | id in db.shards && db.shards[id].jobId == jobId
  }

  function CompletedOf(db: Database, jobId: int): set<int> {
    set id | id in db.shards && db.shards[id].jobId == jobId && db.shards[id].status == Completed
  }

  function SatOf(db: Database, jobId: int): set<int> {
    set id | id in db.results && id in db.shards && db.shards[id].jobId == jobId && db.results[id].FoundSat?
  }

  /** The three counts: there are shards, all are completed, none is SAT. */
  predicate AllRefuted(db: Database, jobId: int) {
    var total, completed, sat := |ShardsOf(db, jobId)|, |CompletedOf(db, jobId)|, |SatOf(db, jobId)|;
    total > 0 && completed == total && sat == 0
  }

  /** The whole UNSAT transaction, given what the counts said. */
  function StoreUnsatResult(db: Database, jobId: int, shardId: int, dratId: int, all: bool): Database {
    var db1 := StoreUnsatShard(db, shardId, dratId);
    if all then SetJobStatus(DecideOnce(db1, jobId, JobUnsat), jobId, Completed) else db1
  }

  // ---- Judging a result ----

  datatype Judgement =
    | Dropped                             // a failed lookup: the server's fault
    | Rejected(why: string)               // penalty and re-enqueue
    | SatProved(assignment: seq<int>)
    | UnsatProved(dratId: int)

  function JudgeSat(db: Database, res: Result, lookupOk: bool): Judgement {
    var a := ParsedAssignment(res.info);
    if a.None? then Rejected("invalid_sat_assignment_parse")
    else if !lookupOk || !RowOf(db, res.jobId, res.shardId) then Dropped
    else if !Accepts(db.jobs[res.jobId].file, db.shards[res.shardId].cube, a.value) then
      Rejected("invalid_sat_assignment_unsatisfied")
    else SatProved(a.value)
  }

  function JudgeUnsat(check: ProofCheck, db: Database, res: Result, lookupOk: bool): Judgement {
    var s := TrimSpace(res.info);
    if s == "" then Rejected("unsat_missing_drat_id")
    else
      var id := Atoi(s);
      if id.None? then Rejected("unsat_invalid_drat_id")
      else if !lookupOk then Dropped
      else if id.value !in db.proofs then Rejected("unsat_drat_file_not_found")
      else if !RowOf(db, res.jobId, res.shardId) then Dropped
      else if !check(Prepared(db.jobs[res.jobId].file, db.shards[res.shardId].cube), db.proofs[id.value]) then
        Rejected("invalid_drat_proof")
      else UnsatProved(id.value)
  }

  function Judge(check: ProofCheck, db: Database, res: Result, lookupOk: bool): Judgement {
    if res.sat then JudgeSat(db, res, lookupOk) else JudgeUnsat(check, db, res, lookupOk)
  }

  // ---- What a sound database looks like ----

  /** The evidence behind a stored finding. */
  predicate Evident(check: ProofCheck, db: Database, shardId: int, finding: Finding) {
    && shardId in db.shards && db.shards[shardId].jobId in db.jobs
    && var file, cube := db.jobs[db.shards[shardId].jobId].file, db.shards[shardId].cube;
       match finding
       case FoundSat(a) => Accepts(file, cube, a)
       case FoundUnsat(d) => d in db.proofs && check(Prepared(file, cube), db.proofs[d])
  }

  ghost predicate HasProof(check: ProofCheck, file: File, cube: seq<int>) {
    exists p: Proof :: check(Prepared(file, cube), p)
  }

  /** Every cube of the job's split was refuted by some proof. */
  ghost predicate Refuted(check: ProofCheck, job: JobRow) {
    && CubesOf(job).Some?
    && forall k :: 0 <= k < |CubesOf(job).value| ==> HasProof(check, job.file, CubesOf(job).value[k])
  }

  ghost predicate DecisionEvident(check: ProofCheck, job: JobRow, decision: Decision) {
    && Valid(job.file) && PercentFree(job.file)
    && match decision
    case JobSat(a) =>
      CubesOf(job).Some? && exists k :: 0 <= k < |CubesOf(job).value| && Accepts(job.file, CubesOf(job).value[k], a)
    case JobUnsat => Refuted(check, job)
  }

  predicate NoRows(db: Database, jobId: int) {
    forall id :: id in db.shards ==> db.shards[id].jobId != jobId
  }

  ghost predicate HasRow(db: Database, jobId: int, cube: seq<int>) {
    exists id :: id in db.shards && db.shards[id].jobId == jobId && db.shards[id].cube == cube
  }

  /** A valid job's shard rows are exactly its split, each cube once. */
  ghost predicate FullySplit(db: Database, jobId: int) {
    && jobId in db.jobs && Valid(db.jobs[jobId].file)
    && CubesOf(db.jobs[jobId]).Some?
    && (forall k :: 0 <= k < |CubesOf(db.jobs[jobId]).value| ==> HasRow(db, jobId, CubesOf(db.jobs[jobId]).value[k]))
    && (forall id :: id in db.shards && db.shards[id].jobId == jobId ==>
          db.shards[id].cube in CubesOf(db.jobs[jobId]).value)
    && (forall i, j :: i in db.shards && j in db.shards && i != j && db.shards[i].jobId == jobId == db.shards[j].jobId
          ==> db.shards[i].cube != db.shards[j].cube)
  }

  /** Every shard belongs to a job, and every job is split all or not at all. Uploads were
      normalised when they were stored. */
  ghost predicate RowsSound(db: Database) {
    && (forall j :: j in db.jobs ==> PercentFree(db.jobs[j].file))
    && (forall id :: id in db.shards ==> db.shards[id].jobId in db.jobs)
    && (forall j :: j in db.jobs ==> NoRows(db, j) || FullySplit(db, j))
  }

  ghost predicate ResultsSound(check: ProofCheck, db: Database) {
    forall id :: id in db.results ==> Evident(check, db, id, db.results[id])
  }

  /** A completed shard has a verified result. */
  ghost predicate StatusSound(db: Database) {
    forall id :: id in db.shards && db.shards[id].status == Completed ==> id in db.results
  }

  ghost predicate VerdictsSound(check: ProofCheck, db: Database) {
    forall j :: j in db.verdicts ==> j in db.jobs && DecisionEvident(check, db.jobs[j], db.verdicts[j])
  }

  ghost predicate DbSound(check: ProofCheck, db: Database) {
    RowsSound(db) && ResultsSound(check, db) && StatusSound(db) && VerdictsSound(check, db)
  }

  // ---- What no transaction takes back ----

  predicate SameJob(a: JobRow, b: JobRow) {
    a.userId == b.userId && a.file == b.file && a.maxWorkers == b.maxWorkers
  }

  predicate SameShard(a: ShardRow, b: ShardRow) {
    a.jobId == b.jobId && a.cube == b.cube
  }

  ghost predicate Extends(before: Database, after: Database) {
    && (forall j :: j in before.jobs ==> j in after.jobs && SameJob(before.jobs[j], after.jobs[j]))
    && (forall id :: id in before.shards ==> id in after.shards && SameShard(before.shards[id], after.shards[id]))
    && (forall p :: p in before.proofs ==> p in after.proofs && after.proofs[p] == before.proofs[p])
    && (forall id :: id in before.results ==> id in after.results)
    && (forall j :: j in before.verdicts ==> j in after.verdicts && after.verdicts[j] == before.verdicts[j])
  }
}
