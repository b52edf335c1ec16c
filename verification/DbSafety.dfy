/** Every transaction keeps the job tables sound, and none takes back what was stored. */
module DbSafety {
  import opened GoText
  import opened Dimacs
  import opened CubeApply
  import opened Cubes
  import opened VerifySat
  import opened Tables

  /** Same jobs and shards up to their statuses. */
  ghost predicate SameRows(a: Database, b: Database) {
    && (forall j :: j in a.jobs <==> j in b.jobs) && (forall id :: id in a.shards <==> id in b.shards)
    && (forall j :: j in a.jobs ==> SameJob(a.jobs[j], b.jobs[j]))
    && (forall id :: id in a.shards ==> SameShard(a.shards[id], b.shards[id]))
  }

  lemma ExtendsTransitive(a: Database, b: Database, c: Database)
    requires Extends(a, b) && Extends(b, c)
    ensures Extends(a, c)
  {
  }

  lemma SameCubes(a: JobRow, b: JobRow)
    requires SameJob(a, b)
    ensures CubesOf(a) == CubesOf(b)
  {
    hide Split;
  }

  lemma FullySplitSame(a: Database, b: Database, j: int)
    requires SameRows(a, b) && j in a.jobs && FullySplit(a, j)
    ensures FullySplit(b, j)
  {
    hide CubesOf, Valid;
    SameCubes(a.jobs[j], b.jobs[j]);
    var cubes := CubesOf(a.jobs[j]).value;
    forall k | 0 <= k < |cubes| ensures HasRow(b, j, cubes[k]) {
      assert HasRow(a, j, cubes[k]);
      var id :| id in a.shards && a.shards[id].jobId == j && a.shards[id].cube == cubes[k];
      assert id in b.shards && SameShard(a.shards[id], b.shards[id]);
    }
  }

  lemma RowsSame(a: Database, b: Database)
    requires SameRows(a, b) && RowsSound(a)
    ensures RowsSound(b)
  {
    hide FullySplit;
    forall j | j in b.jobs ensures NoRows(b, j) || FullySplit(b, j) {
      if FullySplit(a, j) {
        FullySplitSame(a, b, j);
      }
    }
  }

  lemma EvidentStable(check: ProofCheck, a: Database, b: Database, id: int, finding: Finding)
    requires Extends(a, b) && Evident(check, a, id, finding)
    ensures Evident(check, b, id, finding)
  {
    hide Accepts, Prepared;
  }

  lemma DecisionStable(check: ProofCheck, a: JobRow, b: JobRow, decision: Decision)
    requires SameJob(a, b)
    ensures DecisionEvident(check, a, decision) <==> DecisionEvident(check, b, decision)
    ensures Refuted(check, a) <==> Refuted(check, b)
  {
    hide CubesOf, Accepts, HasProof, Valid;
    SameCubes(a, b);
  }

  lemma VerdictsStable(check: ProofCheck, a: Database, b: Database)
    requires VerdictsSound(check, a) && Extends(a, b) && b.verdicts == a.verdicts
    ensures VerdictsSound(check, b)
  {
    hide DecisionEvident;
    forall j | j in b.verdicts ensures j in b.jobs && DecisionEvident(check, b.jobs[j], b.verdicts[j]) {
      DecisionStable(check, a.jobs[j], b.jobs[j], a.verdicts[j]);
    }
  }

  lemma ResultsStable(check: ProofCheck, a: Database, b: Database)
    requires ResultsSound(check, a) && Extends(a, b)
    requires forall id :: id in b.results ==>
               Evident(check, b, id, b.results[id]) || (id in a.results && b.results[id] == a.results[id])
    ensures ResultsSound(check, b)
  {
    hide Evident;
    forall id | id in b.results ensures Evident(check, b, id, b.results[id]) {
      if id in a.results && b.results[id] == a.results[id] {
        EvidentStable(check, a, b, id, a.results[id]);
      }
    }
  }

  // ---- Statuses ----

  /** Marking a shard 'running' or 'pending', or moving a job's status. */
  lemma ShardStatusKeeps(check: ProofCheck, db: Database, id: int, status: Status)
    requires DbSound(check, db) && status != Completed
    ensures DbSound(check, SetShardStatus(db, id, status)) && Extends(db, SetShardStatus(db, id, status))
  {
    hide Evident, FullySplit, DecisionEvident;
    var b := SetShardStatus(db, id, status);
    RowsSame(db, b);
    ResultsStable(check, db, b);
    VerdictsStable(check, db, b);
  }

  lemma JobStatusKeeps(check: ProofCheck, db: Database, j: int, status: Status)
    requires DbSound(check, db)
    ensures DbSound(check, SetJobStatus(db, j, status)) && Extends(db, SetJobStatus(db, j, status))
  {
    hide Evident, FullySplit, DecisionEvident;
    var b := SetJobStatus(db, j, status);
    RowsSame(db, b);
    ResultsStable(check, db, b);
    VerdictsStable(check, db, b);
  }

  lemma DecideKeeps(check: ProofCheck, db: Database, j: int, decision: Decision)
    requires DbSound(check, db) && j in db.jobs && DecisionEvident(check, db.jobs[j], decision)
    ensures DbSound(check, DecideOnce(db, j, decision)) && Extends(db, DecideOnce(db, j, decision))
  {
    hide Evident, FullySplit, DecisionEvident;
    var b := DecideOnce(db, j, decision);
    RowsSame(db, b);
    ResultsStable(check, db, b);
  }

  // ---- Results ----

  /** Storing a finding with its evidence and completing the shard. */
  lemma StoreFindingKeeps(check: ProofCheck, db: Database, id: int, finding: Finding)
    requires DbSound(check, db) && Evident(check, db, id, finding)
    ensures var b := SetShardStatus(db.(results := db.results[id := finding]), id, Completed);
            DbSound(check, b) && Extends(db, b)
  {
    var b := SetShardStatus(db.(results := db.results[id := finding]), id, Completed);
    hide Evident, FullySplit, DecisionEvident, RowsSound;
    CompletingKeepsRows(db, id, finding);
    EvidentStable(check, db, b, id, finding);
    RowsSame(db, b);
    ResultsStable(check, db, b);
    VerdictsStable(check, db, b);
  }

  lemma CompletingKeepsRows(db: Database, id: int, finding: Finding)
    ensures var b := SetShardStatus(db.(results := db.results[id := finding]), id, Completed);
            Extends(db, b) && SameRows(db, b)
  {
  }

  lemma CubeIsInSplit(db: Database, id: int)
    requires RowsSound(db) && id in db.shards
    ensures var job := db.jobs[db.shards[id].jobId];
            CubesOf(job).Some? && db.shards[id].cube in CubesOf(job).value
            && Valid(job.file) && PercentFree(job.file)
  {
    hide CubesOf, Valid;
  }

  lemma StoreSatKeeps(check: ProofCheck, db: Database, jobId: int, shardId: int, assignment: seq<int>)
    requires DbSound(check, db) && RowOf(db, jobId, shardId)
    requires Accepts(db.jobs[jobId].file, db.shards[shardId].cube, assignment)
    ensures DbSound(check, StoreSatResult(db, jobId, shardId, assignment))
    ensures Extends(db, StoreSatResult(db, jobId, shardId, assignment))
  {
    hide Accepts, CubesOf, DbSound, Extends, Valid;
    var db2 := SetShardStatus(db.(results := db.results[shardId := FoundSat(assignment)]), shardId, Completed);
    StoreFindingKeeps(check, db, shardId, FoundSat(assignment));
    assert RowsSound(db) by { SoundRows(check, db); }
    CubeIsInSplit(db, shardId);
    var job := db2.jobs[jobId];
    assert DecisionEvident(check, job, JobSat(assignment));
    DecideKeeps(check, db2, jobId, JobSat(assignment));
    var db3 := DecideOnce(db2, jobId, JobSat(assignment));
    JobStatusKeeps(check, db3, jobId, Completed);
    ExtendsTransitive(db, db2, db3);
    ExtendsTransitive(db, db3, SetJobStatus(db3, jobId, Completed));
  }

  lemma SoundRows(check: ProofCheck, db: Database)
    requires DbSound(check, db)
    ensures RowsSound(db) && ResultsSound(check, db) && StatusSound(db) && VerdictsSound(check, db)
  {
  }

  // ---- The UNSAT counts ----

  lemma EqualCounts(a: set<int>, b: set<int>)
    requires a <= b && |a| == |b|
    ensures a == b
  {
    assert b == a + (b - a);
    assert |b - a| == 0;
  }

  /** The three counts say that every shard of the job is completed and none is SAT. */
  lemma CountsSayAll(db: Database, jobId: int)
    ensures AllRefuted(db, jobId)
       <==> (exists id :: id in db.shards && db.shards[id].jobId == jobId)
            && (forall id :: id in db.shards && db.shards[id].jobId == jobId ==>
                  db.shards[id].status == Completed && !(id in db.results && db.results[id].FoundSat?))
  {
    var total, completed, sat := ShardsOf(db, jobId), CompletedOf(db, jobId), SatOf(db, jobId);
    if AllRefuted(db, jobId) {
      EqualCounts(completed, total);
      assert sat == {};
      assert total != {};
      forall id | id in db.shards && db.shards[id].jobId == jobId
        ensures db.shards[id].status == Completed && !(id in db.results && db.results[id].FoundSat?)
      {
        assert id in completed && id !in sat;
      }
    }
    if (exists id :: id in db.shards && db.shards[id].jobId == jobId)
       && (forall id :: id in db.shards && db.shards[id].jobId == jobId ==>
             db.shards[id].status == Completed && !(id in db.results && db.results[id].FoundSat?)) {
      var id :| id in db.shards && db.shards[id].jobId == jobId;
      assert id in total;
      assert completed == total && sat == {};
    }
  }

  /** When the counts pass after a sound UNSAT result, every cube of the job was refuted. */
  lemma CountsRefute(check: ProofCheck, db: Database, jobId: int)
    requires DbSound(check, db) && jobId in db.jobs && AllRefuted(db, jobId)
    ensures Refuted(check, db.jobs[jobId])
  {
    hide Accepts, Prepared, CubesOf, AllRefuted;
    CountsSayAll(db, jobId);
    var job := db.jobs[jobId];
    assert !NoRows(db, jobId);
    var cubes := CubesOf(job).value;
    forall k | 0 <= k < |cubes| ensures HasProof(check, job.file, cubes[k]) {
      var id :| id in db.shards && db.shards[id].jobId == jobId && db.shards[id].cube == cubes[k];
      assert Evident(check, db, id, db.results[id]);
      assert check(Prepared(job.file, cubes[k]), db.proofs[db.results[id].dratId]);
    }
  }

  lemma StoreUnsatKeeps(check: ProofCheck, db: Database, jobId: int, shardId: int, dratId: int, all: bool)
    requires DbSound(check, db) && RowOf(db, jobId, shardId) && Evident(check, db, shardId, FoundUnsat(dratId))
    requires all ==> Refuted(check, db.jobs[jobId])
    ensures DbSound(check, StoreUnsatResult(db, jobId, shardId, dratId, all))
    ensures Extends(db, StoreUnsatResult(db, jobId, shardId, dratId, all))
  {
    hide Evident, Accepts, CubesOf, DbSound, Refuted, Valid;
    var db1 := StoreUnsatShard(db, shardId, dratId);
    StoreFindingKeeps(check, db, shardId, FoundUnsat(dratId));
    if all {
      assert RowsSound(db) by { SoundRows(check, db); }
      CubeIsInSplit(db, shardId);
      DecisionStable(check, db.jobs[jobId], db1.jobs[jobId], JobUnsat);
      DecideKeeps(check, db1, jobId, JobUnsat);
      var db2 := DecideOnce(db1, jobId, JobUnsat);
      JobStatusKeeps(check, db2, jobId, Completed);
      ExtendsTransitive(db, db1, db2);
      ExtendsTransitive(db, db2, SetJobStatus(db2, jobId, Completed));
    }
  }

  // ---- New rows ----

  predicate Distinct(ids: seq<int>) {
    forall i, j :: 0 <= i < j < |ids| ==> ids[i] != ids[j]
  }

  lemma {:induction false} InsertedKeys(db: Database, jobId: int, ids: seq<int>, cubes: seq<seq<int>>)
    requires |ids| == |cubes|
    ensures var b := InsertShards(db, jobId, ids, cubes);
            && b == db.(shards := b.shards)
            && (forall id :: id in b.shards <==> id in db.shards || id in ids)
            && (forall id :: id in db.shards && id !in ids ==> b.shards[id] == db.shards[id])
  {
    if ids != [] {
      var n := |ids| - 1;
      InsertedKeys(db, jobId, ids[..n], cubes[..n]);
      assert ids == ids[..n] + [ids[n]];
    }
  }

  lemma {:induction false} InsertedRow(db: Database, jobId: int, ids: seq<int>, cubes: seq<seq<int>>, i: nat)
    requires |ids| == |cubes| && Distinct(ids) && i < |ids|
    ensures var b := InsertShards(db, jobId, ids, cubes);
            ids[i] in b.shards && b.shards[ids[i]] == ShardRow(jobId, cubes[i], Pending)
    decreases |ids|
  {
    var n := |ids| - 1;
    if i < n {
      InsertedRow(db, jobId, ids[..n], cubes[..n], i);
    }
  }

  lemma Inserted(db: Database, jobId: int, ids: seq<int>, cubes: seq<seq<int>>)
    requires |ids| == |cubes| && Distinct(ids)
    ensures var b := InsertShards(db, jobId, ids, cubes);
            && b == db.(shards := b.shards)
            && (forall id :: id in b.shards <==> id in db.shards || id in ids)
            && (forall id :: id in db.shards && id !in ids ==> b.shards[id] == db.shards[id])
            && (forall i :: 0 <= i < |ids| ==> b.shards[ids[i]] == ShardRow(jobId, cubes[i], Pending))
  {
    hide InsertShards, Distinct;
    InsertedKeys(db, jobId, ids, cubes);
    var b := InsertShards(db, jobId, ids, cubes);
    forall i | 0 <= i < |ids| ensures ids[i] in b.shards && b.shards[ids[i]] == ShardRow(jobId, cubes[i], Pending) {
      InsertedRow(db, jobId, ids, cubes, i);
    }
  }

  /** The whole split is inserted at once, under fresh ids, into a job without shards. */
  lemma InsertKeeps(check: ProofCheck, db: Database, jobId: int, ids: seq<int>)
    requires DbSound(check, db) && jobId in db.jobs && NoRows(db, jobId) && CubesOf(db.jobs[jobId]).Some?
    requires Valid(db.jobs[jobId].file)
    requires |ids| == |CubesOf(db.jobs[jobId]).value| && Distinct(ids)
    requires forall i :: 0 <= i < |ids| ==> ids[i] !in db.shards
    ensures var b := InsertShards(db, jobId, ids, CubesOf(db.jobs[jobId]).value);
            DbSound(check, b) && Extends(db, b)
  {
    hide Evident, CubesOf, DecisionEvident, InsertShards, FullySplit;
    var cubes := CubesOf(db.jobs[jobId]).value;
    var b := InsertShards(db, jobId, ids, cubes);
    Inserted(db, jobId, ids, cubes);
    assert Extends(db, b);
    ResultsStable(check, db, b);
    VerdictsStable(check, db, b);
    InsertedSplit(db, jobId, ids);
    forall j | j in b.jobs ensures NoRows(b, j) || FullySplit(b, j) {
      if j != jobId {
        OtherJobs(db, jobId, ids, cubes, j);
      }
    }
  }

  lemma InsertedSplit(db: Database, jobId: int, ids: seq<int>)
    requires jobId in db.jobs && NoRows(db, jobId) && CubesOf(db.jobs[jobId]).Some? && Valid(db.jobs[jobId].file)
    requires |ids| == |CubesOf(db.jobs[jobId]).value| && Distinct(ids)
    requires forall i :: 0 <= i < |ids| ==> ids[i] !in db.shards
    ensures FullySplit(InsertShards(db, jobId, ids, CubesOf(db.jobs[jobId]).value), jobId)
  {
    var job := db.jobs[jobId];
    SplitIsDistinct(job.file, Workers(job.maxWorkers));
    hide Split;
    var cubes := CubesOf(job).value;
    var b := InsertShards(db, jobId, ids, cubes);
    Inserted(db, jobId, ids, cubes);
    hide InsertShards;
    IdsFullySplit(db, b, jobId, ids);
  }

  lemma IdsFullySplit(db: Database, b: Database, jobId: int, ids: seq<int>)
    requires jobId in db.jobs && b.jobs == db.jobs && NoRows(db, jobId) && Valid(db.jobs[jobId].file)
    requires CubesOf(db.jobs[jobId]).Some? && |ids| == |CubesOf(db.jobs[jobId]).value|
    requires forall id :: id in b.shards ==> id in ids || (id in db.shards && b.shards[id] == db.shards[id])
    requires forall k :: 0 <= k < |ids| ==>
               ids[k] in b.shards && b.shards[ids[k]] == ShardRow(jobId, CubesOf(db.jobs[jobId]).value[k], Pending)
    requires var cubes := CubesOf(db.jobs[jobId]).value;
             forall j, k :: 0 <= j < |cubes| && 0 <= k < |cubes| && j != k ==> cubes[j] != cubes[k]
    ensures FullySplit(b, jobId)
  {
    hide CubesOf, Valid;
    var cubes := CubesOf(db.jobs[jobId]).value;
    forall k | 0 <= k < |cubes| ensures HasRow(b, jobId, cubes[k]) {
      var id := ids[k];
      assert id in b.shards && b.shards[id].jobId == jobId && b.shards[id].cube == cubes[k];
    }
    forall id | id in b.shards && b.shards[id].jobId == jobId ensures id in ids {
    }
  }

  lemma SplitIsDistinct(f: File, maxWorkers: int)
    requires Split(f, maxWorkers).Some?
    ensures var cubes := Split(f, maxWorkers).value;
            forall j, k :: 0 <= j < |cubes| && 0 <= k < |cubes| && j != k ==> cubes[j] != cubes[k]
  {
    hide AllCubes, NumVars, Depth;
    var depth := Depth(maxWorkers, NumVars(f).value, MAX_DEPTH_CAP);
    var cubes := AllCubes(depth);
    forall j, k | 0 <= j < |cubes| && 0 <= k < |cubes| && j != k ensures cubes[j] != cubes[k] {
      if j < k {
        CubesAreDistinct(depth, j, k);
      } else {
        CubesAreDistinct(depth, k, j);
      }
    }
  }

  lemma OtherJobs(db: Database, jobId: int, ids: seq<int>, cubes: seq<seq<int>>, j: int)
    requires |ids| == |cubes| && Distinct(ids) && j in db.jobs && j != jobId
    requires forall i :: 0 <= i < |ids| ==> ids[i] !in db.shards
    requires NoRows(db, j) || FullySplit(db, j)
    ensures var b := InsertShards(db, jobId, ids, cubes); NoRows(b, j) || FullySplit(b, j)
  {
    hide CubesOf;
    var b := InsertShards(db, jobId, ids, cubes);
    Inserted(db, jobId, ids, cubes);
    hide InsertShards;
    if FullySplit(db, j) {
      OtherStaysSplit(db, b, j);
    }
  }

  lemma OtherStaysSplit(a: Database, b: Database, j: int)
    requires FullySplit(a, j) && b.jobs == a.jobs
    requires forall id :: id in a.shards ==> id in b.shards && b.shards[id] == a.shards[id]
    requires forall id :: id in b.shards && b.shards[id].jobId == j ==> id in a.shards
    ensures FullySplit(b, j)
  {
    hide CubesOf, Valid;
    var js := CubesOf(a.jobs[j]).value;
    forall k | 0 <= k < |js| ensures HasRow(b, j, js[k]) {
      assert HasRow(a, j, js[k]);
      var id :| id in a.shards && a.shards[id].jobId == j && a.shards[id].cube == js[k];
      assert id in b.shards;
    }
  }
}
