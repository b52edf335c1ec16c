/** The joining theorem: whatever workers send, in whatever order, a recorded verdict is right. */
module Verdicts {
  import opened GoText
  import opened Cnf
  import opened Dimacs
  import opened CubeApply
  import opened ShardFile
  import opened Cubes
  import opened VerifySat
  import opened Kissat
  import opened Tables
  import opened DbSafety
  import opened Protocol
  import opened Safety
  import opened Finality

  /** The one assumption about drat-trim: it accepts a proof only for a proper DIMACS file
      whose formula is unsatisfiable. Nothing is assumed about files it cannot read. */
  ghost predicate SoundChecker(check: ProofCheck) {
    forall f: File, p: Proof :: check(f, p) && SolverReads(f).Some? ==> !Satisfiable(SolverReads(f).value)
  }

  // ---- From evidence to truth ----

  /** An accepted proof for a shard of a well-formed job refutes formula and cube. */
  lemma ProofRefutes(check: ProofCheck, f: File, numVars: int, cube: seq<int>)
    requires SoundChecker(check) && WellFormed(f, numVars) && CubeInRange(cube, numVars)
    requires HasProof(check, f, cube)
    ensures !Satisfiable(Clauses(f) + Units(cube))
  {
    RecountSuffices(f, numVars, cube);
    var p: Proof :| check(Prepared(f, cube), p);
    hide WellFormed, CubeInRange, Prepared, SolverReads, Satisfiable, Clauses, Units;
  }

  lemma SplitOfUpload(f: File, numVars: int, maxWorkers: int)
    requires WellFormed(f, numVars)
    ensures NumVars(f) == Some(numVars)
    ensures Split(f, maxWorkers) == Some(AllCubes(Depth(maxWorkers, numVars, MAX_DEPTH_CAP)))
  {
    WellFormedIs(f, numVars);
    hide WellFormed, Accepted, NumVars, AllCubes, Depth;
    NumVarsOfUpload(f, numVars);
  }

  /** If every cube of a well-formed job was refuted, its formula is unsatisfiable. */
  lemma RefutedIsUnsatisfiable(check: ProofCheck, job: JobRow, numVars: int)
    requires SoundChecker(check) && WellFormed(job.file, numVars) && Refuted(check, job)
    ensures !Satisfiable(Clauses(job.file))
  {
    SplitOfUpload(job.file, numVars, Workers(job.maxWorkers));
    hide WellFormed, CubeInRange, Prepared, Satisfiable, Clauses, Units, AllCubes, HasProof, Depth, SoundChecker,
         NumVars;
    var depth := Depth(Workers(job.maxWorkers), numVars, MAX_DEPTH_CAP);
    var cubes := AllCubes(depth);
    forall k | 0 <= k < |cubes| ensures !Satisfiable(Clauses(job.file) + Units(cubes[k])) {
      CubesInRange(job.file, Workers(job.maxWorkers), k);
      ProofRefutes(check, job.file, numVars, cubes[k]);
    }
    SplitPreservesSatisfiability(Clauses(job.file), depth);
  }

  // ---- Verdicts of whole runs ----

  lemma VerdictEvident(check: ProofCheck, states: seq<State>, events: seq<Event>, i: nat, j: int)
    requires Run(check, states, events) && i < |states| && j in states[i].db.verdicts
    ensures j in states[i].db.jobs && DecisionEvident(check, states[i].db.jobs[j], states[i].db.verdicts[j])
  {
    RunSafe(check, states, events, i);
    hide DecisionEvident, Run, TasksSound, MemorySound, SplitOnce, RowsSound, ResultsSound, StatusSound;
  }

  lemma SatVerdictOnFile(check: ProofCheck, states: seq<State>, events: seq<Event>, i: nat, j: int)
    requires Run(check, states, events) && i < |states|
    requires j in states[i].db.verdicts && states[i].db.verdicts[j].JobSat?
    ensures j in states[i].db.jobs
    ensures forall v: Valuation :: Agrees(v, Fold(states[i].db.verdicts[j].assignment)) ==>
              Models(v, Clauses(states[i].db.jobs[j].file))
    ensures Satisfiable(Clauses(states[i].db.jobs[j].file))
  {
    VerdictEvident(check, states, events, i, j);
    hide Run, Fold, Clauses, Agrees, CubesOf, Accepts, Models;
    var job, a := states[i].db.jobs[j], states[i].db.verdicts[j].assignment;
    var k :| 0 <= k < |CubesOf(job).value| && Accepts(job.file, CubesOf(job).value[k], a);
    forall v: Valuation | Agrees(v, Fold(a)) ensures Models(v, Clauses(job.file)) {
      AcceptedSatisfies(job.file, CubesOf(job).value[k], a, v);
    }
    var v := SomeExtension(Fold(a));
    assert Models(v, Clauses(job.file));
  }

  lemma SomeExtension(m: Partial) returns (v: Valuation)
    ensures Agrees(v, m)
  {
    v := iset x: int | x in m && m[x];
  }

  lemma UnsatVerdictOnFile(check: ProofCheck, states: seq<State>, events: seq<Event>, i: nat, j: int, numVars: int)
    requires Run(check, states, events) && i < |states| && SoundChecker(check)
    requires j in states[i].db.verdicts && states[i].db.verdicts[j].JobUnsat?
    requires j in states[i].db.jobs && Tidy(states[i].db.jobs[j].file, numVars)
    ensures !Satisfiable(Clauses(states[i].db.jobs[j].file))
  {
    VerdictEvident(check, states, events, i, j);
    hide Run, SoundChecker, Refuted, Satisfiable, Clauses, Valid, PercentFree, Tidy, WellFormed;
    ValidAndTidy(states[i].db.jobs[j].file, numVars);
    RefutedIsUnsatisfiable(check, states[i].db.jobs[j], numVars);
  }

  /** A recorded SAT verdict carries an assignment every extension of which satisfies the
      formula that was uploaded. This holds for all uploads, well formed or not, and whatever
      the proof checker does. */
  lemma SatVerdictIsRight(check: ProofCheck, states: seq<State>, events: seq<Event>, n: nat, i: nat)
    requires Run(check, states, events) && n < i < |states| && events[n].Upload?
    requires var j := events[n].jobId; j in states[i].db.verdicts && states[i].db.verdicts[j].JobSat?
    ensures forall v: Valuation :: Agrees(v, Fold(states[i].db.verdicts[events[n].jobId].assignment)) ==>
              Models(v, Clauses(events[n].upload))
    ensures Satisfiable(Clauses(events[n].upload))
  {
    UploadIsKept(check, states, events, n, i);
    NormalisingIsIdempotent(events[n].upload);
    hide Run, Agrees, Fold, Models, Clauses, Satisfiable, Normalised;
    SatVerdictOnFile(check, states, events, i, events[n].jobId);
  }

  /** A recorded UNSAT verdict on a recountable upload is right if the proof checker is sound.
      (That the upload was valid is not assumed: the server saw to it.) */
  lemma UnsatVerdictIsRight(check: ProofCheck, states: seq<State>, events: seq<Event>, n: nat, i: nat, numVars: int)
    requires Run(check, states, events) && n < i < |states| && events[n].Upload? && SoundChecker(check)
    requires var j := events[n].jobId; j in states[i].db.verdicts && states[i].db.verdicts[j].JobUnsat?
    requires Tidy(Normalised(events[n].upload), numVars)
    ensures !Satisfiable(Clauses(events[n].upload))
  {
    UploadIsKept(check, states, events, n, i);
    NormalisingIsIdempotent(events[n].upload);
    hide Run, SoundChecker, Tidy, Clauses, Satisfiable, Normalised;
    UnsatVerdictOnFile(check, states, events, i, events[n].jobId, numVars);
  }

  /** Every recorded verdict is about some upload. */
  lemma VerdictsAreAboutUploads(check: ProofCheck, states: seq<State>, events: seq<Event>, i: nat, j: int)
    requires Run(check, states, events) && i < |states| && j in states[i].db.verdicts
    ensures exists n :: 0 <= n < i && events[n].Upload? && events[n].jobId == j
  {
    VerdictEvident(check, states, events, i, j);
    hide Run;
    EveryJobWasUploaded(check, states, events, i, j);
  }

  // ---- What a result is judged by ----

  /** The claim is a model, and it is one as far as the check goes. */
  predicate ModelHolds(db: Database, res: Result, a: seq<int>) {
    && res.sat && ParsedAssignment(res.info) == Some(a)
    && res.jobId in db.jobs && res.shardId in db.shards && db.shards[res.shardId].jobId == res.jobId
    && Accepts(db.jobs[res.jobId].file, db.shards[res.shardId].cube, a)
  }

  /** The claim is a proof that was uploaded, and drat-trim accepts it for the shard's file. */
  predicate ProofHolds(check: ProofCheck, db: Database, res: Result, d: int) {
    && !res.sat && Atoi(TrimSpace(res.info)) == Some(d) && d in db.proofs
    && res.jobId in db.jobs && res.shardId in db.shards && db.shards[res.shardId].jobId == res.jobId
    && check(Prepared(db.jobs[res.jobId].file, db.shards[res.shardId].cube), db.proofs[d])
  }

  /** The text names nothing that could be looked up. */
  predicate Garbled(res: Result) {
    if res.sat then ParsedAssignment(res.info) == None else Atoi(TrimSpace(res.info)) == None
  }

  /** A result is stored if and only if the lookups worked and its claim holds. It is rejected if
      and only if its text is garbled, or the lookups worked and show the claim to be false:
      an unknown proof, or a known shard of the job for which the claim fails. A failed
      lookup of a readable claim is never held against the worker. */
  lemma JudgedByItsClaim(check: ProofCheck, db: Database, res: Result, lookupOk: bool)
    ensures forall a :: Judge(check, db, res, lookupOk) == SatProved(a) <==> lookupOk && ModelHolds(db, res, a)
    ensures forall d :: Judge(check, db, res, lookupOk) == UnsatProved(d) <==> lookupOk && ProofHolds(check, db, res, d)
    ensures Judge(check, db, res, lookupOk).Rejected? <==> Garbled(res) || (lookupOk && ClaimFails(check, db, res))
  {
    hide ParsedAssignment, TrimSpace, Accepts, Prepared;
    BlankIsNoInteger(TrimSpace(res.info));
    hide Atoi;
  }

  predicate ClaimFails(check: ProofCheck, db: Database, res: Result)
    requires !Garbled(res)
  {
    var known := res.jobId in db.jobs && res.shardId in db.shards && db.shards[res.shardId].jobId == res.jobId;
    if res.sat then known && !ModelHolds(db, res, ParsedAssignment(res.info).value)
    else
      var d := Atoi(TrimSpace(res.info)).value;
      d !in db.proofs || (known && !ProofHolds(check, db, res, d))
  }

  lemma BlankIsNoInteger(s: string)
    ensures s == "" ==> Atoi(s) == None
  {
  }

  // ---- A shard's verdict never flips ----

  /** A model and a proof cannot both be accepted for one shard. */
  lemma EvidenceExcludes(check: ProofCheck, db: Database, id: int, numVars: int, a: seq<int>, d: int)
    requires SoundChecker(check) && RowsSound(db) && id in db.shards
    requires Tidy(db.jobs[db.shards[id].jobId].file, numVars)
    ensures !(Evident(check, db, id, FoundSat(a)) && Evident(check, db, id, FoundUnsat(d)))
  {
    CubeIsInSplit(db, id);
    var job, cube := db.jobs[db.shards[id].jobId], db.shards[id].cube;
    ValidAndTidy(job.file, numVars);
    SplitOfUpload(job.file, numVars, Workers(job.maxWorkers));
    hide SoundChecker, RowsSound, WellFormed, Tidy, Valid, Accepts, Prepared, Satisfiable, Clauses, Units, NumVars,
         Depth;
    var depth := Depth(Workers(job.maxWorkers), numVars, MAX_DEPTH_CAP);
    var k :| 0 <= k < |CubesOf(job).value| && CubesOf(job).value[k] == cube;
    CubesInRange(job.file, Workers(job.maxWorkers), k);
    DepthFits(Workers(job.maxWorkers), numVars);
    if Evident(check, db, id, FoundUnsat(d)) {
      assert HasProof(check, job.file, cube);
      ProofRefutes(check, job.file, numVars, cube);
    }
    if Evident(check, db, id, FoundSat(a)) {
      AcceptedShardIsSatisfiable(job.file, depth, k, a);
    }
  }

  lemma DepthFits(maxWorkers: int, numVars: int)
    ensures Depth(maxWorkers, numVars, MAX_DEPTH_CAP) <= MAX_DEPTH_CAP
  {
    hide CeilLog2;
  }

  /** Both writers overwrite shard_results, yet no run turns a stored result of a tidy
      job from SAT to UNSAT or back. */
  lemma ShardVerdictNeverFlips(check: ProofCheck, states: seq<State>, events: seq<Event>, i: nat, k: nat, id: int,
                               numVars: int)
    requires Run(check, states, events) && i <= k < |states| && SoundChecker(check)
    requires id in states[i].db.results && id in states[i].db.shards
    requires states[i].db.shards[id].jobId in states[i].db.jobs
    requires Tidy(states[i].db.jobs[states[i].db.shards[id].jobId].file, numVars)
    ensures id in states[k].db.results && (states[k].db.results[id].FoundSat? <==> states[i].db.results[id].FoundSat?)
  {
    RunSafe(check, states, events, i);
    RunSafe(check, states, events, k);
    RunExtends(check, states, events, i, k);
    hide Run, SoundChecker, Tidy, DbSound, TasksSound, MemorySound, SplitOnce, Extends;
    FindingsAgree(check, states[i].db, states[k].db, id, numVars);
  }

  lemma FindingsAgree(check: ProofCheck, before: Database, after: Database, id: int, numVars: int)
    requires SoundChecker(check) && DbSound(check, before) && DbSound(check, after) && Extends(before, after)
    requires id in before.results && id in before.shards && before.shards[id].jobId in before.jobs
    requires Tidy(before.jobs[before.shards[id].jobId].file, numVars)
    ensures id in after.results && (after.results[id].FoundSat? <==> before.results[id].FoundSat?)
  {
    hide SoundChecker, Tidy, Evident, RowsSound, VerdictsSound, StatusSound;
    EvidentStable(check, before, after, id, before.results[id]);
    match (before.results[id], after.results[id])
    case (FoundSat(a), FoundUnsat(d)) => EvidenceExcludes(check, after, id, numVars, a, d);
    case (FoundUnsat(d), FoundSat(a)) => EvidenceExcludes(check, after, id, numVars, a, d);
    case _ =>
  }

  // ---- Honest results are accepted ----

  /** From a solver's printed answer to the server's judgement: a complete model of formula
      and cube within 32 bits is never rejected. */
  lemma HonestModelIsAccepted(db: Database, res: Result, out: string, v: Valuation)
    requires Parsed(out).Some? && Parsed(out).value.sat && res.sat && res.info == Parsed(out).value.model
    requires RowOf(db, res.jobId, res.shardId)
    requires var lits := ModelOf(SplitLines(out));
             lits != [] && Reports(lits, v) && Complete(lits, Clauses(db.jobs[res.jobId].file))
    requires Models(v, Clauses(db.jobs[res.jobId].file) + Units(db.shards[res.shardId].cube))
    requires forall i :: 0 <= i < |db.shards[res.shardId].cube| ==> IsInt32(db.shards[res.shardId].cube[i])
    ensures JudgeSat(db, res, true) == SatProved(ModelOf(SplitLines(out)))
  {
    hide ParsedAssignment, Parsed, ModelOf, SplitLines, Clauses, Units, Accepts, Complete;
    var lits := ModelOf(SplitLines(out));
    ReadingInvertsPrinting(out);
    assert Cut(lits) == lits;
    ModelIsAccepted(db.jobs[res.jobId].file, db.shards[res.shardId].cube, lits, v);
  }

  /** A worker that uploads a proof drat-trim accepts and reports its id is never rejected. */
  lemma HonestProofIsAccepted(check: ProofCheck, db: Database, res: Result, dratId: int)
    requires MIN_INT64 <= dratId <= MAX_INT64 && !res.sat && res.info == Itoa(dratId)
    requires dratId in db.proofs && RowOf(db, res.jobId, res.shardId)
    requires check(Prepared(db.jobs[res.jobId].file, db.shards[res.shardId].cube), db.proofs[dratId])
    ensures Judge(check, db, res, true) == UnsatProved(dratId)
  {
    hide TrimSpace, Atoi, Prepared;
    AtoiOfItoa(dratId);
    ItoaIsAWord(dratId);
    TrimSpaceNoOp(Itoa(dratId));
  }
}
