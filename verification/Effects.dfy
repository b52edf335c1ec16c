/** What the steps do to the tables, the memory and the books, in plain terms. The theorems about
    runs say what never happens; these say what does happen, and what stays as it is. */
module Effects {
  import opened GoText
  import opened Dimacs
  import opened CubeApply
  import opened ShardFile
  import opened Cubes
  import opened VerifySat
  import opened Kissat
  import opened Tables
  import opened DbSafety
  import opened Ledger
  import opened Protocol
  import opened Safety
  import opened Finality
  import opened Books

  // ---- Storing a model or a proof ----

  /** `after` is `before` with the shard completed under this finding and, where there is a
      decision, the job completed and decided, unless it had been decided before. */
  predicate Stored(before: Database, after: Database, j: int, id: int, finding: Finding, decision: Option<Decision>) {
    && j in before.jobs && id in before.shards && before.shards[id].jobId == j
    && after.results == before.results[id := finding]
    && after.shards == before.shards[id := ShardRow(j, before.shards[id].cube, Completed)]
    && after.verdicts == (if decision.None? || j in before.verdicts then before.verdicts
                          else before.verdicts[j := decision.value])
    && after.jobs == (if decision.None? then before.jobs else
                        var job := before.jobs[j];
                        before.jobs[j := JobRow(job.userId, job.file, job.maxWorkers, Completed)])
    && after.proofs == before.proofs
  }

  lemma SatStored(db: Database, j: int, id: int, a: seq<int>)
    requires RowOf(db, j, id)
    ensures Stored(db, StoreSatResult(db, j, id, a), j, id, FoundSat(a), Some(JobSat(a)))
  {
  }

  lemma UnsatStored(db: Database, j: int, id: int, d: int, all: bool)
    requires RowOf(db, j, id)
    ensures Stored(db, StoreUnsatResult(db, j, id, d, all), j, id, FoundUnsat(d), if all then Some(JobUnsat) else None)
  {
  }

  lemma StoredRowExists(check: ProofCheck, states: seq<State>, events: seq<Event>, i: nat, t: nat)
    requires Run(check, states, events) && i < |states| && t in states[i].tasks
    requires states[i].tasks[t].StoreSat? || states[i].tasks[t].CommitUnsat?
    ensures RowOf(states[i].db, states[i].tasks[t].jobId, states[i].tasks[t].shardId)
  {
    RunSafe(check, states, events, i);
    hide Run, Safe, DbSound, Accepts, Evident, Refuted;
    if states[i].tasks[t].StoreSat? {
      KnownSat(check, states[i], t);
    } else {
      KnownCounts(check, states[i], t);
    }
  }

  /** A committed model, in any run: the shard has the finding and is completed, the job is
      completed and has this verdict unless it had one before. Nothing else changes. */
  lemma SatCommitDecides(check: ProofCheck, states: seq<State>, events: seq<Event>, i: nat, t: nat)
    requires Run(check, states, events) && i < |events| && events[i] == CommitSat(t, true)
    ensures t in states[i].tasks && states[i].tasks[t].StoreSat?
    ensures var s, s', StoreSat(w, j, id, a) := states[i], states[i + 1], states[i].tasks[t];
            && Stored(s.db, s'.db, j, id, FoundSat(a), Some(JobSat(a)))
            && s' == s.(db := s'.db, tasks := s.tasks[t := FinishSat(w, j, id)])
  {
    assert Step(check, states[i], events[i], states[i + 1]);
    StoredRowExists(check, states, events, i, t);
    hide Run, StoreSatResult, Stored;
    var StoreSat(w, j, id, a) := states[i].tasks[t];
    SatStored(states[i].db, j, id, a);
  }

  /** A committed proof: likewise, with a verdict exactly if the counts had passed. */
  lemma UnsatCommitDecides(check: ProofCheck, states: seq<State>, events: seq<Event>, i: nat, t: nat)
    requires Run(check, states, events) && i < |events| && events[i] == Commit(t, true)
    ensures t in states[i].tasks && states[i].tasks[t].CommitUnsat?
    ensures var s, s', CommitUnsat(w, j, id, d, all) := states[i], states[i + 1], states[i].tasks[t];
            && Stored(s.db, s'.db, j, id, FoundUnsat(d), if all then Some(JobUnsat) else None)
            && s' == s.(db := s'.db, tasks := s.tasks[t := Reward(w, j, id)])
  {
    assert Step(check, states[i], events[i], states[i + 1]);
    StoredRowExists(check, states, events, i, t);
    hide Run, StoreUnsatResult, Stored;
    var CommitUnsat(w, j, id, d, all) := states[i].tasks[t];
    UnsatStored(states[i].db, j, id, d, all);
  }

  /** A write that fails changes nothing but that its goroutine gives up. */
  lemma FailedWriteChangesNothing(check: ProofCheck, s: State, e: Event, s': State)
    requires Step(check, s, e, s') && (e.CommitSat? || e.Commit? || e.Reopen? || e.Started?) && !e.ok
    ensures s' == s.(tasks := s.tasks - {e.task})
  {
    hide StoreSatResult, StoreUnsatResult, SetShardStatus, RowOf;
  }

  // ---- Stored models and completed jobs have a verdict ----

  predicate Decided(db: Database) {
    && (forall id :: id in db.results && db.results[id].FoundSat? && id in db.shards ==>
          db.shards[id].jobId in db.verdicts)
    && (forall j :: j in db.jobs && db.jobs[j].status == Completed ==> j in db.verdicts)
  }

  lemma StoredDecided(a: Database, b: Database, j: int, id: int, finding: Finding, decision: Option<Decision>)
    requires Decided(a) && Stored(a, b, j, id, finding, decision) && (finding.FoundSat? ==> decision.Some?)
    ensures Decided(b)
  {
  }

  lemma CommitsDecided(check: ProofCheck, states: seq<State>, events: seq<Event>, i: nat)
    requires Run(check, states, events) && i < |events| && Decided(states[i].db)
    requires (events[i].CommitSat? || events[i].Commit?) && events[i].ok
    ensures Decided(states[i + 1].db)
  {
    var s, t := states[i], events[i].task;
    hide Run, Decided, Stored;
    if events[i].CommitSat? {
      SatCommitDecides(check, states, events, i, t);
      var StoreSat(w, j, id, a) := s.tasks[t];
      StoredDecided(s.db, states[i + 1].db, j, id, FoundSat(a), Some(JobSat(a)));
    } else {
      UnsatCommitDecides(check, states, events, i, t);
      var CommitUnsat(w, j, id, d, all) := s.tasks[t];
      StoredDecided(s.db, states[i + 1].db, j, id, FoundUnsat(d), if all then Some(JobUnsat) else None);
    }
  }

  lemma ResultsHaveRows(check: ProofCheck, states: seq<State>, events: seq<Event>, i: nat)
    requires Run(check, states, events) && i < |states|
    ensures forall id :: id in states[i].db.results ==> id in states[i].db.shards
  {
    RunSafe(check, states, events, i);
    hide Run, Accepts, RowsSound, StatusSound, VerdictsSound, TasksSound, MemorySound, SplitOnce;
    forall id | id in states[i].db.results ensures id in states[i].db.shards {
      assert Evident(check, states[i].db, id, states[i].db.results[id]);
    }
  }

  lemma InsertDecided(s: State, t: nat, ids: seq<int>, ok: bool)
    requires Decided(s.db) && (forall id :: id in s.db.results ==> id in s.db.shards)
    requires t in s.tasks && s.tasks[t].SplitJob? && s.tasks[t].jobId in s.db.jobs
    requires FreshIds(s.db, s.tasks[t].jobId, ids)
    ensures Decided(SplitStep(s, t, ids, ok).db)
  {
    hide CubesOf, Valid, InsertShards;
    var j := s.tasks[t].jobId;
    if CubesOf(s.db.jobs[j]).Some? {
      InsertedKeys(s.db, j, ids, CubesOf(s.db.jobs[j]).value);
    }
  }

  lemma RecordsDecided(check: ProofCheck, s: State, e: Event)
    requires Decided(s.db) && Enabled(s, e)
    requires e.Upload? || e.UploadProof? || e.Reject? || e.Reopen? || e.Started?
    ensures Decided(Effect(check, s, e).db)
  {
    hide Normalised;
  }

  lemma StepDecided(check: ProofCheck, states: seq<State>, events: seq<Event>, i: nat)
    requires Run(check, states, events) && i < |events| && Decided(states[i].db)
    ensures Decided(states[i + 1].db)
  {
    var s, e := states[i], events[i];
    assert Step(check, s, e, states[i + 1]);
    hide Run, Decided, SplitStep, FreshIds;
    if e.Insert? {
      ResultsHaveRows(check, states, events, i);
      InsertDecided(s, e.task, e.ids, e.ok);
    } else {
      hide Effect, Enabled;
      if (e.CommitSat? || e.Commit?) && e.ok {
        CommitsDecided(check, states, events, i);
      } else if e.CommitSat? || e.Commit? {
        FailedWriteChangesNothing(check, s, e, states[i + 1]);
      } else if Writes(e) {
        RecordsDecided(check, s, e);
      } else {
        OthersWriteNothing(check, s, e);
      }
    }
  }

  /** In every state of every run, a job is marked completed, or has a shard with a stored
      model, only if its verdict is recorded. */
  lemma {:induction false} CompletedJobsHaveVerdicts(check: ProofCheck, states: seq<State>, events: seq<Event>, i: nat)
    requires Run(check, states, events) && i < |states|
    ensures Decided(states[i].db)
  {
    if i > 0 {
      CompletedJobsHaveVerdicts(check, states, events, i - 1);
      hide Decided, Run;
      StepDecided(check, states, events, i - 1);
    }
  }

  // ---- Refuting the last shard ----

  /** The job has this shard, and every other shard of it is completed and none has a model. */
  predicate LastOpen(db: Database, j: int, id: int) {
    && id in db.shards && db.shards[id].jobId == j
    && forall x :: x in db.shards && db.shards[x].jobId == j && x != id ==>
         db.shards[x].status == Completed && !(x in db.results && db.results[x].FoundSat?)
  }

  /** When the last open shard of a job is refuted and nothing comes between, the job gets its
      verdict; while another shard is open or has a model, it does not. */
  lemma LastRefutationDecides(check: ProofCheck, s: State, t: nat, w: int, j: int, id: int, d: int, s': State)
    requires t in s.tasks && s.tasks[t] == CountUnsat(w, j, id, d) && id in s.db.shards && s.db.shards[id].jobId == j
    requires Step(check, s, Count(t), s')
    ensures s' == s.(tasks := s.tasks[t := if LastOpen(s.db, j, id) then FinishUnsat(w, j, id, d)
                                           else CommitUnsat(w, j, id, d, false)])
  {
    var db := StoreUnsatShard(s.db, id, d);
    CountsSayAll(db, j);
    hide AllRefuted;
    assert db.shards == s.db.shards[id := ShardRow(j, s.db.shards[id].cube, Completed)];
    assert db.results == s.db.results[id := FoundUnsat(d)];
    assert id in db.shards && db.shards[id].jobId == j;
    if LastOpen(s.db, j, id) {
      assert AllRefuted(db, j);
    } else {
      var x :| x in s.db.shards && s.db.shards[x].jobId == j && x != id
               && !(s.db.shards[x].status == Completed && !(x in s.db.results && s.db.results[x].FoundSat?));
      assert x in db.shards && db.shards[x] == s.db.shards[x];
    }
  }

  /** The scheduler stops handing out shards of the job. */
  lemma FinishClosesTheJob(check: ProofCheck, s: State, t: nat, s': State)
    requires Step(check, s, Finish(t), s')
    ensures t in s.tasks && (s.tasks[t].FinishSat? || s.tasks[t].FinishUnsat?)
    ensures var w, j, id := s.tasks[t].workerId, s.tasks[t].jobId, s.tasks[t].shardId;
            s' == s.(mem := Memory(s.mem.pending, s.mem.slots, s.mem.completed + {j}),
                     tasks := s.tasks[t := if s.tasks[t].FinishSat? then Reward(w, j, id)
                                           else CommitUnsat(w, j, id, s.tasks[t].dratId, true)])
  {
  }

  // ---- Assigning ----

  /** Position k holds the first shard whose job is not completed. */
  predicate FirstLive(mem: Memory, k: nat) {
    && k < |mem.pending| && mem.pending[k].jobId !in mem.completed
    && forall i :: 0 <= i < k ==> mem.pending[i].jobId in mem.completed
  }

  predicate AllCompleted(mem: Memory) {
    forall i :: 0 <= i < |mem.pending| ==> mem.pending[i].jobId in mem.completed
  }

  lemma {:induction false} PickLiveAt(pending: seq<Shard>, completed: set<int>, k: nat)
    requires k <= |pending| && forall i :: 0 <= i < k ==> pending[i].jobId in completed
    requires k < |pending| ==> pending[k].jobId !in completed
    ensures PickLive(pending, completed)
         == if k < |pending| then Picked(Some(pending[k]), pending[k + 1..]) else Picked(None, [])
  {
    if k > 0 {
      assert pending[1..][k - 1..] == pending[k..];
      PickLiveAt(pending[1..], completed, k - 1);
    }
  }

  lemma {:induction false} SomeLiveIsFirst(mem: Memory, n: nat) returns (k: nat)
    requires n <= |mem.pending| && forall i :: 0 <= i < n ==> mem.pending[i].jobId in mem.completed
    ensures n <= k <= |mem.pending| && (k < |mem.pending| ==> FirstLive(mem, k))
    ensures k == |mem.pending| ==> AllCompleted(mem)
    decreases |mem.pending| - n
  {
    k := n;
    if n < |mem.pending| && mem.pending[n].jobId in mem.completed {
      k := SomeLiveIsFirst(mem, n + 1);
    }
  }

  /** The worker is idle and registered, its user has ten thousand or more, and the balance
      can be read. */
  predicate Eligible(s: State, w: int, readable: bool) {
    && readable && w !in s.mem.slots && w in s.conns.users
    && s.conns.users[w] in s.book.balance && s.book.balance[s.conns.users[w]] >= 10_000
  }

  predicate TakenAt(s: State, s': State, w: int, k: nat) {
    && FirstLive(s.mem, k) && w in s.conns.users
    && s' == s.(lock := Sending(w, s.conns.users[w], s.mem.pending[k]),
                mem := s.mem.(pending := s.mem.pending[k + 1..]))
  }

  /** A worker that asks for work is sent a shard if and only if it is eligible and some queued
      shard's job is not completed; and then it is sent the first such shard, which leaves
      the queue together with the completed ones before it. */
  lemma PickSendsIff(check: ProofCheck, s: State, w: int, readable: bool, s': State)
    requires Step(check, s, Pick(w, readable), s')
    ensures s'.lock.Sending? <==> Eligible(s, w, readable) && !AllCompleted(s.mem)
    ensures s'.lock.Sending? ==> exists k :: TakenAt(s, s', w, k)
  {
    var k := SomeLiveIsFirst(s.mem, 0);
    PickLiveAt(s.mem.pending, s.mem.completed, k);
    hide PickLive;
    if s'.lock.Sending? {
      assert TakenAt(s, s', w, k);
    }
  }

  /** A worker that is not sent a shard costs the queue at most leading shards of completed jobs. */
  lemma PickRefuses(check: ProofCheck, s: State, w: int, readable: bool, s': State)
    requires Step(check, s, Pick(w, readable), s') && !s'.lock.Sending?
    ensures w in s.mem.slots ==> s' == s
    ensures w !in s.mem.slots && AllCompleted(s.mem) ==> s' == s.(mem := s.mem.(pending := []))
    ensures w !in s.mem.slots && !AllCompleted(s.mem) ==>
              exists k: nat :: FirstLive(s.mem, k) && s' == s.(mem := s.mem.(pending := s.mem.pending[k..]))
  {
    var k := SomeLiveIsFirst(s.mem, 0);
    PickLiveAt(s.mem.pending, s.mem.completed, k);
    hide PickLive;
    if k < |s.mem.pending| {
      assert [s.mem.pending[k]] + s.mem.pending[k + 1..] == s.mem.pending[k..];
    }
  }

  /** A successful send fills the slot with a copy of the shard that names the user, and starts
      the status write; a failed one puts the shard back in front. */
  lemma SendAssigns(check: ProofCheck, s: State, w: int, u: int, sh: Shard, ok: bool, s': State)
    requires s.lock == Sending(w, u, sh) && Step(check, s, Send(ok), s')
    ensures s'.lock == Free && s'.conns == s.conns && s'.phases == s.phases && s'.db == s.db && s'.book == s.book
    ensures !ok ==> s'.mem == s.mem.(pending := [sh] + s.mem.pending) && s'.tasks == s.tasks && s'.owed == s.owed
    ensures ok ==> s'.mem == s.mem.(slots := s.mem.slots[w := Shard(sh.jobId, sh.shardId, sh.cube, u)])
                   && s'.tasks == s.tasks[s.nextTask := MarkRunning(sh.shardId)] && s'.nextTask == s.nextTask + 1
  {
  }

  // ---- Results, disconnects and re-enqueueing ----

  /** A result frees the worker's slot, whatever shard it names, and is judged on behalf of
      the user in the slot. */
  lemma ReceiveFrees(check: ProofCheck, s: State, w: int, res: Result, s': State)
    requires Step(check, s, Receive(w, res), s')
    ensures s'.mem == s.mem.(slots := s.mem.slots - {w})
    ensures s'.tasks == s.tasks[s.nextTask :=
                          JudgeResult(w, if w in s.mem.slots then s.mem.slots[w].userId else 0, res)]
    ensures s'.nextTask == s.nextTask + 1 && s'.lock == s.lock && s'.conns == s.conns && s'.phases == s.phases
    ensures s'.db == s.db && s'.book == s.book
  {
  }

  /** What was judged is dropped, charged or stored, for the worker and user it came from and the
      job and shard it names. */
  lemma VerifyGoesOn(check: ProofCheck, s: State, t: nat, w: int, u: int, res: Result, lookupOk: bool, s': State)
    requires t in s.tasks && s.tasks[t] == JudgeResult(w, u, res) && Step(check, s, Verify(t, lookupOk), s')
    ensures s' == s.(tasks :=
              match Judge(check, s.db, res, lookupOk)
              case Dropped => s.tasks - {t}
              case Rejected(why) => s.tasks[t := Penalise(u, res.jobId, res.shardId, why)]
              case SatProved(a) => s.tasks[t := StoreSat(w, res.jobId, res.shardId, a)]
              case UnsatProved(d) => s.tasks[t := CountUnsat(w, res.jobId, res.shardId, d)])
  {
    hide Judge;
  }

  /** So does a disconnect, and it starts re-enqueueing the shard that was in it. */
  lemma DisconnectFrees(check: ProofCheck, s: State, w: int, s': State)
    requires Step(check, s, Disconnect(w), s')
    ensures s'.mem == s.mem.(slots := s.mem.slots - {w}) && s'.phases == s.phases[w := Gone]
    ensures s'.tasks == if w in s.mem.slots then s.tasks[s.nextTask := Requeue(s.mem.slots[w].shardId)] else s.tasks
    ensures s'.lock == s.lock && s'.conns == s.conns && s'.db == s.db && s'.book == s.book
  {
  }

  lemma ReopenSetsPending(check: ProofCheck, s: State, t: nat, s': State)
    requires Step(check, s, Reopen(t, true), s')
    ensures t in s.tasks && s.tasks[t].Requeue?
    ensures var id := s.tasks[t].shardId;
            if id !in s.db.shards then s' == s.(tasks := s.tasks - {t})
            else
              var row := s.db.shards[id];
              s' == s.(db := s.db.(shards := s.db.shards[id := ShardRow(row.jobId, row.cube, Status.Pending)]),
                       tasks := s.tasks[t := Append([Shard(row.jobId, id, row.cube, 0)])])
  {
  }

  lemma StartedSetsRunning(check: ProofCheck, s: State, t: nat, s': State)
    requires Step(check, s, Started(t, true), s')
    ensures t in s.tasks && s.tasks[t].MarkRunning?
    ensures var id := s.tasks[t].shardId;
            s' == s.(tasks := s.tasks - {t}, db :=
                       if id !in s.db.shards then s.db
                       else
                         var row := s.db.shards[id];
                         s.db.(shards := s.db.shards[id := ShardRow(row.jobId, row.cube, Running)]))
  {
  }

  /** Appended shards go to the end of the queue, in their order. */
  lemma QueueAppends(check: ProofCheck, s: State, t: nat, s': State)
    requires Step(check, s, Queue(t), s')
    ensures t in s.tasks && s.tasks[t].Append?
    ensures s' == s.(mem := s.mem.(pending := s.mem.pending + s.tasks[t].shards), tasks := s.tasks - {t})
  {
  }

  // ---- Jobs ----

  /** An upload becomes a pending job with the file's lines before the first '%', and splitting
      it is started. */
  lemma UploadStarts(check: ProofCheck, s: State, j: int, u: int, upload: File, n: int, s': State)
    requires Step(check, s, Upload(j, u, upload, n), s')
    ensures j in s'.db.jobs && UpToPercent(upload, s'.db.jobs[j].file)
    ensures s'.db == s.db.(jobs := s.db.jobs[j := JobRow(u, s'.db.jobs[j].file, n, Status.Pending)])
    ensures s' == s.(db := s'.db, tasks := s.tasks[s.nextTask := SplitJob(j)], nextTask := s.nextTask + 1)
  {
    NormalisedIsUpToPercent(upload);
    hide Normalised;
  }

  /** A valid job gets one pending row a cube, under the ids handed out, and the same shards go
      to the queue's appender, all in the cubes' order; if the transaction fails, nothing. */
  lemma ValidJobIsSplit(check: ProofCheck, s: State, t: nat, j: int, ids: seq<int>, ok: bool, numVars: int, s': State)
    requires t in s.tasks && s.tasks[t] == SplitJob(j) && Step(check, s, Insert(t, ids, ok), s')
    requires j in s.db.jobs && Accepted(s.db.jobs[j].file, numVars)
    ensures !ok ==> s' == s.(tasks := s.tasks - {t})
    ensures var workers := if s.db.jobs[j].maxWorkers <= 0 then 1 else s.db.jobs[j].maxWorkers;
            var cubes := AllCubes(Depth(workers, numVars, 20));
            ok ==> |ids| == |cubes| && SplitInto(s, s', t, j, ids, cubes)
  {
    var job := s.db.jobs[j];
    var cubes := AllCubes(Depth(Workers(job.maxWorkers), numVars, 20));
    AcceptedIsSplit(job, numVars);
    hide AllCubes, Depth, CubesOf, Accepted, Valid, SplitInto, SplitStep;
    SplitStepSplits(s, t, j, ids, ok, cubes);
  }

  lemma SplitStepSplits(s: State, t: nat, j: int, ids: seq<int>, ok: bool, cubes: seq<seq<int>>)
    requires t in s.tasks && s.tasks[t] == SplitJob(j) && j in s.db.jobs && FreshIds(s.db, j, ids)
    requires Valid(s.db.jobs[j].file) && CubesOf(s.db.jobs[j]) == Some(cubes)
    ensures if ok then SplitInto(s, SplitStep(s, t, ids, ok), t, j, ids, cubes)
            else SplitStep(s, t, ids, ok) == s.(tasks := s.tasks - {t})
  {
    hide CubesOf, InsertShards, Valid;
    if ok {
      Inserted(s.db, j, ids, cubes);
    }
  }

  lemma AcceptedIsSplit(job: JobRow, numVars: int)
    requires Accepted(job.file, numVars)
    ensures Valid(job.file) && CubesOf(job) == Some(AllCubes(Depth(Workers(job.maxWorkers), numVars, 20)))
  {
    NumVarsOfUpload(job.file, numVars);
    hide AllCubes, Depth, NumVars, ValidFor, Significant, AllClauses;
  }

  ghost predicate SplitInto(s: State, s': State, t: nat, j: int, ids: seq<int>, cubes: seq<seq<int>>)
    requires |ids| == |cubes|
  {
    && s' == s.(db := s.db.(shards := s'.db.shards), tasks := s'.tasks)
    && (forall id :: id in s'.db.shards <==> id in s.db.shards || id in ids)
    && (forall id :: id in s.db.shards ==> s'.db.shards[id] == s.db.shards[id])
    && (forall k :: 0 <= k < |ids| ==> s'.db.shards[ids[k]] == ShardRow(j, cubes[k], Status.Pending))
    && s'.tasks == s.tasks[t := Append(seq(|ids|, k requires 0 <= k < |ids| => Shard(j, ids[k], cubes[k], 0)))]
  }

  /** An invalid job gets no rows; it is marked failed, and then closed in memory. */
  lemma InvalidJobFails(check: ProofCheck, s: State, t: nat, j: int, ids: seq<int>, ok: bool, s': State)
    requires t in s.tasks && s.tasks[t] == SplitJob(j) && Step(check, s, Insert(t, ids, ok), s')
    requires j in s.db.jobs && !Valid(s.db.jobs[j].file)
    ensures s' == s.(tasks := s.tasks[t := RejectJob(j)])
  {
    hide Valid, CubesOf, InsertShards, FreshIds;
  }

  lemma RejectSetsFailed(check: ProofCheck, s: State, t: nat, ok: bool, s': State)
    requires Step(check, s, Reject(t, ok), s')
    ensures t in s.tasks && s.tasks[t].RejectJob?
    ensures var j := s.tasks[t].jobId;
            s' == s.(tasks := s.tasks[t := AbandonJob(j)], db :=
                       if !ok || j !in s.db.jobs then s.db
                       else
                         var job := s.db.jobs[j];
                         s.db.(jobs := s.db.jobs[j := JobRow(job.userId, job.file, job.maxWorkers, Status.Failed)]))
  {
  }

  lemma AbandonClosesTheJob(check: ProofCheck, s: State, t: nat, s': State)
    requires Step(check, s, Abandon(t), s')
    ensures t in s.tasks && s.tasks[t].AbandonJob?
    ensures s' == s.(mem := s.mem.(completed := s.mem.completed + {s.tasks[t].jobId}), tasks := s.tasks - {t})
  {
  }

  // ---- The books ----

  /** The balance of u moves by `delta`, with this row. */
  predicate Entered(b: Book, c: Book, u: int, delta: int, reason: string, meta: Meta) {
    && u in b.balance && c.balance == b.balance[u := b.balance[u] + delta]
    && c.rows == b.rows + [Row(u, delta, reason, meta)]
  }

  /** Whatever was wrong with the result, a penalty takes ten thousand from a user who has them,
      and nothing from anyone else. The shard is re-enqueued in any case. */
  lemma PunishCharges(check: ProofCheck, states: seq<State>, events: seq<Event>, i: nat, t: nat, ok: bool)
    requires Run(check, states, events) && i < |events| && events[i] == Punish(t, ok)
    ensures t in states[i].tasks && states[i].tasks[t].Penalise?
    ensures var s, s', Penalise(u, j, id, why) := states[i], states[i + 1], states[i].tasks[t];
            && s' == s.(book := s'.book, tasks := s.tasks[t := Requeue(id)])
            && if ok && u != 0 && u in s.book.balance && s.book.balance[u] >= 10_000 then
                 Entered(s.book, s'.book, u, -10_000, "worker_penalty", About(j, id))
               else s'.book == s.book
  {
    assert Step(check, states[i], events[i], states[i + 1]);
    BooksAlwaysBalance(check, states, events, i);
    hide Run, Sum;
  }

  /** The job's client can pay the fee, the worker's user can take it, and there is a fee. */
  predicate CanPay(s: State, u: int, j: int, fee: int) {
    && j in s.db.jobs && fee > 0
    && s.db.jobs[j].userId in s.book.balance && s.book.balance[s.db.jobs[j].userId] >= fee
    && u in s.book.balance && (u == s.db.jobs[j].userId || s.book.balance[u] + fee <= 0x7FFF_FFFF_FFFF_FFFF)
  }

  /** Ten a variable and one a clause, in 64 bits; 0 without a header that can be read. */
  function Fee(f: File): int {
    if DeclaredSize(f).None? then 0 else ToInt64(10 * DeclaredSize(f).value.0 + DeclaredSize(f).value.1)
  }

  /** Whoever the connection is registered under is paid; nobody, if it has gone. */
  lemma ResolveFindsTheUser(check: ProofCheck, s: State, t: nat, w: int, j: int, id: int, s': State)
    requires t in s.tasks && s.tasks[t] == Reward(w, j, id) && Step(check, s, Resolve(t), s')
    ensures s' == s.(tasks := if w in s.conns.users then s.tasks[t := Payout(w, s.conns.users[w], j, id)]
                              else s.tasks - {t})
  {
  }

  /** The books between the debit and the credit of a reward. */
  function Paying(s: State, j: int, id: int): Book
    requires j in s.db.jobs && s.db.jobs[j].userId in s.book.balance
  {
    var client, fee := s.db.jobs[j].userId, Fee(s.db.jobs[j].file);
    Book(s.book.balance[client := s.book.balance[client] - fee],
         s.book.rows + [Row(client, -fee, "worker_reward_debit", About(j, id))])
  }

  /** The client is debited and then the worker's user credited with the job's fee. */
  predicate FeeMoved(s: State, after: Book, u: int, j: int, id: int)
    requires j in s.db.jobs && s.db.jobs[j].userId in s.book.balance
  {
    var fee, mid := Fee(s.db.jobs[j].file), Paying(s, j, id);
    && Entered(s.book, mid, s.db.jobs[j].userId, -fee, "worker_reward_debit", About(j, id))
    && Entered(mid, after, u, fee, "worker_reward_credit", About(j, id))
  }

  /** A reward is paid whenever the job has a fee and it can be paid: the client is debited and
      the worker's user credited, each with a row. Otherwise the books stay as they are. */
  lemma SettlePays(check: ProofCheck, states: seq<State>, events: seq<Event>, i: nat, t: nat, ok: bool)
    requires Run(check, states, events) && i < |events| && events[i] == Settle(t, ok)
    ensures t in states[i].tasks && states[i].tasks[t].Payout?
    ensures var s, s', Payout(w, u, j, id) := states[i], states[i + 1], states[i].tasks[t];
            && s' == s.(book := s'.book, tasks := s.tasks - {t})
            && if ok && j in s.db.jobs && CanPay(s, u, j, Fee(s.db.jobs[j].file)) then FeeMoved(s, s'.book, u, j, id)
               else s'.book == s.book
  {
    assert Step(check, states[i], events[i], states[i + 1]);
    BooksAlwaysBalance(check, states, events, i);
    hide Run, BooksSound, PayReward;
    var s := states[i];
    var Payout(w, u, j, id) := s.tasks[t];
    assert !AlreadyPaid(s.book, j, id) && Balanced(s.book) by { BooksParts(check, states, events, i, j, id); }
    PaysIff(s, u, j, id);
  }

  lemma BooksParts(check: ProofCheck, states: seq<State>, events: seq<Event>, i: nat, j: int, id: int)
    requires Run(check, states, events) && i < |states|
    ensures !AlreadyPaid(states[i].book, j, id) && Balanced(states[i].book)
  {
    BooksAlwaysBalance(check, states, events, i);
    hide Run, Balanced, AlreadyPaid;
  }

  lemma PaysIff(s: State, u: int, j: int, id: int)
    requires !AlreadyPaid(s.book, j, id) && Balanced(s.book)
    ensures var pay := PayReward(s, u, j, id);
            if j in s.db.jobs && CanPay(s, u, j, Fee(s.db.jobs[j].file)) then
              pay.Some? && FeeMoved(s, pay.value, u, j, id)
            else pay.None?
  {
    hide AlreadyPaid, DeclaredSize, Sum;
    assert "worker_reward" + "_debit" == "worker_reward_debit";
    assert "worker_reward" + "_credit" == "worker_reward_credit";
  }

  /** Deposits add a thousand, withdrawals take a thousand, an upload costs its price; each only
      if the balance stays within its bounds. */
  lemma WalletMoves(check: ProofCheck, s: State, u: int, op: Wallet, s': State)
    requires Step(check, s, Pay(u, op), s')
    ensures var delta := match op case Deposit => 1_000 case Withdraw => -1_000 case UploadCharge(cost) => 0 - cost;
            var reason :=
              match op case Deposit => "deposit" case Withdraw => "withdraw" case UploadCharge(_) => "upload_cnf";
            && s' == s.(book := s'.book)
            && if u in s.book.balance && 0 <= s.book.balance[u] + delta <= 0x7FFF_FFFF_FFFF_FFFF then
                 Entered(s.book, s'.book, u, delta, reason, NoMeta)
               else s'.book == s.book
  {
  }

  // ---- Connections ----

  /** A connection gets the next id, is registered under its user, and is unregistered. */
  lemma ConnectionsComeAndGo(check: ProofCheck, s: State, w: int, u: int, s': State)
    ensures Step(check, s, Connect(u), s') && w == s.conns.nextId + 1 ==>
              s' == s.(conns := Conns(s.conns.users, w), phases := s.phases[w := Fresh(u)])
    ensures Step(check, s, Register(w), s') && InPhase(s, w, Fresh(u)) ==>
              s' == s.(conns := Conns(s.conns.users[w := u], s.conns.nextId), phases := s.phases[w := Live])
    ensures Step(check, s, Unregister(w), s') ==>
              s' == s.(conns := Conns(s.conns.users - {w}, s.conns.nextId), phases := s.phases[w := Leaving])
  {
  }

  /** New users start at zero, and proofs are kept as they were uploaded. */
  lemma SignUpsAndProofs(check: ProofCheck, s: State, u: int, p: int, proof: Proof, s': State)
    ensures Step(check, s, SignUp(u), s') ==> s' == s.(book := Book(s.book.balance[u := 0], s.book.rows))
    ensures Step(check, s, UploadProof(p, proof), s') ==> s' == s.(db := s.db.(proofs := s.db.proofs[p := proof]))
  {
  }

  /** At step k the server gave the connection w its id, for user u; it has not restarted since. */
  predicate OpenedBy(states: seq<State>, events: seq<Event>, k: nat, w: int, u: int) {
    k < |events| < |states| && events[k] == Connect(u) && states[k].conns.nextId + 1 == w
  }

  ghost predicate Opened(states: seq<State>, events: seq<Event>, i: nat, w: int, u: int) {
    exists k: nat :: k < i && OpenedBy(states, events, k, w, u)
                     && forall n :: k <= n < i <= |events| ==> !events[n].Restart?
  }

  ghost predicate UsersOpened(states: seq<State>, events: seq<Event>, i: nat)
    requires i < |states|
  {
    && (forall w :: w in states[i].conns.users ==> Opened(states, events, i, w, states[i].conns.users[w]))
    && (forall w :: w in states[i].phases && states[i].phases[w].Fresh? ==>
          Opened(states, events, i, w, states[i].phases[w].userId))
  }

  lemma OpenedLater(states: seq<State>, events: seq<Event>, i: nat, w: int, u: int)
    requires Opened(states, events, i, w, u) && i < |events| && !events[i].Restart?
    ensures Opened(states, events, i + 1, w, u)
  {
    hide OpenedBy;
  }

  lemma ConnectionStepOpened(check: ProofCheck, states: seq<State>, events: seq<Event>, i: nat)
    requires i < |events| < |states| && UsersOpened(states, events, i)
    requires Step(check, states[i], events[i], states[i + 1])
    requires var e := events[i]; e.Restart? || e.Connect? || e.Register? || e.Unregister? || e.Disconnect?
    ensures UsersOpened(states, events, i + 1)
  {
    var s, s', e := states[i], states[i + 1], events[i];
    if e.Connect? {
      assert OpenedBy(states, events, i, s.conns.nextId + 1, e.userId);
    }
    hide Opened;
    if e.Restart? {
      return;
    }
    forall w | w in s'.conns.users ensures Opened(states, events, i + 1, w, s'.conns.users[w]) {
      OpenedLater(states, events, i, w, s'.conns.users[w]);
    }
    forall w | w in s'.phases && s'.phases[w].Fresh? ensures Opened(states, events, i + 1, w, s'.phases[w].userId) {
      if w in s.phases && s.phases[w] == s'.phases[w] {
        OpenedLater(states, events, i, w, s'.phases[w].userId);
      } else {
        NowOpened(states, events, i, w, s'.phases[w].userId);
      }
    }
  }

  lemma NowOpened(states: seq<State>, events: seq<Event>, i: nat, w: int, u: int)
    requires OpenedBy(states, events, i, w, u)
    ensures Opened(states, events, i + 1, w, u)
  {
  }

  lemma OthersKeepConnections(check: ProofCheck, s: State, e: Event)
    requires Enabled(s, e) && !(e.Restart? || e.Connect? || e.Register? || e.Unregister? || e.Disconnect?)
    ensures Effect(check, s, e).conns == s.conns && Effect(check, s, e).phases == s.phases
  {
    if !Moves(e) {
      hide Effect, Enabled;
      OthersMoveNothing(check, s, e);
    } else if e.Pick? || e.Send? || e.Receive? || e.Finish? {
      QueuesKeepPhases(check, s, e);
      hide PickLive, MayWork;
    }
  }

  lemma KeptOpened(states: seq<State>, events: seq<Event>, i: nat)
    requires i < |events| < |states| && UsersOpened(states, events, i)
    requires states[i + 1].conns == states[i].conns && states[i + 1].phases == states[i].phases && !events[i].Restart?
    ensures UsersOpened(states, events, i + 1)
  {
    hide Opened;
    var s := states[i];
    forall w | w in s.conns.users ensures Opened(states, events, i + 1, w, s.conns.users[w]) {
      OpenedLater(states, events, i, w, s.conns.users[w]);
    }
    forall w | w in s.phases && s.phases[w].Fresh? ensures Opened(states, events, i + 1, w, s.phases[w].userId) {
      OpenedLater(states, events, i, w, s.phases[w].userId);
    }
  }

  /** A connection is registered under the user who opened it. */
  lemma {:induction false} RegisteredUsersOpened(check: ProofCheck, states: seq<State>, events: seq<Event>, i: nat)
    requires Run(check, states, events) && i < |states|
    ensures UsersOpened(states, events, i)
  {
    hide Effect, Enabled;
    if i > 0 {
      RegisteredUsersOpened(check, states, events, i - 1);
      assert Step(check, states[i - 1], events[i - 1], states[i]);
      hide UsersOpened;
      var e := events[i - 1];
      if e.Restart? || e.Connect? || e.Register? || e.Unregister? || e.Disconnect? {
        ConnectionStepOpened(check, states, events, i - 1);
      } else {
        OthersKeepConnections(check, states[i - 1], e);
        KeptOpened(states, events, i - 1);
      }
    }
  }

  /** A restart loses everything but the tables and the books. */
  lemma RestartKeepsTables(check: ProofCheck, s: State, s': State)
    requires Step(check, s, Restart, s')
    ensures s'.db == s.db && s'.book == s.book && s'.tasks == map[] && s'.lock == Free && s'.phases == map[]
    ensures s'.mem == Memory([], map[], {}) && s'.conns == Conns(map[], 0)
  {
  }
}
