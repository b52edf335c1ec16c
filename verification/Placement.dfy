/** Where every shard is when workers keep to the protocol: never in two places, and, while the
    server's own database work succeeds, never nowhere as long as its job is open. */
module Placement {
  import opened GoText
  import opened Dimacs
  import opened CubeApply
  import opened VerifySat
  import opened Kissat
  import opened Tables
  import opened DbSafety
  import opened Ledger
  import opened Protocol
  import opened Safety
  import opened Finality

  // ---- Honest runs ----

  /** Workers answer the assignments they were sent, in order, once each, naming the shard.
      Models and proofs may still be wrong. */
  predicate WorkersHonest(s: State, e: Event) {
    match e
    case Receive(w, res) =>
      OwedTo(s, w) != [] && OwedTo(s, w)[0].jobId == res.jobId && OwedTo(s, w)[0].shardId == res.shardId
    case _ => true
  }

  /** The server does not restart, and none of its lookups and writes of a result fails. Sends,
      penalties, payments and insertions may fail, and connections may break. */
  predicate ServerWorks(e: Event) {
    match e
    case Restart => false
    case Verify(_, lookupOk) => lookupOk
    case CommitSat(_, ok) => ok
    case Commit(_, ok) => ok
    case Reopen(_, ok) => ok
    case _ => true
  }

  ghost predicate HonestRun(check: ProofCheck, states: seq<State>, events: seq<Event>) {
    Run(check, states, events) && forall i :: 0 <= i < |events| ==> WorkersHonest(states[i], events[i])
  }

  predicate ServerWorksUntil(events: seq<Event>, i: nat) {
    forall n :: 0 <= n < i <= |events| ==> ServerWorks(events[n])
  }

  // ---- Places ----

  datatype Place = InQueue | InSlot(workerId: int) | InSend | InTask(task: nat) | Done

  predicate Listed(shs: seq<Shard>, id: int) {
    exists i :: 0 <= i < |shs| && shs[i].shardId == id
  }

  /** The shard a handler is working on. */
  predicate Carries(task: Task, id: int) {
    match task
    case Append(shs) => Listed(shs, id)
    case JudgeResult(_, _, res) => res.shardId == id
    case Penalise(_, _, x, _) => x == id
    case StoreSat(_, _, x, _) => x == id
    case CountUnsat(_, _, x, _) => x == id
    case FinishUnsat(_, _, x, _) => x == id
    case CommitUnsat(_, _, x, _, _) => x == id
    case Requeue(x) => x == id
    case _ => false
  }

  predicate IsAt(s: State, p: Place, id: int) {
    match p
    case InQueue => Listed(s.mem.pending, id)
    case InSlot(w) => w in s.mem.slots && s.mem.slots[w].shardId == id
    case InSend => s.lock.Sending? && s.lock.shard.shardId == id
    case InTask(t) => t in s.tasks && Carries(s.tasks[t], id)
    case Done => id in s.db.results
  }

  predicate NoRepeats(shs: seq<Shard>) {
    forall i, j :: 0 <= i < j < |shs| ==> shs[i].shardId != shs[j].shardId
  }

  ghost predicate AtMostOnePlace(s: State) {
    forall p: Place, q: Place, id: int :: IsAt(s, p, id) && IsAt(s, q, id) ==> p == q
  }

  ghost predicate Somewhere(s: State, id: int) {
    exists p: Place :: IsAt(s, p, id)
  }

  /** The shards of open jobs are somewhere. */
  ghost predicate NoneLost(s: State) {
    forall id :: id in s.db.shards && s.db.shards[id].jobId !in s.mem.completed ==> Somewhere(s, id)
  }

  /** Only shards with rows are anywhere. */
  ghost predicate OnlyRows(s: State) {
    forall p: Place, id: int :: IsAt(s, p, id) ==> id in s.db.shards
  }

  /** No list of shards repeats one. */
  predicate ListsClean(s: State) {
    && NoRepeats(s.mem.pending)
    && forall t :: t in s.tasks && s.tasks[t].Append? ==> NoRepeats(s.tasks[t].shards)
  }

  /** A live connection is owed an answer exactly for the shard in its slot. */
  ghost predicate OwedIsHeld(s: State) {
    && (forall w :: InPhase(s, w, Live) ==> OwedTo(s, w) == if w in s.mem.slots then [s.mem.slots[w]] else [])
    && (forall w :: w !in s.phases || s.phases[w].Fresh? ==> OwedTo(s, w) == [])
  }

  /** A result being judged names a shard of the job it names. */
  predicate NamesRows(s: State) {
    forall t :: t in s.tasks && s.tasks[t].JudgeResult? ==> RowOf(s.db, s.tasks[t].res.jobId, s.tasks[t].res.shardId)
  }

  ghost predicate Located(s: State) {
    AtMostOnePlace(s) && OnlyRows(s)
  }

  /** Nothing is in two places after the step, nor lost by it. */
  ghost predicate Stays(s: State, s': State) {
    Located(s') && (NoneLost(s) ==> NoneLost(s'))
  }

  ghost predicate Placed(s: State) {
    Located(s) && ListsClean(s) && OwedIsHeld(s) && NamesRows(s)
  }

  // ---- Moving shards ----

  /** The rows of `s` are those of `s'`, except for new ones in `xs`; no job is reopened. */
  ghost predicate RowsKept(s: State, s': State, xs: set<int>) {
    && (forall id :: id in s.db.shards ==> id in s'.db.shards && s'.db.shards[id].jobId == s.db.shards[id].jobId)
    && (forall id :: id in s'.db.shards ==> id in s.db.shards || id in xs)
    && s.mem.completed <= s'.mem.completed
  }

  ghost predicate SamePlaces(s: State, s': State) {
    forall p: Place, id: int :: IsAt(s', p, id) <==> IsAt(s, p, id)
  }

  /** The shards `xs` go to one place, all others stay. */
  ghost predicate Moved(s: State, s': State, xs: set<int>, to: Place) {
    forall p: Place, id: int :: IsAt(s', p, id) <==> if id in xs then p == to else IsAt(s, p, id)
  }

  /** Nothing moves, but shards of completed jobs may be dropped. */
  ghost predicate Dropped(s: State, s': State) {
    && (forall p: Place, id: int :: IsAt(s', p, id) ==> IsAt(s, p, id))
    && (forall p: Place, id: int :: IsAt(s, p, id) ==>
          IsAt(s', p, id) || (id in s.db.shards && s.db.shards[id].jobId in s.mem.completed))
  }

  lemma MoveKeeps(s: State, s': State, xs: set<int>, to: Place)
    requires Located(s) && RowsKept(s, s', xs) && Moved(s, s', xs, to)
    requires forall x :: x in xs ==> x in s'.db.shards
    ensures Stays(s, s')
  {
    hide IsAt;
    forall id | NoneLost(s) && id in s'.db.shards && s'.db.shards[id].jobId !in s'.mem.completed
      ensures Somewhere(s', id) {
      if id in xs {
        assert IsAt(s', to, id);
      } else {
        assert Somewhere(s, id);
        var p: Place :| IsAt(s, p, id);
        assert IsAt(s', p, id);
      }
    }
  }

  lemma StayKeeps(s: State, s': State)
    requires Located(s) && RowsKept(s, s', {}) && SamePlaces(s, s')
    ensures Stays(s, s')
  {
    hide IsAt, Located, RowsKept;
    assert Moved(s, s', {}, InQueue);
    MoveKeeps(s, s', {}, InQueue);
  }

  lemma DropKeeps(s: State, s': State)
    requires Located(s) && RowsKept(s, s', {}) && Dropped(s, s')
    ensures Stays(s, s')
  {
    hide IsAt;
    forall id | NoneLost(s) && id in s'.db.shards && s'.db.shards[id].jobId !in s'.mem.completed
      ensures Somewhere(s', id) {
      assert Somewhere(s, id);
      var p: Place :| IsAt(s, p, id);
      assert IsAt(s', p, id);
    }
  }

  /** A goroutine that gives up, after a failed lookup or write, leaves at most fewer places. */
  lemma EndLocated(s: State, t: nat)
    requires Located(s)
    ensures Located(End(s, t))
  {
    hide Carries, Listed;
    var s' := End(s, t);
    forall p: Place, id: int | IsAt(s', p, id) ensures IsAt(s, p, id) {
    }
  }

  /** Of all places, a restart leaves the stored results. */
  lemma RestartLocated(check: ProofCheck, s: State)
    requires Located(s)
    ensures Located(Effect(check, s, Restart))
  {
    hide Carries;
    var s' := Effect(check, s, Restart);
    forall p: Place, id: int | IsAt(s', p, id) ensures IsAt(s, p, id) {
    }
  }

  lemma ListedConcat(a: seq<Shard>, b: seq<Shard>, id: int)
    ensures Listed(a + b, id) <==> Listed(a, id) || Listed(b, id)
  {
    if i :| 0 <= i < |a| && a[i].shardId == id {
      assert (a + b)[i].shardId == id;
    }
    if i :| 0 <= i < |b| && b[i].shardId == id {
      assert (a + b)[|a| + i].shardId == id;
    }
  }

  // ---- Steps that leave every shard where it is ----

  /** A task is replaced by one that carries the same shards. */
  lemma BecomeSame(s: State, t: nat, task: Task)
    requires t in s.tasks && forall id :: Carries(task, id) <==> Carries(s.tasks[t], id)
    ensures SamePlaces(s, Become(s, t, task))
  {
    hide Carries;
  }

  /** Fields in which no shard is kept do not matter. */
  lemma SameWhere(s: State, s': State)
    requires s'.mem.pending == s.mem.pending && s'.mem.slots == s.mem.slots && s'.lock == s.lock && s'.tasks == s.tasks
    requires s'.db.results == s.db.results
    ensures SamePlaces(s, s')
  {
    hide Carries, Listed;
  }

  lemma EndEmpty(s: State, t: nat)
    requires t in s.tasks && forall id :: !Carries(s.tasks[t], id)
    ensures SamePlaces(s, End(s, t))
  {
    hide Carries;
  }

  lemma SpawnEmpty(s: State, task: Task)
    requires s.nextTask !in s.tasks && forall id :: !Carries(task, id)
    ensures SamePlaces(s, Spawn(s, task))
  {
    hide Carries;
  }

  lemma SameTwice(a: State, b: State, c: State)
    requires SamePlaces(a, b) && SamePlaces(b, c)
    ensures SamePlaces(a, c)
  {
    hide IsAt;
  }

  lemma UploadStays(s: State, j: int, row: JobRow)
    requires s.nextTask !in s.tasks
    ensures var s' := Spawn(s.(db := s.db.(jobs := s.db.jobs[j := row])), SplitJob(j));
            SamePlaces(s, s') && RowsKept(s, s', {})
  {
    hide IsAt, Spawn;
    var s1 := s.(db := s.db.(jobs := s.db.jobs[j := row]));
    SameWhere(s, s1);
    SpawnEmpty(s1, SplitJob(j));
    SameTwice(s, s1, Spawn(s1, SplitJob(j)));
    SpawnElsewhere(s1, SplitJob(j));
  }

  lemma SpawnElsewhere(s: State, task: Task)
    ensures Spawn(s, task).db == s.db && Spawn(s, task).mem == s.mem
  {
  }

  /** A status is written while a goroutine moves on with the same shards. */
  lemma StatusStays(s: State, db: Database, t: nat, task: Task)
    requires t in s.tasks && forall id :: Carries(task, id) <==> Carries(s.tasks[t], id)
    requires db.results == s.db.results && Extends(s.db, db) && NoNewRows(s.db, db)
    ensures var s' := Become(s.(db := db), t, task); SamePlaces(s, s') && RowsKept(s, s', {})
  {
    hide IsAt, Carries;
    var s1 := s.(db := db);
    SameWhere(s, s1);
    BecomeSame(s1, t, task);
    SameTwice(s, s1, Become(s1, t, task));
  }

  lemma StatusOnly(db: Database, id: int, status: Status)
    ensures var b := SetShardStatus(db, id, status); b.results == db.results && Extends(db, b) && NoNewRows(db, b)
    ensures var b := SetJobStatus(db, id, status); b.results == db.results && Extends(db, b) && NoNewRows(db, b)
  {
    ShardStatusExtends(db, id, status);
    JobStatusExtends(db, id, status);
    hide Extends;
  }

  // ---- Steps that move a shard ----

  lemma OnlyAt(s: State, from: Place, x: int, p: Place)
    requires Located(s) && IsAt(s, from, x)
    ensures IsAt(s, p, x) ==> p == from
  {
    hide IsAt;
  }

  lemma QueueMoves(s: State, t: nat)
    requires Located(s) && t in s.tasks && s.tasks[t].Append?
    ensures var shs := s.tasks[t].shards;
            Moved(s, End(WithQueue(s, s.mem.pending + shs), t), set i | 0 <= i < |shs| :: shs[i].shardId, InQueue)
  {
    var shs := s.tasks[t].shards;
    var xs := set i | 0 <= i < |shs| :: shs[i].shardId;
    var s' := End(WithQueue(s, s.mem.pending + shs), t);
    forall p: Place, id: int ensures IsAt(s', p, id) <==> if id in xs then p == InQueue else IsAt(s, p, id) {
      ListedConcat(s.mem.pending, shs, id);
      assert id in xs <==> Listed(shs, id);
      hide Listed;
      if id in xs {
        OnlyAt(s, InTask(t), id, p);
      }
    }
  }

  lemma ReceiveMoves(s: State, w: int, res: Result)
    requires Located(s) && w in s.mem.slots && s.mem.slots[w].shardId == res.shardId && s.nextTask !in s.tasks
    ensures Moved(s, ReceiveStep(s, w, res), {res.shardId}, InTask(s.nextTask))
  {
    hide Listed;
    var s' := ReceiveStep(s, w, res);
    assert IsAt(s, InSlot(w), res.shardId);
    forall p: Place, id: int
      ensures IsAt(s', p, id) <==> if id == res.shardId then p == InTask(s.nextTask) else IsAt(s, p, id) {
      OnlyAt(s, InSlot(w), res.shardId, p);
    }
  }

  lemma DisconnectMoves(s: State, w: int)
    requires Located(s) && s.nextTask !in s.tasks
    ensures if w in s.mem.slots then Moved(s, DisconnectStep(s, w), {s.mem.slots[w].shardId}, InTask(s.nextTask))
            else SamePlaces(s, DisconnectStep(s, w))
  {
    hide Listed;
    var s' := DisconnectStep(s, w);
    if w in s.mem.slots {
      var x := s.mem.slots[w].shardId;
      assert IsAt(s, InSlot(w), x);
      forall p: Place, id: int
        ensures IsAt(s', p, id) <==> if id == x then p == InTask(s.nextTask) else IsAt(s, p, id) {
        OnlyAt(s, InSlot(w), x, p);
      }
    }
  }

  /** A result row is stored and the goroutine goes on without the shard. */
  lemma StoreMoves(s: State, db: Database, t: nat, task: Task, x: int, finding: Finding)
    requires Located(s) && t in s.tasks && (forall id :: Carries(s.tasks[t], id) <==> id == x)
    requires (forall id :: !Carries(task, id)) && db.results == s.db.results[x := finding]
    ensures Moved(s, Become(s.(db := db), t, task), {x}, Done)
  {
    hide Carries, Listed;
    var s' := Become(s.(db := db), t, task);
    assert IsAt(s, InTask(t), x);
    forall p: Place, id: int ensures IsAt(s', p, id) <==> if id == x then p == Done else IsAt(s, p, id) {
      OnlyAt(s, InTask(t), x, p);
    }
  }

  lemma SendMoves(s: State, ok: bool)
    requires Located(s) && s.lock.Sending? && s.lock.workerId !in s.mem.slots && s.nextTask !in s.tasks
    ensures Moved(s, SendStep(s, ok), {s.lock.shard.shardId}, if ok then InSlot(s.lock.workerId) else InQueue)
  {
    var x, to := s.lock.shard.shardId, if ok then InSlot(s.lock.workerId) else InQueue;
    var s' := SendStep(s, ok);
    assert IsAt(s, InSend, x);
    forall p: Place, id: int ensures IsAt(s', p, id) <==> if id == x then p == to else IsAt(s, p, id) {
      OnlyAt(s, InSend, x, p);
      ListedConcat([s.lock.shard], s.mem.pending, id);
      assert Listed([s.lock.shard], id) <==> id == x by { ListedOne(s.lock.shard, id); }
      hide Listed;
    }
  }

  lemma ListedOne(sh: Shard, id: int)
    ensures Listed([sh], id) <==> id == sh.shardId
  {
    assert [sh][0] == sh;
  }

  // ---- Picking ----

  lemma {:induction false} PickSplits(pending: seq<Shard>, completed: set<int>) returns (n: nat)
    ensures n <= |pending| && forall i :: 0 <= i < n ==> pending[i].jobId in completed
    ensures var p := PickLive(pending, completed);
            pending[n..] == (if p.shard.Some? then [p.shard.value] else []) + p.rest
            && (p.shard.None? ==> p.rest == [])
  {
    if pending == [] {
      n := 0;
    } else if pending[0].jobId in completed {
      var m := PickSplits(pending[1..], completed);
      n := m + 1;
      assert pending[1..][m..] == pending[n..];
    } else {
      n := 0;
    }
  }

  /** Dropping a prefix of completed shards from the queue. */
  lemma SuffixDrops(s: State, n: nat)
    requires n <= |s.mem.pending| && AllGenuine(s.db, s.mem.pending)
    requires forall i :: 0 <= i < n ==> s.mem.pending[i].jobId in s.mem.completed
    ensures Dropped(s, WithQueue(s, s.mem.pending[n..])) && RowsKept(s, WithQueue(s, s.mem.pending[n..]), {})
  {
    hide Carries;
    var pending := s.mem.pending;
    var s' := WithQueue(s, pending[n..]);
    assert pending == pending[..n] + pending[n..];
    forall id ensures Listed(pending, id) <==> Listed(pending[..n], id) || Listed(pending[n..], id) {
      ListedConcat(pending[..n], pending[n..], id);
    }
    forall id | Listed(pending[..n], id) ensures id in s.db.shards && s.db.shards[id].jobId in s.mem.completed {
      var i :| 0 <= i < n && pending[..n][i].shardId == id;
      assert Genuine(s.db, pending[i]);
    }
    hide Listed;
  }

  /** Taking the first shard of the queue in hand. */
  lemma TakeMoves(s: State, sh: Shard, rest: seq<Shard>, w: int, userId: int)
    requires Located(s) && s.lock.Free? && s.mem.pending == [sh] + rest && NoRepeats(s.mem.pending)
    ensures Moved(s, WithQueue(s, rest).(lock := Sending(w, userId, sh)), {sh.shardId}, InSend)
  {
    hide Carries;
    var s' := WithQueue(s, rest).(lock := Sending(w, userId, sh));
    forall id ensures Listed(s.mem.pending, id) <==> id == sh.shardId || Listed(rest, id) {
      ListedConcat([sh], rest, id);
      ListedOne(sh, id);
    }
    assert !Listed(rest, sh.shardId) by {
      assert forall i :: 0 <= i < |rest| ==> rest[i] == s.mem.pending[i + 1] && s.mem.pending[0] == sh;
    }
    hide Listed;
    assert IsAt(s, InQueue, sh.shardId);
    forall p: Place, id: int ensures IsAt(s', p, id) <==> if id == sh.shardId then p == InSend else IsAt(s, p, id) {
      OnlyAt(s, InQueue, sh.shardId, p);
    }
  }

  lemma SuffixNoRepeats(shs: seq<Shard>, n: nat)
    requires n <= |shs| && NoRepeats(shs)
    ensures NoRepeats(shs[n..])
  {
  }

  lemma PickKeeps(s: State, w: int, readable: bool)
    requires Located(s) && s.lock.Free? && NoRepeats(s.mem.pending) && AllGenuine(s.db, s.mem.pending)
    ensures Stays(s, PickStep(s, w, readable)) && NoRepeats(PickStep(s, w, readable).mem.pending)
  {
    hide Located, NoneLost, Genuine, PickLive, NoRepeats, RowsKept, Moved, Dropped;
    if w !in s.mem.slots {
      var p := PickLive(s.mem.pending, s.mem.completed);
      var n := PickSplits(s.mem.pending, s.mem.completed);
      var s1 := WithQueue(s, s.mem.pending[n..]);
      SuffixDrops(s, n);
      DropKeeps(s, s1);
      SuffixNoRepeats(s.mem.pending, n);
      if p.shard.Some? && readable && MayWork(s.conns, s.book, w) {
        var sh := p.shard.value;
        assert s1.mem.pending == [sh] + p.rest;
        assert s1.mem.pending[1..] == p.rest;
        SuffixNoRepeats(s1.mem.pending, 1);
        TakeMoves(s1, sh, p.rest, w, s.conns.users[w]);
        assert s.mem.pending[n] == s1.mem.pending[0];
        GenuineHasRow(s.db, s.mem.pending[n]);
        Taken(s1, sh, p.rest, w);
        assert PickStep(s, w, readable) == WithQueue(s1, p.rest).(lock := Sending(w, s.conns.users[w], sh));
      } else {
        assert PickStep(s, w, readable) == s1;
      }
    }
  }

  lemma Taken(s: State, sh: Shard, rest: seq<Shard>, w: int)
    requires Located(s) && s.lock.Free? && s.mem.pending == [sh] + rest && NoRepeats(s.mem.pending)
    requires w in s.conns.users && sh.shardId in s.db.shards
    ensures Stays(s, WithQueue(s, rest).(lock := Sending(w, s.conns.users[w], sh)))
  {
    hide Located, NoneLost, NoRepeats, Moved;
    TakeMoves(s, sh, rest, w, s.conns.users[w]);
    MoveKeeps(s, WithQueue(s, rest).(lock := Sending(w, s.conns.users[w], sh)), {sh.shardId}, InSend);
  }

  lemma GenuineHasRow(db: Database, sh: Shard)
    requires Genuine(db, sh)
    ensures sh.shardId in db.shards
  {
  }

  // ---- The remaining moves ----

  lemma InsertMoves(s: State, t: nat, ids: seq<int>, db: Database, shs: seq<Shard>)
    requires Located(s) && t in s.tasks && s.tasks[t].SplitJob?
    requires (forall i :: 0 <= i < |ids| ==> ids[i] !in s.db.shards) && |shs| == |ids|
    requires (forall i :: 0 <= i < |ids| ==> shs[i].shardId == ids[i]) && db.results == s.db.results
    ensures Moved(s, Become(s.(db := db), t, Append(shs)), (set x | x in ids), InTask(t))
  {
    var xs := set x | x in ids;
    var s' := Become(s.(db := db), t, Append(shs));
    forall p: Place, id: int ensures IsAt(s', p, id) <==> if id in xs then p == InTask(t) else IsAt(s, p, id) {
      assert id in xs <==> Listed(shs, id) by { ListedIds(shs, ids, id); }
      hide Listed;
      if id in xs {
        NotYet(s, p, id);
      }
    }
  }

  lemma ListedIds(shs: seq<Shard>, ids: seq<int>, id: int)
    requires |shs| == |ids| && forall i :: 0 <= i < |ids| ==> shs[i].shardId == ids[i]
    ensures Listed(shs, id) <==> id in ids
  {
  }

  lemma NotYet(s: State, p: Place, id: int)
    requires Located(s) && id !in s.db.shards
    ensures !IsAt(s, p, id)
  {
    hide IsAt;
  }

  lemma InsertLocated(s: State, t: nat, ids: seq<int>, ok: bool)
    requires Located(s) && t in s.tasks && s.tasks[t].SplitJob? && s.tasks[t].jobId in s.db.jobs
    requires FreshIds(s.db, s.tasks[t].jobId, ids)
    ensures Stays(s, SplitStep(s, t, ids, ok))
  {
    hide Located, NoneLost, CubesOf, Valid, IsAt, InsertShards;
    var j := s.tasks[t].jobId;
    var cubes := CubesOf(s.db.jobs[j]);
    if !Valid(s.db.jobs[j].file) {
      BecomeSame(s, t, RejectJob(j));
      StayKeeps(s, Become(s, t, RejectJob(j)));
    } else if cubes.None? || !ok {
      EndEmpty(s, t);
      StayKeeps(s, End(s, t));
    } else {
      var db, shs := InsertShards(s.db, j, ids, cubes.value), NewShards(j, ids, cubes.value);
      InsertedKeys(s.db, j, ids, cubes.value);
      InsertMoves(s, t, ids, db, shs);
      MoveKeeps(s, Become(s.(db := db), t, Append(shs)), (set x | x in ids), InTask(t));
    }
  }

  lemma VerifyLocated(check: ProofCheck, s: State, t: nat, lookupOk: bool)
    requires Located(s) && t in s.tasks && s.tasks[t].JudgeResult?
    requires RowOf(s.db, s.tasks[t].res.jobId, s.tasks[t].res.shardId)
    ensures Located(VerifyStep(check, s, t, lookupOk))
    ensures lookupOk ==> Stays(s, VerifyStep(check, s, t, lookupOk))
  {
    hide Located, NoneLost, IsAt, Accepts, ParsedAssignment, Prepared, TrimSpace, Atoi;
    var JudgeResult(w, userId, res) := s.tasks[t];
    match Judge(check, s.db, res, lookupOk)
    case Dropped => EndLocated(s, t);
    case Rejected(why) => ContinuesLocated(s, t, Penalise(userId, res.jobId, res.shardId, why));
    case SatProved(a) => ContinuesLocated(s, t, StoreSat(w, res.jobId, res.shardId, a));
    case UnsatProved(d) => ContinuesLocated(s, t, CountUnsat(w, res.jobId, res.shardId, d));
  }

  lemma ContinuesLocated(s: State, t: nat, task: Task)
    requires Located(s) && t in s.tasks && forall id :: Carries(task, id) <==> Carries(s.tasks[t], id)
    ensures Stays(s, Become(s, t, task))
  {
    hide Located, NoneLost, IsAt, Carries;
    BecomeSame(s, t, task);
    StayKeeps(s, Become(s, t, task));
  }

  lemma PunishLocated(s: State, t: nat, ok: bool)
    requires Located(s) && t in s.tasks && s.tasks[t].Penalise?
    ensures Stays(s, PunishStep(s, t, ok))
  {
    hide Located, NoneLost, IsAt, Change;
    var s' := PunishStep(s, t, ok);
    var s1 := Become(s, t, Requeue(s.tasks[t].shardId));
    BecomeSame(s, t, Requeue(s.tasks[t].shardId));
    SameWhere(s1, s');
    SameTwice(s, s1, s');
    StayKeeps(s, s');
  }

  lemma CountLocated(s: State, t: nat)
    requires Located(s) && t in s.tasks && s.tasks[t].CountUnsat?
    ensures Stays(s, CountStep(s, t))
  {
    hide Located, NoneLost, IsAt, AllRefuted, StoreUnsatShard;
    var CountUnsat(w, j, id, d) := s.tasks[t];
    BecomeSame(s, t, FinishUnsat(w, j, id, d));
    BecomeSame(s, t, CommitUnsat(w, j, id, d, false));
    StayKeeps(s, CountStep(s, t));
  }

  lemma FinishLocated(s: State, t: nat)
    requires Located(s) && t in s.tasks && (s.tasks[t].FinishSat? || s.tasks[t].FinishUnsat?)
    ensures Stays(s, FinishStep(s, t))
  {
    hide Located, NoneLost, IsAt;
    var s1 := MarkComplete(s, s.tasks[t].jobId);
    var task := match s.tasks[t]
      case FinishSat(w, j, id) => Reward(w, j, id)
      case FinishUnsat(w, j, id, d) => CommitUnsat(w, j, id, d, true);
    SameWhere(s, s1);
    BecomeSame(s1, t, task);
    SameTwice(s, s1, Become(s1, t, task));
    StayKeeps(s, FinishStep(s, t));
  }

  lemma CommitSatLocated(s: State, t: nat, ok: bool)
    requires Located(s) && t in s.tasks && s.tasks[t].StoreSat? && RowOf(s.db, s.tasks[t].jobId, s.tasks[t].shardId)
    ensures Located(CommitSatStep(s, t, ok)) && (ok ==> Stays(s, CommitSatStep(s, t, ok)))
  {
    hide Located, NoneLost, IsAt, Extends;
    if !ok {
      EndLocated(s, t);
      return;
    }
    var StoreSat(w, j, id, a) := s.tasks[t];
    var db := StoreSatResult(s.db, j, id, a);
    StoreMoves(s, db, t, FinishSat(w, j, id), id, FoundSat(a));
    DecidedExtends(s.db, j, id, FoundSat(a), JobSat(a));
    StoreSatNoNewRows(s.db, j, id, a);
    hide StoreSatResult;
    StoredRows(s, db, t, FinishSat(w, j, id), id);
    MoveKeeps(s, Become(s.(db := db), t, FinishSat(w, j, id)), {id}, Done);
  }

  lemma CommitLocated(s: State, t: nat, ok: bool)
    requires Located(s) && t in s.tasks && s.tasks[t].CommitUnsat? && RowOf(s.db, s.tasks[t].jobId, s.tasks[t].shardId)
    ensures Located(CommitStep(s, t, ok)) && (ok ==> Stays(s, CommitStep(s, t, ok)))
  {
    hide Located, NoneLost, IsAt, Extends;
    if !ok {
      EndLocated(s, t);
      return;
    }
    var CommitUnsat(w, j, id, d, all) := s.tasks[t];
    var db := StoreUnsatResult(s.db, j, id, d, all);
    StoreMoves(s, db, t, Reward(w, j, id), id, FoundUnsat(d));
    DecidedExtends(s.db, j, id, FoundUnsat(d), JobUnsat);
    StoreUnsatNoNewRows(s.db, j, id, d, all);
    hide StoreUnsatResult;
    StoredRows(s, db, t, Reward(w, j, id), id);
    MoveKeeps(s, Become(s.(db := db), t, Reward(w, j, id)), {id}, Done);
  }

  lemma StoredRows(s: State, db: Database, t: nat, task: Task, id: int)
    requires Extends(s.db, db) && NoNewRows(s.db, db)
    ensures RowsKept(s, Become(s.(db := db), t, task), {id})
  {
  }

  lemma ReopenLocated(s: State, t: nat, ok: bool)
    requires Located(s) && t in s.tasks && s.tasks[t].Requeue? && s.tasks[t].shardId in s.db.shards
    ensures Located(ReopenStep(s, t, ok)) && (ok ==> Stays(s, ReopenStep(s, t, ok)))
  {
    hide Located, NoneLost, IsAt, SetShardStatus;
    if !ok {
      EndLocated(s, t);
      return;
    }
    var id := s.tasks[t].shardId;
    var row := s.db.shards[id];
    var db, sh := SetShardStatus(s.db, id, Status.Pending), Shard(row.jobId, id, row.cube, 0);
    StatusOnly(s.db, id, Status.Pending);
    forall x ensures Carries(Append([sh]), x) <==> x == id {
      ListedOne(sh, x);
    }
    StatusStays(s, db, t, Append([sh]));
    StayKeeps(s, Become(s.(db := db), t, Append([sh])));
  }

  lemma QueueLocated(s: State, t: nat)
    requires Located(s) && t in s.tasks && s.tasks[t].Append?
    ensures Stays(s, End(WithQueue(s, s.mem.pending + s.tasks[t].shards), t))
  {
    var shs := s.tasks[t].shards;
    var xs := set i | 0 <= i < |shs| :: shs[i].shardId;
    var s' := End(WithQueue(s, s.mem.pending + shs), t);
    QueueMoves(s, t);
    forall x | x in xs ensures x in s'.db.shards {
      assert Carries(s.tasks[t], x);
      assert IsAt(s, InTask(t), x);
    }
    hide Located, NoneLost, IsAt;
    MoveKeeps(s, s', xs, InQueue);
  }

  lemma ReceiveLocated(s: State, w: int, res: Result)
    requires Located(s) && w in s.mem.slots && s.mem.slots[w].shardId == res.shardId && s.nextTask !in s.tasks
    ensures Stays(s, ReceiveStep(s, w, res))
  {
    ReceiveMoves(s, w, res);
    assert IsAt(s, InSlot(w), res.shardId);
    InRows(s, InSlot(w), res.shardId);
    hide Located, NoneLost, IsAt;
    MoveKeeps(s, ReceiveStep(s, w, res), {res.shardId}, InTask(s.nextTask));
  }

  lemma InRows(s: State, p: Place, id: int)
    requires Located(s) && IsAt(s, p, id)
    ensures id in s.db.shards
  {
    hide IsAt;
  }

  lemma DisconnectLocated(s: State, w: int)
    requires Located(s) && s.nextTask !in s.tasks
    ensures Stays(s, DisconnectStep(s, w))
  {
    DisconnectMoves(s, w);
    if w in s.mem.slots {
      var id := s.mem.slots[w].shardId;
      assert IsAt(s, InSlot(w), id);
      InRows(s, InSlot(w), id);
      hide Located, NoneLost, IsAt;
      MoveKeeps(s, DisconnectStep(s, w), {id}, InTask(s.nextTask));
    } else {
      hide Located, NoneLost, IsAt;
      StayKeeps(s, DisconnectStep(s, w));
    }
  }

  lemma SendLocated(s: State, ok: bool)
    requires Located(s) && s.lock.Sending? && s.lock.workerId !in s.mem.slots && s.nextTask !in s.tasks
    ensures Stays(s, SendStep(s, ok))
  {
    var id := s.lock.shard.shardId;
    SendMoves(s, ok);
    assert IsAt(s, InSend, id);
    InRows(s, InSend, id);
    hide Located, NoneLost, IsAt;
    MoveKeeps(s, SendStep(s, ok), {id}, if ok then InSlot(s.lock.workerId) else InQueue);
  }

  lemma StartedLocated(check: ProofCheck, s: State, t: nat, ok: bool)
    requires Located(s) && Enabled(s, Started(t, ok))
    ensures Stays(s, Effect(check, s, Started(t, ok)))
  {
    hide Located, NoneLost, IsAt, SetShardStatus, Extends;
    var db := SetShardStatus(s.db, s.tasks[t].shardId, Status.Running);
    StatusOnly(s.db, s.tasks[t].shardId, Status.Running);
    var s1 := if ok then s.(db := db) else s;
    SameWhere(s, s1);
    EndEmpty(s1, t);
    SameTwice(s, s1, End(s1, t));
    ExtendsKeepsRows(s, End(s1, t));
    StayKeeps(s, End(s1, t));
  }

  lemma ExtendsKeepsRows(s: State, s': State)
    requires (s'.db == s.db || (Extends(s.db, s'.db) && NoNewRows(s.db, s'.db))) && s.mem.completed <= s'.mem.completed
    ensures RowsKept(s, s', {})
  {
  }

  lemma RejectLocated(check: ProofCheck, s: State, t: nat, ok: bool)
    requires Located(s) && Enabled(s, Reject(t, ok))
    ensures Stays(s, Effect(check, s, Reject(t, ok)))
  {
    hide Located, NoneLost, IsAt, SetJobStatus, Extends;
    StatusOnly(s.db, s.tasks[t].jobId, Status.Failed);
    var s1 := if ok then s.(db := SetJobStatus(s.db, s.tasks[t].jobId, Status.Failed)) else s;
    var s' := Become(s1, t, AbandonJob(s.tasks[t].jobId));
    SameWhere(s, s1);
    BecomeSame(s1, t, AbandonJob(s.tasks[t].jobId));
    SameTwice(s, s1, s');
    ExtendsKeepsRows(s, s');
    StayKeeps(s, s');
  }

  /** Steps of the wallet, of connections, of the settlement and of proof uploads. */
  lemma OutsideLocated(check: ProofCheck, s: State, e: Event)
    requires Located(s) && Enabled(s, e)
    requires e.SignUp? || e.Pay? || e.UploadProof? || e.Connect? || e.Register? || e.Unregister?
    ensures Stays(s, Effect(check, s, e))
  {
    var s' := Effect(check, s, e);
    SameWhere(s, s');
    hide Located, NoneLost, IsAt;
    StayKeeps(s, s');
  }

  lemma ResolveLocated(check: ProofCheck, s: State, t: nat)
    requires Located(s) && Enabled(s, Resolve(t))
    ensures Stays(s, Effect(check, s, Resolve(t)))
  {
    hide Located, NoneLost, IsAt;
    var Reward(w, j, id) := s.tasks[t];
    if w in s.conns.users {
      BecomeSame(s, t, Payout(w, s.conns.users[w], j, id));
    } else {
      EndEmpty(s, t);
    }
    StayKeeps(s, ResolveStep(s, t));
  }

  lemma EndingLocated(check: ProofCheck, s: State, e: Event)
    requires Located(s) && Enabled(s, e) && (e.Abandon? || e.Settle?)
    ensures Stays(s, Effect(check, s, e))
  {
    hide Located, NoneLost, IsAt, PayReward;
    var s' := Effect(check, s, e);
    var s1 := End(s, e.task);
    EndEmpty(s, e.task);
    SameWhere(s1, s');
    SameTwice(s, s1, s');
    StayKeeps(s, s');
  }

  // ---- All steps of honest runs ----

  lemma HonestReceive(s: State, w: int, res: Result)
    requires OwedIsHeld(s) && InPhase(s, w, Live) && WorkersHonest(s, Receive(w, res))
    ensures w in s.mem.slots && s.mem.slots[w].shardId == res.shardId && s.mem.slots[w].jobId == res.jobId
    ensures OwedTo(s, w) == [s.mem.slots[w]]
  {
  }

  lemma TaskRows(check: ProofCheck, s: State, t: nat)
    requires Safe(check, s) && t in s.tasks
    ensures s.tasks[t].StoreSat? || s.tasks[t].CommitUnsat? ==> RowOf(s.db, s.tasks[t].jobId, s.tasks[t].shardId)
  {
    hide DbSound, Accepts, Evident, Refuted, MemorySound, SplitOnce;
    assert TaskSound(check, s.db, s.tasks[t]);
  }

  lemma HandlerLocated(check: ProofCheck, s: State, e: Event)
    requires Located(s) && NamesRows(s) && Safe(check, s) && Enabled(s, e)
    requires e.Insert? || e.Verify? || e.Punish? || e.CommitSat? || e.Count? || e.Commit? || e.Reopen?
    ensures Located(Effect(check, s, e)) && (ServerWorks(e) ==> Stays(s, Effect(check, s, e)))
  {
    hide Safe, Located, NoneLost, VerifyStep, PunishStep, CommitSatStep, CountStep, CommitStep, ReopenStep, SplitStep,
         FreshIds;
    match e
    case Insert(t, ids, ok) => InsertLocated(s, t, ids, ok);
    case Verify(t, lookupOk) => VerifyLocated(check, s, t, lookupOk);
    case Punish(t, ok) => PunishLocated(s, t, ok);
    case CommitSat(t, ok) => TaskRows(check, s, t); CommitSatLocated(s, t, ok);
    case Count(t) => CountLocated(s, t);
    case Commit(t, ok) => TaskRows(check, s, t); CommitLocated(s, t, ok);
    case Reopen(t, ok) => RequeueHasRow(s, t); ReopenLocated(s, t, ok);
  }

  lemma SlotsLocated(check: ProofCheck, s: State, e: Event)
    requires Located(s) && OwedIsHeld(s) && s.nextTask !in s.tasks && Enabled(s, e) && WorkersHonest(s, e)
    requires e.Disconnect? || e.Receive?
    ensures Stays(s, Effect(check, s, e))
  {
    hide Located, NoneLost, ReceiveStep, DisconnectStep, OwedIsHeld;
    match e
    case Disconnect(w) => DisconnectLocated(s, w);
    case Receive(w, res) => HonestReceive(s, w, res); ReceiveLocated(s, w, res);
  }

  lemma QueueStepsLocated(check: ProofCheck, s: State, e: Event)
    requires Located(s) && ListsClean(s) && AllGenuine(s.db, s.mem.pending) && s.nextTask !in s.tasks
    requires s.lock.Sending? ==> s.lock.workerId !in s.mem.slots
    requires Enabled(s, e) && (e.Queue? || e.Finish? || e.Pick? || e.Send?)
    ensures Stays(s, Effect(check, s, e))
  {
    hide Located, NoneLost, SendStep, PickStep, FinishStep, AllGenuine;
    match e
    case Queue(t) => QueueLocated(s, t);
    case Finish(t) => FinishLocated(s, t);
    case Pick(w, readable) => PickKeeps(s, w, readable);
    case Send(ok) => SendLocated(s, ok);
  }

  lemma RecordLocated(check: ProofCheck, s: State, e: Event)
    requires Located(s) && s.nextTask !in s.tasks && Enabled(s, e) && (e.Upload? || e.Reject? || e.Started?)
    ensures Stays(s, Effect(check, s, e))
  {
    hide Effect, Located;
    match e
    case Upload(j, u, upload, maxWorkers) => UploadLocated(check, s, j, u, upload, maxWorkers);
    case Reject(t, ok) => RejectLocated(check, s, t, ok);
    case Started(t, ok) => StartedLocated(check, s, t, ok);
  }

  lemma SafeMemory(check: ProofCheck, s: State)
    requires Safe(check, s)
    ensures s.nextTask !in s.tasks && AllGenuine(s.db, s.mem.pending)
  {
    hide DbSound, TasksSound, SplitOnce, Genuine;
  }

  lemma SlotIsFree(s: State)
    requires Connected(s)
    ensures s.lock.Sending? ==> s.lock.workerId !in s.mem.slots
  {
  }

  lemma StepLocated(check: ProofCheck, s: State, e: Event)
    requires Placed(s) && Safe(check, s) && Connected(s) && Enabled(s, e) && WorkersHonest(s, e)
    ensures Located(Effect(check, s, e)) && (ServerWorks(e) ==> Stays(s, Effect(check, s, e)))
  {
    hide Effect, Enabled, Safe, Located, NoneLost, Connected, OwedIsHeld, AllGenuine, NamesRows, ListsClean, IsAt;
    SafeMemory(check, s);
    if e.Restart? {
      RestartLocated(check, s);
    } else if e.Upload? || e.Reject? || e.Started? {
      RecordLocated(check, s, e);
    } else if e.Resolve? {
      ResolveLocated(check, s, e.task);
    } else if e.Abandon? || e.Settle? {
      EndingLocated(check, s, e);
    } else if e.SignUp? || e.Pay? || e.UploadProof? || e.Connect? || e.Register? || e.Unregister? {
      OutsideLocated(check, s, e);
    } else if e.Disconnect? || e.Receive? {
      SlotsLocated(check, s, e);
    } else if e.Queue? || e.Finish? || e.Pick? || e.Send? {
      SlotIsFree(s);
      QueueStepsLocated(check, s, e);
    } else {
      HandlerLocated(check, s, e);
    }
  }

  lemma UploadLocated(check: ProofCheck, s: State, j: int, u: int, upload: File, maxWorkers: int)
    requires Located(s) && s.nextTask !in s.tasks && Enabled(s, Upload(j, u, upload, maxWorkers))
    ensures Stays(s, Effect(check, s, Upload(j, u, upload, maxWorkers)))
  {
    hide Located, NoneLost, IsAt, Spawn;
    UploadStays(s, j, JobRow(u, Normalised(upload), maxWorkers, Pending));
    StayKeeps(s, UploadStep(s, j, u, upload, maxWorkers));
  }

  lemma RequeueHasRow(s: State, t: nat)
    requires Located(s) && t in s.tasks && s.tasks[t].Requeue?
    ensures s.tasks[t].shardId in s.db.shards
  {
    assert IsAt(s, InTask(t), s.tasks[t].shardId);
    InRows(s, InTask(t), s.tasks[t].shardId);
  }

  // ---- Lists, debts and names ----

  lemma OwedSame(s: State, s': State)
    requires OwedIsHeld(s) && s'.mem.slots == s.mem.slots && s'.phases == s.phases && s'.owed == s.owed
    ensures OwedIsHeld(s')
  {
  }

  lemma ReceiveOwed(s: State, w: int, res: Result)
    requires OwedIsHeld(s) && w in s.mem.slots && OwedTo(s, w) == [s.mem.slots[w]] && InPhase(s, w, Live)
    ensures OwedIsHeld(ReceiveStep(s, w, res))
  {
  }

  lemma SendOwed(s: State, ok: bool)
    requires OwedIsHeld(s) && Connected(s) && s.lock.Sending?
    ensures OwedIsHeld(SendStep(s, ok))
  {
    var w := s.lock.workerId;
    assert Served(s, w) && w !in s.mem.slots;
    assert InPhase(s, w, Live) ==> OwedTo(s, w) == [];
  }

  lemma DisconnectOwed(s: State, w: int)
    requires OwedIsHeld(s) && InPhase(s, w, Leaving)
    ensures OwedIsHeld(DisconnectStep(s, w))
  {
  }

  lemma PhasesOwed(s: State, s': State, w: int)
    requires OwedIsHeld(s) && s'.mem == s.mem && s'.owed == s.owed && w in s'.phases
    requires s'.phases == s.phases[w := s'.phases[w]]
    requires s'.phases[w].Leaving? || (OwedTo(s, w) == [] && w !in s.mem.slots && !s'.phases[w].Gone?)
    ensures OwedIsHeld(s')
  {
  }

  lemma ConnectionsOwed(check: ProofCheck, s: State, e: Event)
    requires OwedIsHeld(s) && Connected(s) && Enabled(s, e) && (e.Connect? || e.Register? || e.Unregister?)
    ensures OwedIsHeld(Effect(check, s, e))
  {
    var w := if e.Connect? then s.conns.nextId + 1 else e.workerId;
    assert !e.Unregister? ==> OwedTo(s, w) == [] && w !in s.mem.slots;
    hide OwedIsHeld, Connected;
    PhasesOwed(s, Effect(check, s, e), w);
  }

  lemma PickOwesNothing(s: State, w: int, readable: bool)
    ensures var s' := PickStep(s, w, readable);
            s'.mem.slots == s.mem.slots && s'.phases == s.phases && s'.owed == s.owed
  {
    hide PickLive, MayWork;
  }

  lemma QueuesOweNothing(check: ProofCheck, s: State, e: Event)
    requires Enabled(s, e) && (e.Abandon? || e.Queue? || e.Finish? || e.Pick?)
    ensures var s' := Effect(check, s, e);
            s'.mem.slots == s.mem.slots && s'.phases == s.phases && s'.owed == s.owed
  {
    hide PickStep;
    if e.Pick? {
      PickOwesNothing(s, e.workerId, e.readable);
    }
  }

  lemma StepOwed(check: ProofCheck, s: State, e: Event)
    requires OwedIsHeld(s) && Connected(s) && Enabled(s, e) && WorkersHonest(s, e)
    ensures OwedIsHeld(Effect(check, s, e))
  {
    hide OwedIsHeld, Connected, ReceiveStep, SendStep, DisconnectStep;
    if !Moves(e) {
      hide Effect, Enabled;
      OthersMoveNothing(check, s, e);
      OwedSame(s, Effect(check, s, e));
    } else {
      match e
      case Receive(w, res) => HonestReceive(s, w, res); ReceiveOwed(s, w, res);
      case Send(ok) => SendOwed(s, ok);
      case Disconnect(w) => DisconnectOwed(s, w);
      case _ => hide Effect; QuietMovesOwed(check, s, e);
    }
  }

  lemma RestartOwed(check: ProofCheck, s: State)
    ensures OwedIsHeld(Effect(check, s, Restart))
  {
  }

  lemma QuietMovesOwed(check: ProofCheck, s: State, e: Event)
    requires OwedIsHeld(s) && Connected(s) && Enabled(s, e)
    requires e.Connect? || e.Register? || e.Unregister? || e.Abandon? || e.Queue? || e.Finish? || e.Pick? || e.Restart?
    ensures OwedIsHeld(Effect(check, s, e))
  {
    hide Effect, Enabled, OwedIsHeld, Connected;
    if e.Restart? {
      RestartOwed(check, s);
    } else if e.Connect? || e.Register? || e.Unregister? {
      ConnectionsOwed(check, s, e);
    } else {
      QueuesOweNothing(check, s, e);
      OwedSame(s, Effect(check, s, e));
    }
  }

  lemma ReceiveNames(s: State, w: int, res: Result)
    requires NamesRows(s) && RowOf(s.db, res.jobId, res.shardId)
    ensures NamesRows(ReceiveStep(s, w, res))
  {
    hide RowOf;
  }

  lemma HeldIsNamed(check: ProofCheck, s: State, w: int)
    requires Safe(check, s) && w in s.mem.slots
    ensures RowOf(s.db, s.mem.slots[w].jobId, s.mem.slots[w].shardId)
  {
    assert Genuine(s.db, s.mem.slots[w]);
    assert RowsSound(s.db);
    hide ResultsSound, VerdictsSound, FullySplit, TasksSound;
  }

  lemma OthersName(check: ProofCheck, s: State, e: Event)
    requires NamesRows(s) && Enabled(s, e) && !e.Receive?
    ensures NamesRows(Effect(check, s, e))
  {
    hide Effect, Enabled;
    StepExtends(check, s, e);
    StepBegins(check, s, e);
  }

  lemma StepNames(check: ProofCheck, s: State, e: Event)
    requires NamesRows(s) && OwedIsHeld(s) && Safe(check, s) && Enabled(s, e) && WorkersHonest(s, e)
    ensures NamesRows(Effect(check, s, e))
  {
    hide NamesRows, Safe;
    if e.Receive? {
      HonestReceive(s, e.workerId, e.res);
      HeldIsNamed(check, s, e.workerId);
      hide ReceiveStep;
      ReceiveNames(s, e.workerId, e.res);
    } else {
      hide Effect, Enabled, OwedIsHeld;
      OthersName(check, s, e);
    }
  }

  /** Lists of shards are built only by splitting and by re-enqueueing. */
  lemma InsertedClean(s: State, t: nat, ids: seq<int>, ok: bool, u: nat)
    requires ListsClean(s) && t in s.tasks && s.tasks[t].SplitJob? && s.tasks[t].jobId in s.db.jobs
    requires FreshIds(s.db, s.tasks[t].jobId, ids)
    requires u in SplitStep(s, t, ids, ok).tasks && SplitStep(s, t, ids, ok).tasks[u].Append?
    ensures NoRepeats(SplitStep(s, t, ids, ok).tasks[u].shards)
  {
    hide InsertShards, CubesOf, Valid;
  }

  lemma AppendsAreClean(check: ProofCheck, s: State, e: Event, u: nat)
    requires ListsClean(s) && Enabled(s, e) && u in Effect(check, s, e).tasks && Effect(check, s, e).tasks[u].Append?
    ensures NoRepeats(Effect(check, s, e).tasks[u].shards)
  {
    hide NoRepeats, SplitStep, ReopenStep, FreshIds;
    if e.Insert? {
      InsertedClean(s, e.task, e.ids, e.ok, u);
    } else if e.Reopen? {
      ReopenedClean(s, e.task, e.ok, u);
    } else {
      hide Effect, Enabled;
      StepBegins(check, s, e);
    }
  }

  lemma ReopenedClean(s: State, t: nat, ok: bool, u: nat)
    requires ListsClean(s) && t in s.tasks && s.tasks[t].Requeue?
    requires u in ReopenStep(s, t, ok).tasks && ReopenStep(s, t, ok).tasks[u].Append?
    ensures NoRepeats(ReopenStep(s, t, ok).tasks[u].shards)
  {
    hide SetShardStatus;
  }

  lemma QueueClean(s: State, t: nat)
    requires Located(s) && ListsClean(s) && t in s.tasks && s.tasks[t].Append?
    ensures NoRepeats(s.mem.pending + s.tasks[t].shards)
  {
    var a, b := s.mem.pending, s.tasks[t].shards;
    forall i, j | 0 <= i < |a| && 0 <= j < |b| ensures a[i].shardId != b[j].shardId {
      assert IsAt(s, InQueue, a[i].shardId);
      if a[i].shardId == b[j].shardId {
        assert IsAt(s, InTask(t), a[i].shardId);
        OnlyAt(s, InQueue, a[i].shardId, InTask(t));
      }
    }
  }

  lemma SendClean(s: State, ok: bool)
    requires Located(s) && ListsClean(s) && s.lock.Sending?
    ensures NoRepeats(SendStep(s, ok).mem.pending)
  {
    var a, sh := s.mem.pending, s.lock.shard;
    assert IsAt(s, InSend, sh.shardId);
    forall i | 0 <= i < |a| ensures a[i].shardId != sh.shardId {
      if a[i].shardId == sh.shardId {
        assert IsAt(s, InQueue, sh.shardId);
        OnlyAt(s, InSend, sh.shardId, InQueue);
      }
    }
  }

  lemma StepQueueClean(check: ProofCheck, s: State, e: Event)
    requires Located(s) && ListsClean(s) && AllGenuine(s.db, s.mem.pending) && Enabled(s, e)
    ensures NoRepeats(Effect(check, s, e).mem.pending)
  {
    hide NoRepeats, Located, NoneLost, AllGenuine, PickStep, SendStep;
    if !Moves(e) {
      hide Effect, Enabled;
      OthersMoveNothing(check, s, e);
    } else {
      match e
      case Queue(t) => QueueClean(s, t);
      case Send(ok) => SendClean(s, ok);
      case Pick(w, readable) => PickKeeps(s, w, readable);
      case Restart => NothingRepeats();
      case _ => hide Effect, Enabled; QueueUntouched(check, s, e);
    }
  }

  lemma NothingRepeats()
    ensures NoRepeats([])
  {
  }

  lemma QueueUntouched(check: ProofCheck, s: State, e: Event)
    requires Enabled(s, e)
    requires e.Connect? || e.Register? || e.Unregister? || e.Abandon? || e.Finish? || e.Receive? || e.Disconnect?
    ensures Effect(check, s, e).mem.pending == s.mem.pending
  {
  }

  lemma StepLists(check: ProofCheck, s: State, e: Event)
    requires Located(s) && ListsClean(s) && AllGenuine(s.db, s.mem.pending) && Enabled(s, e)
    ensures ListsClean(Effect(check, s, e))
  {
    hide Effect, Enabled, Located, NoRepeats, AllGenuine;
    StepQueueClean(check, s, e);
    var s' := Effect(check, s, e);
    forall u | u in s'.tasks && s'.tasks[u].Append? ensures NoRepeats(s'.tasks[u].shards) {
      AppendsAreClean(check, s, e, u);
    }
  }

  lemma StepPlaced(check: ProofCheck, s: State, e: Event)
    requires Placed(s) && Safe(check, s) && Connected(s) && Enabled(s, e) && WorkersHonest(s, e)
    ensures Placed(Effect(check, s, e)) && (ServerWorks(e) && NoneLost(s) ==> NoneLost(Effect(check, s, e)))
  {
    StepLocated(check, s, e);
    StepOwed(check, s, e);
    StepNames(check, s, e);
    SafeMemory(check, s);
    StepLists(check, s, e);
    hide Effect, Enabled, Located, NoneLost, OwedIsHeld, NamesRows, ListsClean;
  }

  lemma InitPlaced()
    ensures Placed(INIT) && NoneLost(INIT)
  {
  }

  lemma {:induction false} RunPlaced(check: ProofCheck, states: seq<State>, events: seq<Event>, i: nat)
    requires HonestRun(check, states, events) && i < |states|
    ensures Placed(states[i]) && (ServerWorksUntil(events, i) ==> NoneLost(states[i]))
  {
    hide Effect, Enabled, Placed, NoneLost, WorkersHonest, ServerWorks, Safe, Connected;
    if i == 0 {
      InitPlaced();
    } else {
      RunPlaced(check, states, events, i - 1);
      RunSafe(check, states, events, i - 1);
      RunConnected(check, states, events, i - 1);
      assert Step(check, states[i - 1], events[i - 1], states[i]);
      StepPlaced(check, states[i - 1], events[i - 1]);
    }
  }

  /** When workers keep to the protocol, every shard is at any time in at most one place: in
      the queue (once), with one worker, being sent, with one handler, or done. None is run
      twice at once, whatever fails and however often the server restarts. */
  lemma NoShardInTwoPlaces(check: ProofCheck, states: seq<State>, events: seq<Event>, i: nat)
    requires HonestRun(check, states, events) && i < |states|
    ensures forall p: Place, q: Place, id: int :: IsAt(states[i], p, id) && IsAt(states[i], q, id) ==> p == q
    ensures NoRepeats(states[i].mem.pending)
  {
    hide HonestRun;
    RunPlaced(check, states, events, i);
    hide IsAt, OwedIsHeld, NamesRows, NoneLost;
  }

  /** As long as the server's own work on results has not failed either, every shard of a
      job that is not completed is in exactly one place. */
  lemma EveryShardInOnePlace(check: ProofCheck, states: seq<State>, events: seq<Event>, i: nat, id: int)
    requires HonestRun(check, states, events) && i < |states| && ServerWorksUntil(events, i)
    requires id in states[i].db.shards && states[i].db.shards[id].jobId !in states[i].mem.completed
    ensures exists p: Place :: IsAt(states[i], p, id) && forall q: Place :: IsAt(states[i], q, id) ==> q == p
  {
    hide HonestRun, ServerWorksUntil;
    RunPlaced(check, states, events, i);
    hide IsAt, OwedIsHeld, NamesRows, ListsClean;
    assert Somewhere(states[i], id);
    var p: Place :| IsAt(states[i], p, id);
    forall q: Place | IsAt(states[i], q, id) ensures q == p {
      OnlyAt(states[i], p, id, q);
    }
  }
}
