/** A run of the broker in which a compaction undoes a drop: why drops of locked datasets are excluded. */
module BrokerDrop {
  import opened Core
  import opened DatabaseStates
  import opened Compaction
  import opened Broker
  import opened BrokerInvariants
  import opened BrokerChoice
  import opened BrokerResponse
  import opened BrokerSafety
  import opened BrokerCompaction

  // ----- the participants -----

  /** Datasets `a` and `b`, what they are merged into, the two workers, and a snapshot of no importance. */
  datatype Scene = Scene(a: Dataset, b: Dataset, c: Dataset, v: string, w: string, idle: Snapshot)
  {
    ghost predicate Valid() {
      && WellNamed(a.name) && WellNamed(b.name) && WellNamed(c.name)
      && a.Id() != b.Id() && a.Id() != c.Id() && b.Id() != c.Id()
      && a.taints == b.taints == c.taints && a.types == b.types == c.types
      && c.files == a.files + b.files
      && v != w
    }

    function Ids(): seq<string> {
      [a.Id(), b.Id()]
    }

    function Compaction(): TaskSpec {
      TaskSpec(1, Compact(false), DatasetLocks(Ids()))
    }

    function Dropping(): TaskSpec {
      TaskSpec(2, DropDataset(a.Id()), [])
    }

    /** What the compaction asks for. */
    function Merge(): seq<Change> {
      [Drop(a.Id()), Drop(b.Id()), Insert(c.name)]
    }
  }

  function Stored(x: Scene): map<string, Dataset> {
    map[x.a.name := x.a, x.b.name := x.b]
  }

  function DbOf(x: Scene, working: seq<Handle>, disk: map<string, Dataset>, lastTaskId: nat, tasks: map<nat, TaskSpec>): Db {
    Db(map[0 := x.a, 1 := x.b], 2, working, [0, 1], disk, map[], map[], lastTaskId, tasks)
  }

  // ----- the states -----

  function Pair(v: string, w: string, x: Worker, y: Worker): map<string, Worker> {
    map[v := x, w := y]
  }

  function Idle(x: Scene, started: bool): Worker {
    Worker(started, x.idle, None)
  }

  function Start(x: Scene): Sys {
    Sys(DbOf(x, [0, 1], Stored(x), 0, map[]), Pair(x.v, x.w, Idle(x, false), Idle(x, false)), [], map[], map[])
  }

  function OneReady(x: Scene): Sys {
    Start(x).(workers := Pair(x.v, x.w, Idle(x, true), Idle(x, false)), queue := [x.v])
  }

  function BothReady(x: Scene): Sys {
    Start(x).(workers := Pair(x.v, x.w, Idle(x, true), Idle(x, true)), queue := [x.v, x.w])
  }

  function Seen(x: Scene, tasks: map<nat, TaskSpec>): Snapshot {
    Snapshot([0, 1], map[], tasks)
  }

  function Compacting(x: Scene): Worker {
    Worker(true, Seen(x, map[]), Some(Task(x.Compaction(), Running)))
  }

  /** The first worker has been asked for a compaction. */
  function Asked(x: Scene): Sys {
    Sys(DbOf(x, [0, 1], Stored(x), 1, map[1 := x.Compaction()]), Pair(x.v, x.w, Compacting(x), Idle(x, true)), [x.w],
        map[1 := x.v], map[])
  }

  function BothTasks(x: Scene): map<nat, TaskSpec> {
    map[1 := x.Compaction(), 2 := x.Dropping()]
  }

  function DropPhase(x: Scene, phase: Phase): Worker {
    Worker(true, Seen(x, map[1 := x.Compaction()]), Some(Task(x.Dropping(), phase)))
  }

  /** The second worker has been asked for a drop, and has come this far. */
  function AskedBoth(x: Scene, phase: Phase): Sys {
    Sys(DbOf(x, [0, 1], Stored(x), 2, BothTasks(x)), Pair(x.v, x.w, Compacting(x), DropPhase(x, phase)), [],
        map[1 := x.v, 2 := x.w], map[])
  }

  /** The drop has been committed. */
  function Dropped(x: Scene): Sys {
    Sys(DbOf(x, [1], Stored(x), 2, map[1 := x.Compaction()]), Pair(x.v, x.w, Compacting(x), DropPhase(x, Running).(task := None)),
        [x.w], map[1 := x.v], map[])
  }

  /** The compaction is finished. */
  function CompactionDone(x: Scene): Sys {
    Sys(DbOf(x, [1], Stored(x)[x.c.name := x.c], 2, map[1 := x.Compaction()]),
        Pair(x.v, x.w, Compacting(x).(task := Some(Task(x.Compaction(), Done(true, x.Merge(), [])))), DropPhase(x, Running).(task := None)),
        [x.w], map[1 := x.v], map[])
  }

  // ----- the steps -----

  lemma SetFirst(x: Scene, p: Worker, q: Worker, r: Worker)
    requires x.v != x.w
    ensures Pair(x.v, x.w, p, q)[x.v := r] == Pair(x.v, x.w, r, q)
  {
  }

  lemma SetSecond(x: Scene, p: Worker, q: Worker, r: Worker)
    ensures Pair(x.v, x.w, p, q)[x.w := r] == Pair(x.v, x.w, p, r)
  {
  }

  lemma TwoStored(x: Scene, db: Db)
    requires x.Valid() && db.disk == Stored(x)
    ensures DiskOk(db) && db.disk[x.a.name] == x.a && db.disk[x.b.name] == x.b
  {
    assert x.a.name != x.b.name;
    assert forall n :: n in db.disk <==> n == x.a.name || n == x.b.name;
  }

  lemma TwoLoaded(x: Scene, db: Db)
    requires db == DbOf(x, [0, 1], Stored(x), 0, map[])
    ensures HeapOk(db)
  {
  }

  lemma TwoShadowed(x: Scene, db: Db)
    requires x.Valid() && db.objects == map[0 := x.a, 1 := x.b]
    requires x.a.name in db.disk && db.disk[x.a.name] == x.a && x.b.name in db.disk && db.disk[x.b.name] == x.b
    ensures ShadowOk(db)
  {
    assert x.a.name != x.b.name;
  }

  lemma StartIsInitial(x: Scene)
    requires x.Valid()
    ensures Initial(Start(x))
  {
    var db := Start(x).db;
    TwoStored(x, db);
    TwoLoaded(x, db);
    TwoShadowed(x, db);
    assert ItersOk(db) && TasksOk(db);
    assert DbParts(db);
  }

  lemma FirstReady(x: Scene)
    requires x.Valid()
    ensures Step(Start(x), OneReady(x))
  {
    SetFirst(x, Idle(x, false), Idle(x, false), Idle(x, true));
    assert OneReady(x) == ReadyStep(Start(x), x.v);
    assert IsReady(Start(x), OneReady(x));
  }

  lemma SecondReady(x: Scene)
    requires x.Valid()
    ensures Step(OneReady(x), BothReady(x))
  {
    SetSecond(x, Idle(x, true), Idle(x, false), Idle(x, true));
    assert BothReady(x) == ReadyStep(OneReady(x), x.w);
    assert IsReady(OneReady(x), BothReady(x));
  }

  lemma BothAreCandidates(x: Scene)
    ensures var db := BothReady(x).db; CandidatesOf(db, |db.working|) == [CandidateOf(x.a), CandidateOf(x.b)]
  {
    var db := BothReady(x).db;
    assert CandidatesOf(db, 0) == [];
    assert CandidatesOf(db, 1) == [CandidateOf(x.a)];
  }

  /** Two datasets of one class are the best choice if there are no others and nothing is locked. */
  lemma BothAreBest(cs: seq<Candidate>)
    requires |cs| == 2 && cs[0].cls == cs[1].cls
    ensures IsBest(cs, cs, map[], false, 2, Files(cs, 2))
  {
    var n := Files(cs, 2);
    forall part | Mergeable(part, cs[0].cls, cs, map[], false, 2, n) ensures |part| <= 2 {
      PartIsSmaller(part, cs);
    }
    assert Mergeable(cs, cs[0].cls, cs, map[], false, 2, n);
  }

  lemma BothChosen(x: Scene)
    requires x.Valid()
    ensures Chosen(BothReady(x).db, false, x.Ids())
  {
    var cs := [CandidateOf(x.a), CandidateOf(x.b)];
    BothAreCandidates(x);
    BothAreBest(cs);
    assert IdsOf(cs) == x.Ids();
  }

  lemma CompactionAccepted(x: Scene)
    requires x.Valid()
    ensures Asked(x) == Accepted(BothReady(x), Compact(false), x.Compaction().locks)
  {
    SetFirst(x, Idle(x, true), Idle(x, true), Compacting(x));
    assert map[][1 := x.Compaction()] == map[1 := x.Compaction()];
  }

  /** A request whose locks are free is accepted. */
  lemma RequestAccepted(s: Sys, s': Sys, c: Command, candidates: seq<string>)
    requires s.queue != [] && s.queue[0] in s.workers && (c.Compact? ==> Chosen(s.db, c.smart, candidates))
    requires CanAcquireAll(s.db, LocksOf(c, candidates)) && s' == Accepted(s, c, LocksOf(c, candidates))
    ensures Step(s, s')
  {
    assert s' == RequestStep(s, c, candidates);
    assert IsRequest(s, s');
  }

  lemma CompactionLocks(x: Scene, db: Db)
    requires db.tasks == map[]
    ensures CanAcquireAll(db, LocksOf(Compact(false), x.Ids())) && LocksOf(Compact(false), x.Ids()) == x.Compaction().locks
  {
  }

  lemma BothQueued(x: Scene)
    ensures var s := BothReady(x); s.queue != [] && s.queue[0] in s.workers && s.db.tasks == map[]
  {
  }

  lemma CompactionAsked(x: Scene)
    requires x.Valid()
    ensures Step(BothReady(x), Asked(x))
  {
    var s, s' := BothReady(x), Asked(x);
    BothQueued(x);
    BothChosen(x);
    CompactionAccepted(x);
    CompactionLocks(x, s.db);
    RequestAccepted(s, s', Compact(false), x.Ids());
  }

  lemma DropAsked(x: Scene)
    requires x.Valid()
    ensures Step(Asked(x), AskedBoth(x, Running))
  {
    SetSecond(x, Compacting(x), Idle(x, true), DropPhase(x, Running));
    assert LocksOf(DropDataset(x.a.Id()), []) == [];
    assert AskedBoth(x, Running) == RequestStep(Asked(x), DropDataset(x.a.Id()), []);
    assert IsRequest(Asked(x), AskedBoth(x, Running));
  }

  lemma DropWorks(x: Scene)
    requires x.Valid()
    ensures Step(AskedBoth(x, Running), AskedBoth(x, Done(true, [Drop(x.a.Id())], [])))
  {
    var s, changes: seq<Change>, reply: seq<Bytes> := AskedBoth(x, Running), [Drop(x.a.Id())], [];
    SetSecond(x, Compacting(x), DropPhase(x, Running), DropPhase(x, Done(true, changes, reply)));
    DropOutcome(x);
    var s' := AskedBoth(x, Done(true, changes, reply));
    assert s' == WorkStep(s, x.w, s'.db, true, changes, reply);
    assert WorksBy(s, s', x.w, true, changes, reply);
    assert IsWork(s, s');
  }

  lemma DropOutcome(x: Scene)
    requires x.Valid()
    ensures var s := AskedBoth(x, Running);
      Outcome(s.db, x.Dropping(), s.workers[x.w].snap, s.db, true, [Drop(x.a.Id())], [])
  {
    TwoStored(x, AskedBoth(x, Running).db);
  }

  // ----- the commit of the drop -----

  lemma {:induction false} NothingUnneeded(db: Db, required: set<string>, n: nat)
    requires n <= |db.loaded| && forall h :: h in db.objects ==> db.objects[h].name in required
    ensures DropList(db, required, n) == []
  {
    if n > 0 {
      NothingUnneeded(db, required, n - 1);
    }
  }

  /** Datasets that are held are not destroyed. */
  lemma AllHeld(db: Db, held: set<Handle>)
    requires forall h :: h in db.objects ==> h in held
    ensures Collect(db, held) == db
  {
    var required := NamesOf(db.objects, (set h | h in db.working) + held);
    NothingUnneeded(db, required, |db.loaded|);
  }

  lemma DropLeaves(x: Scene)
    requires x.Valid()
    ensures Without(map[0 := x.a, 1 := x.b], [0, 1], 2, x.a.Id()) == [1]
  {
    IdIsNoName(x.b.name, x.a.Id());
    var objects: map<Handle, Dataset>, hs: seq<Handle> := map[0 := x.a, 1 := x.b], [0, 1];
    assert Without(objects, hs, 0, x.a.Id()) == [];
    assert Without(objects, hs, 1, x.a.Id()) == [];
  }

  lemma DropApplied(x: Scene, db: Db)
    requires x.Valid() && db == DbOf(x, [0, 1], Stored(x), 2, BothTasks(x))
    ensures Commit(db, 2, [Drop(x.a.Id())]) == DbOf(x, [1], Stored(x), 2, map[1 := x.Compaction()])
  {
    var changes := [Drop(x.a.Id())];
    DropLeaves(x);
    assert |db.working| == 2;
    assert ApplyAll(db, changes, 0) == db;
    assert ApplyAll(db, changes, 1) == DropWorking(db, x.a.Id());
    assert BothTasks(x) - {2} == map[1 := x.Compaction()];
  }

  lemma CompactionHolds(x: Scene, phase: Phase)
    requires x.Valid()
    ensures HeldWithout(AskedBoth(x, phase), x.w) == {0, 1}
  {
    var s := AskedBoth(x, phase);
    assert s.workers[x.v] == Compacting(x);
    assert 0 in s.workers[x.v].snap.datasets && 1 in s.workers[x.v].snap.datasets;
  }

  lemma DropCommittedTo(x: Scene)
    requires x.Valid()
    ensures Dropped(x) == ResponseStep(AskedBoth(x, Done(true, [Drop(x.a.Id())], [])), x.w)
  {
    var phase := Done(true, [Drop(x.a.Id())], []);
    var s := AskedBoth(x, phase);
    DropApplied(x, s.db);
    CompactionHolds(x, phase);
    AllHeld(DbOf(x, [1], Stored(x), 2, map[1 := x.Compaction()]), {0, 1});
    SetSecond(x, Compacting(x), DropPhase(x, phase), DropPhase(x, phase).(task := None));
    assert s.owner - {2} == map[1 := x.v];
  }

  lemma DropCommitted(x: Scene)
    requires x.Valid()
    ensures Step(AskedBoth(x, Done(true, [Drop(x.a.Id())], [])), Dropped(x))
  {
    var s := AskedBoth(x, Done(true, [Drop(x.a.Id())], []));
    DropCommittedTo(x);
    assert Finished(s, x.w);
    assert IsResponse(s, Dropped(x));
  }

  // ----- the commit of the compaction -----

  lemma ThreeStored(x: Scene, db: Db)
    requires x.Valid() && db.disk == Stored(x)[x.c.name := x.c]
    ensures DiskOk(db) && db.disk[x.c.name] == x.c && x.c.name !in Stored(x)
  {
    assert x.a.name != x.b.name && x.a.name != x.c.name && x.b.name != x.c.name;
    assert forall n :: n in db.disk <==> n == x.a.name || n == x.b.name || n == x.c.name;
  }

  lemma BothFound(x: Scene, objects: map<Handle, Dataset>)
    requires x.Valid() && objects == map[0 := x.a, 1 := x.b]
    ensures FindId(objects, [0, 1], 2, x.a.Id()) == Some(0) && FindId(objects, [0, 1], 2, x.b.Id()) == Some(1)
  {
    assert FindId(objects, [0, 1], 0, x.a.Id()) == FindId(objects, [0, 1], 0, x.b.Id()) == None;
    assert FindId(objects, [0, 1], 1, x.a.Id()) == Some(0);
    assert FindId(objects, [0, 1], 1, x.b.Id()) == None;
  }

  lemma BothLocked(x: Scene, objects: map<Handle, Dataset>)
    requires x.Valid() && objects == map[0 := x.a, 1 := x.b]
    ensures Locked(objects, [0, 1], x.Compaction().locks, 2) == Some([0, 1])
  {
    var hs: seq<Handle>, locks := [0, 1], x.Compaction().locks;
    BothFound(x, objects);
    assert locks[0] == DatasetLock(x.a.Id()) && locks[1] == DatasetLock(x.b.Id());
    assert FindId(objects, hs, |hs|, x.a.Id()) == Some(0) && FindId(objects, hs, |hs|, x.b.Id()) == Some(1);
    assert Locked(objects, hs, locks, 0) == Some([]);
    assert Locked(objects, hs, locks, 1).value == [0];
    assert Locked(objects, hs, locks, 2).value == [0, 1];
  }

  lemma BothMerged(x: Scene, objects: map<Handle, Dataset>)
    requires objects == map[0 := x.a, 1 := x.b]
    ensures Drops(objects, [0, 1], 2) == [Drop(x.a.Id()), Drop(x.b.Id())]
    ensures FilesOf(objects, [0, 1], 2) == x.a.files + x.b.files
  {
    assert Drops(objects, [0, 1], 1) == [Drop(x.a.Id())];
    assert FilesOf(objects, [0, 1], 1) == x.a.files;
  }

  lemma FirstIsGone(x: Scene, db: Db)
    requires db.objects == map[0 := x.a, 1 := x.b] && db.working == [1]
    ensures Resurrected(db, [0, 1]) == x.a.files
  {
    assert GoneFiles(db, [0, 1], 1) == x.a.files;
  }

  lemma MergeIsRight(x: Scene)
    requires x.Valid()
    ensures Compacted(CompactionDone(x).db, Seen(x, map[]), x.Compaction().locks, x.Merge())
  {
    var db := CompactionDone(x).db;
    BothLocked(x, db.objects);
    BothMerged(x, db.objects);
    ThreeStored(x, db);
  }

  lemma MergeGrows(x: Scene)
    requires x.Valid()
    ensures DiskGrows(Dropped(x).db, CompactionDone(x).db)
  {
    ThreeStored(x, CompactionDone(x).db);
  }

  lemma CompactionOutcome(x: Scene)
    requires x.Valid()
    ensures Outcome(Dropped(x).db, x.Compaction(), Seen(x, map[]), CompactionDone(x).db, true, x.Merge(), [])
  {
    MergeGrows(x);
    MergeIsRight(x);
    ThreeStored(x, CompactionDone(x).db);
  }

  lemma CompactionWorks(x: Scene)
    requires x.Valid()
    ensures Step(Dropped(x), CompactionDone(x))
  {
    var s, s', reply: seq<Bytes> := Dropped(x), CompactionDone(x), [];
    SetFirst(x, Compacting(x), DropPhase(x, Running).(task := None),
      Compacting(x).(task := Some(Task(x.Compaction(), Done(true, x.Merge(), reply)))));
    CompactionOutcome(x);
    assert s' == WorkStep(s, x.v, s'.db, true, x.Merge(), reply);
    assert WorksBy(s, s', x.v, true, x.Merge(), reply);
    assert IsWork(s, s');
  }

  // ----- the run -----

  ghost function End(x: Scene): Sys
    requires x.Valid()
  {
    ResponseStep(CompactionDone(x), x.v)
  }

  ghost function RunOf(x: Scene): seq<Sys>
    requires x.Valid()
  {
    [Start(x), OneReady(x), BothReady(x), Asked(x), AskedBoth(x, Running)] + Ending(x)
  }

  ghost function Ending(x: Scene): seq<Sys>
    requires x.Valid()
  {
    [AskedBoth(x, Done(true, [Drop(x.a.Id())], [])), Dropped(x), CompactionDone(x), End(x)]
  }

  lemma RunsJoin(first: seq<Sys>, second: seq<Sys>)
    requires IsRun(first) && IsRun(second) && first != [] && second != []
    requires Step(first[|first| - 1], second[0])
    ensures IsRun(first + second)
  {
    var run := first + second;
    forall i | 0 <= i < |run| - 1 ensures Step(run[i], run[i + 1]) {
      if i >= |first| {
        assert run[i] == second[i - |first|] && run[i + 1] == second[i - |first| + 1];
      } else if i == |first| - 1 {
        assert run[i] == first[i] && run[i + 1] == second[0];
      }
    }
  }

  lemma FourSteps(a: Sys, b: Sys, c: Sys, d: Sys, e: Sys)
    requires Step(a, b) && Step(b, c) && Step(c, d) && Step(d, e)
    ensures IsRun([a, b, c, d, e])
  {
  }

  lemma ThreeSteps(a: Sys, b: Sys, c: Sys, d: Sys)
    requires Step(a, b) && Step(b, c) && Step(c, d)
    ensures IsRun([a, b, c, d])
  {
  }

  lemma BeginningIsRun(x: Scene)
    requires x.Valid()
    ensures IsRun([Start(x), OneReady(x), BothReady(x), Asked(x), AskedBoth(x, Running)])
  {
    FirstReady(x);
    SecondReady(x);
    CompactionAsked(x);
    DropAsked(x);
    FourSteps(Start(x), OneReady(x), BothReady(x), Asked(x), AskedBoth(x, Running));
  }

  lemma ResponseIsStep(s: Sys, w: string)
    requires Finished(s, w)
    ensures Step(s, ResponseStep(s, w))
  {
    assert IsResponse(s, ResponseStep(s, w));
  }

  lemma DoneIsFinished(x: Scene)
    requires x.Valid()
    ensures Finished(CompactionDone(x), x.v)
  {
  }

  lemma EndingIsRun(x: Scene)
    requires x.Valid()
    ensures IsRun(Ending(x))
  {
    DropCommitted(x);
    CompactionWorks(x);
    DoneIsFinished(x);
    ResponseIsStep(CompactionDone(x), x.v);
    ThreeSteps(AskedBoth(x, Done(true, [Drop(x.a.Id())], [])), Dropped(x), CompactionDone(x), End(x));
  }

  lemma RunIsRun(x: Scene)
    requires x.Valid()
    ensures IsRun(RunOf(x))
  {
    BeginningIsRun(x);
    EndingIsRun(x);
    DropWorks(x);
    RunsJoin([Start(x), OneReady(x), BothReady(x), Asked(x), AskedBoth(x, Running)], Ending(x));
  }

  lemma DropHitsLocked(x: Scene)
    requires x.Valid()
    ensures DropsLocked(AskedBoth(x, Done(true, [Drop(x.a.Id())], [])), Dropped(x))
  {
    var s := AskedBoth(x, Done(true, [Drop(x.a.Id())], []));
    DropCommittedTo(x);
    CompactionLocked(x, s);
    assert DropsLockedOf(s, Dropped(x), x.w, x.v, 0);
  }

  lemma CompactionLocked(x: Scene, s: Sys)
    requires x.Valid() && s.db.objects == map[0 := x.a, 1 := x.b]
    requires x.v in s.workers && s.workers[x.v].snap == Seen(x, map[])
    requires s.workers[x.v].task.Some? && s.workers[x.v].task.value.spec == x.Compaction()
    ensures Compacts(s, x.v) && Merged(s, x.v) == Some([0, 1])
  {
    BothLocked(x, s.db.objects);
  }

  lemma FilesComeBack(x: Scene)
    requires x.Valid() && Inv(CompactionDone(x))
    ensures Bag(End(x).db.objects, End(x).db.working)
         == Bag(CompactionDone(x).db.objects, CompactionDone(x).db.working) + multiset(x.a.files)
  {
    CompactionLocked(x, CompactionDone(x));
    FirstIsGone(x, CompactionDone(x).db);
    CompactionExactly(CompactionDone(x), x.v);
  }

  lemma DoneIsSound(x: Scene)
    requires x.Valid()
    ensures Inv(CompactionDone(x))
  {
    RunIsRun(x);
    StartIsInitial(x);
    InitialHolds(Start(x));
    RunStates(x);
    RunKeeps(RunOf(x), 7);
  }

  /**
   * A run from the start in which a compaction undoes a drop: the dataset `a` is in use, it is dropped
   * while it is being compacted, and the commit of the compaction brings all its files back into use.
   */
  lemma DropIsUndone(x: Scene) returns (run: seq<Sys>)
    requires x.Valid()
    ensures |run| == 9 && IsRun(run) && Initial(run[0]) && run[0].db.objects == map[0 := x.a, 1 := x.b]
    ensures DropsLocked(run[5], run[6]) && run[5].db.working == [0, 1] && run[6].db.working == [1]
    ensures Finished(run[7], x.v) && Compacts(run[7], x.v) && run[8] == ResponseStep(run[7], x.v)
    ensures Bag(run[8].db.objects, run[8].db.working) == Bag(run[7].db.objects, run[7].db.working) + multiset(x.a.files)
  {
    run := RunOf(x);
    RunIsRun(x);
    StartIsInitial(x);
    DropHitsLocked(x);
    DoneIsSound(x);
    FilesComeBack(x);
    RunStates(x);
  }

  lemma JoinAt(first: seq<Sys>, second: seq<Sys>)
    requires |first| == 5 && |second| == 4
    ensures var run := first + second;
      && |run| == 9 && run[0] == first[0]
      && run[5] == second[0] && run[6] == second[1] && run[7] == second[2] && run[8] == second[3]
  {
  }

  lemma RunStates(x: Scene)
    requires x.Valid()
    ensures var run := RunOf(x);
      && |run| == 9 && run[0] == Start(x) && run[5] == AskedBoth(x, Done(true, [Drop(x.a.Id())], []))
      && run[6] == Dropped(x) && run[7] == CompactionDone(x) && run[8] == End(x)
  {
    JoinAt([Start(x), OneReady(x), BothReady(x), Asked(x), AskedBoth(x, Running)], Ending(x));
  }

  // ----- such datasets exist -----

  function Named(letter: char, files: seq<Bytes>): Dataset {
    Dataset(['t', '.', letter, '.'], files, {}, {}, 0)
  }

  lemma NameIs(letter: char, files: seq<Bytes>)
    requires letter != '.'
    ensures WellNamed(Named(letter, files).name) && Named(letter, files).Id() == [letter]
  {
    var s := Named(letter, files).name;
    assert FindDot(s, 0) == FindDot(s, 1) == 1 && FindDot(s, 2) == FindDot(s, 3) == 3;
    assert s[2..3] == [letter];
  }

  /** Any files can be the ones that come back. */
  lemma SomeScene(files: seq<Bytes>) returns (x: Scene)
    ensures x.Valid() && x.a.files == files
  {
    NameIs('a', files);
    NameIs('b', []);
    NameIs('c', files);
    assert ['a'][0] != ['b'][0] && ['a'][0] != ['c'][0] && ['b'][0] != ['c'][0];
    assert ['v'][0] != ['w'][0];
    x := Scene(Named('a', files), Named('b', []), Named('c', files), ['v'], ['w'], Snapshot([], map[], map[]));
  }
}
