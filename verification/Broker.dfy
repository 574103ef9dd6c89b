/** The broker: requests, workers and commits as steps over one state. */
module Broker {
  import opened Core
  import opened OnDiskFileIndexes
  import opened OnDiskIterators
  import opened DatabaseStates
  import opened Compaction

  // ----- the state -----

  /** What a worker sees of the database. */
  datatype Snapshot = Snapshot(datasets: seq<Handle>, iterators: map<string, Iter>, tasks: map<nat, TaskSpec>)

  /** A running task, or one that is done: whether it succeeded, the changes it asks for, and its reply. */
  datatype Phase = Running | Done(ok: bool, changes: seq<Change>, reply: seq<Bytes>)

  datatype Task = Task(spec: TaskSpec, phase: Phase)

  datatype Worker = Worker(started: bool, snap: Snapshot, task: Option<Task>)

  /**
   * The database, the workers, the queue of idle ones, which worker has which task, and the names
   * delivered so far from each iterator.
   */
  datatype Sys = Sys(
    db: Db,
    workers: map<string, Worker>,
    queue: seq<string>,
    owner: map<nat, string>,
    delivered: map<string, seq<Bytes>>)

  function SnapshotOf(db: Db): Snapshot {
    Snapshot(db.working, db.iterators, db.tasks)
  }

  // ----- locks -----

  predicate CanAcquire(db: Db, lock: Lock) {
    forall k :: k in db.tasks ==> lock !in db.tasks[k].locks
  }

  predicate CanAcquireAll(db: Db, locks: seq<Lock>) {
    forall i :: 0 <= i < |locks| ==> CanAcquire(db, locks[i])
  }

  function DatasetLocks(ids: seq<string>): (r: seq<Lock>)
    ensures |r| == |ids| && forall i :: 0 <= i < |r| ==> r[i] == DatasetLock(ids[i])
  {
    seq(|ids|, i requires 0 <= i < |ids| => DatasetLock(ids[i]))
  }

  /** The locks a command needs; `candidates` are the datasets that a compaction would merge. */
  function LocksOf(c: Command, candidates: seq<string>): seq<Lock> {
    match c
    case Pop(id, _) => [IteratorLock(id)]
    case Reindex(dataset) => [DatasetLock(dataset)]
    case Compact(_) => DatasetLocks(candidates)
    case Taint(dataset, _, _) => [DatasetLock(dataset)]
    case _ => []
  }

  /** The first `n` working datasets, as the choice of a compaction sees them. */
  function CandidatesOf(db: Db, n: nat): seq<Candidate>
    requires n <= |db.working|
  {
    if n == 0 then []
    else
      var h := db.working[n - 1];
      CandidatesOf(db, n - 1) + (if h in db.objects then [CandidateOf(db.objects[h])] else [])
  }

  function CandidateOf(d: Dataset): (r: Candidate)
    ensures r.files == |d.files| && r.bytes == d.bytes
  {
    Candidate(d.Id(), Class(d.taints, d.types), |d.files|, d.bytes)
  }

  function IdsOf(cs: seq<Candidate>): (r: seq<string>)
    ensures |r| == |cs| && forall i :: 0 <= i < |r| ==> r[i] == cs[i].id
  {
    seq(|cs|, i requires 0 <= i < |cs| => cs[i].id)
  }

  /** The ids are those of datasets that a compaction may choose now, whatever its limits are. */
  ghost predicate Chosen(db: Db, smart: bool, ids: seq<string>) {
    exists best, maxDatasets, maxFiles ::
      IsBest(best, CandidatesOf(db, |db.working|), db.tasks, smart, maxDatasets, maxFiles) && ids == IdsOf(best)
  }

  // ----- what a worker may do -----

  /** A worker only adds files, under names whose ids are not in use. */
  ghost predicate DiskGrows(db: Db, db': Db) {
    && db' == db.(disk := db'.disk, stored := db'.stored)
    && DiskOk(db') && (forall n :: n in db'.stored ==> db'.stored[n].name == n)
    && (forall n :: n in db.disk ==> n in db'.disk && db'.disk[n] == db.disk[n])
    && (forall n :: n in db.stored ==> n in db'.stored && db'.stored[n] == db.stored[n])
  }

  /** A result list that was just written: nothing of it has been read, and its id is new. */
  ghost predicate NewList(db: Db, db': Db, name: string) {
    && name in db'.stored && name !in db.stored && IdOf(name) !in db.iterators
    && (forall m :: m in db.stored ==> IdOf(m) != IdOf(name))
    && AtStart(db'.stored[name])
  }

  predicate AtStart(it: Iter) {
    OneLiners(it.names) && it.fileOffset == 0 && it.byteOffset == 0
  }

  /** Inserts of new datasets, each followed by toggles of its taints. */
  ghost predicate Created(db: Db, db': Db, changes: seq<Change>) {
    && (forall i :: 0 <= i < |changes| ==>
          || (changes[i].Insert? && changes[i].name !in db.disk && changes[i].name in db'.disk)
          || (changes[i].ToggleTaint? && exists n :: Insert(n) in changes && IdOf(n) == changes[i].id))
    && (forall i, j :: 0 <= i < j < |changes| && changes[i].Insert? ==> changes[i] != changes[j])
  }

  /** The change that makes a dataset have the taint, or not have it. */
  function TaintChanges(taints: set<string>, id: string, taint: string, mode: TaintMode): seq<Change> {
    if (taint in taints) != (mode == AddTaint) then [ToggleTaint(id, taint)] else []
  }

  /** The locked datasets of a snapshot, in the order of the locks; `None` if one of them is not there. */
  function Locked(objects: map<Handle, Dataset>, hs: seq<Handle>, locks: seq<Lock>, n: nat): Option<seq<Handle>>
    requires n <= |locks|
  {
    if n == 0 then Some([])
    else
      var init := Locked(objects, hs, locks, n - 1);
      if init.None? || locks[n - 1].IteratorLock? then init
      else
        var h := FindId(objects, hs, |hs|, locks[n - 1].target);
        if h.None? then None else Some(init.value + [h.value])
  }

  /** The files of the first `n` datasets. */
  function FilesOf(objects: map<Handle, Dataset>, hs: seq<Handle>, n: nat): seq<Bytes>
    requires n <= |hs|
  {
    if n == 0 then []
    else FilesOf(objects, hs, n - 1) + (if hs[n - 1] in objects then objects[hs[n - 1]].files else [])
  }

  function Drops(objects: map<Handle, Dataset>, hs: seq<Handle>, n: nat): seq<Change>
    requires n <= |hs|
  {
    if n == 0 then []
    else Drops(objects, hs, n - 1) + (if hs[n - 1] in objects then [Drop(objects[hs[n - 1]].Id())] else [])
  }

  /** The datasets have the same taints and index types, so that they can be merged. */
  ghost predicate Alike(objects: map<Handle, Dataset>, hs: seq<Handle>) {
    forall g, h :: g in hs && h in hs ==>
      g in objects && h in objects && objects[g].taints == objects[h].taints && objects[g].types == objects[h].types
  }

  /** The changes of a successful compaction of two or more datasets into the dataset `name`. */
  ghost predicate Compacted(db: Db, snap: Snapshot, locks: seq<Lock>, changes: seq<Change>) {
    var hs := Locked(db.objects, snap.datasets, locks, |locks|);
    hs.Some? &&
    if |hs.value| < 2 then changes == []
    else
      && changes != []
      && var insert := changes[|changes| - 1];
        && insert.Insert? && changes == Drops(db.objects, hs.value, |hs.value|) + [insert]
        && insert.name in db.disk && db.disk[insert.name].files == FilesOf(db.objects, hs.value, |hs.value|)
        && Inherits(db.objects, hs.value, db.disk[insert.name])
  }

  /** The dataset has the taints and the index types of all the others. */
  ghost predicate Inherits(objects: map<Handle, Dataset>, hs: seq<Handle>, d: Dataset) {
    forall h :: h in hs ==> h in objects && objects[h].taints == d.taints && objects[h].types == d.types
  }

  /** What a successful pop asks for and replies with. */
  ghost predicate Popped(it: Iter, count: nat, changes: seq<Change>, reply: seq<Bytes>) {
    && it.fileOffset <= |it.names|
    && var to := PopTo(|it.names|, it.fileOffset, count);
      && changes == [UpdateIterator(it.name, PopBytes(it.names, it.fileOffset, count), to)]
      && reply == it.names[it.fileOffset..to]
  }

  /**
   * What a worker may have done when it is finished: a failed command asks for nothing; a successful
   * one asks for the changes of its kind, having written the files they name.
   */
  ghost predicate Outcome(db: Db, spec: TaskSpec, snap: Snapshot, db': Db, ok: bool, changes: seq<Change>, reply: seq<Bytes>) {
    && DiskGrows(db, db')
    && if !ok then changes == []
       else match spec.command
         case ReadOnly => changes == []
         case SelectInto => exists name :: changes == [NewIterator(name)] && NewList(db, db', name)
         case Pop(id, count) => id in snap.iterators && Popped(snap.iterators[id], count, changes, reply)
         case Index(_) => Created(db, db', changes)
         case Reindex(dataset) =>
           && FindId(db.objects, snap.datasets, |snap.datasets|, dataset).Some?
           && changes != [] && changes[|changes| - 1] == Drop(dataset)
           && Created(db, db', changes[..|changes| - 1])
         case Compact(_) =>
           && Compacted(db', snap, spec.locks, changes)
           && forall n :: Insert(n) in changes ==> n !in db.disk
         case Taint(dataset, taint, mode) =>
           var h := FindId(db.objects, snap.datasets, |snap.datasets|, dataset);
           h.Some? && changes == TaintChanges(db.objects[h.value].taints, dataset, taint, mode)
         case DropDataset(dataset) => changes == [Drop(dataset)]
  }

  // ----- the steps -----

  /** A worker reports for the first time. */
  function ReadyStep(s: Sys, w: string): Sys
    requires w in s.workers
  {
    s.(workers := s.workers[w := s.workers[w].(started := true)], queue := s.queue + [w])
  }

  /** The database with one more task, under the next id. */
  function Allocated(db: Db, c: Command, locks: seq<Lock>): Db {
    var id := db.lastTaskId + 1;
    db.(lastTaskId := id, tasks := db.tasks[id := TaskSpec(id, c, locks)])
  }

  /** A client's request; it is refused if a lock is taken, and goes to the first idle worker otherwise. */
  function RequestStep(s: Sys, c: Command, candidates: seq<string>): Sys
    requires s.queue != [] && s.queue[0] in s.workers
  {
    var locks := LocksOf(c, candidates);
    if CanAcquireAll(s.db, locks) then Accepted(s, c, locks) else s
  }

  /** A new task goes to the worker at the head of the queue. */
  function Accepted(s: Sys, c: Command, locks: seq<Lock>): Sys
    requires s.queue != [] && s.queue[0] in s.workers
  {
    var id, w := s.db.lastTaskId + 1, s.queue[0];
    Sys(Allocated(s.db, c, locks),
        s.workers[w := Worker(s.workers[w].started, SnapshotOf(s.db), Some(Task(TaskSpec(id, c, locks), Running)))],
        s.queue[1..],
        s.owner[id := w],
        s.delivered)
  }

  predicate Busy(s: Sys, w: string) {
    w in s.workers && s.workers[w].task.Some?
  }

  predicate Finished(s: Sys, w: string) {
    Busy(s, w) && s.workers[w].task.value.phase.Done?
  }

  /** A worker finishes its command. */
  function WorkStep(s: Sys, w: string, db': Db, ok: bool, changes: seq<Change>, reply: seq<Bytes>): Sys
    requires Busy(s, w)
  {
    var task := s.workers[w].task.value;
    s.(db := db', workers := s.workers[w := s.workers[w].(task := Some(task.(phase := Done(ok, changes, reply))))])
  }

  /** The datasets that busy workers other than `w` may still read. */
  ghost function HeldWithout(s: Sys, w: string): set<Handle> {
    set v, h | v in s.workers && v != w && s.workers[v].task.Some? && h in s.workers[v].snap.datasets :: h
  }

  /** The names delivered, once the reply of a task has been sent. */
  function Deliver(delivered: map<string, seq<Bytes>>, task: Task): map<string, seq<Bytes>> {
    if !task.phase.Done? || !task.phase.ok || task.phase.changes == [] then delivered
    else match task.phase.changes[0]
      case UpdateIterator(name, _, _) =>
        var i := IdOf(name);
        delivered[i := (if i in delivered then delivered[i] else []) + task.phase.reply]
      case NewIterator(name) => delivered[IdOf(name) := []]
      case _ => delivered
  }

  /** The reply of a worker: its changes are committed, its task is erased, and garbage is collected. */
  ghost function ResponseStep(s: Sys, w: string): Sys
    requires Finished(s, w)
  {
    var task := s.workers[w].task.value;
    var db := Commit(s.db, task.spec.id, task.phase.changes);
    Sys(Collect(db, HeldWithout(s, w)),
        s.workers[w := s.workers[w].(task := None)],
        s.queue + [w],
        s.owner - {task.spec.id},
        Deliver(s.delivered, task))
  }

  ghost predicate IsReady(s: Sys, s': Sys) {
    exists w :: w in s.workers && !s.workers[w].started && s' == ReadyStep(s, w)
  }

  ghost predicate IsRequest(s: Sys, s': Sys) {
    s.queue != [] && s.queue[0] in s.workers &&
    exists c: Command, candidates: seq<string> ::
      (c.Compact? ==> Chosen(s.db, c.smart, candidates)) && s' == RequestStep(s, c, candidates)
  }

  ghost predicate WorksBy(s: Sys, s': Sys, w: string, ok: bool, changes: seq<Change>, reply: seq<Bytes>) {
    && Busy(s, w) && s.workers[w].task.value.phase.Running?
    && Outcome(s.db, s.workers[w].task.value.spec, s.workers[w].snap, s'.db, ok, changes, reply)
    && s' == WorkStep(s, w, s'.db, ok, changes, reply)
  }

  ghost predicate IsWork(s: Sys, s': Sys) {
    exists w, ok, changes, reply :: WorksBy(s, s', w, ok, changes, reply)
  }

  ghost predicate IsResponse(s: Sys, s': Sys) {
    exists w :: Finished(s, w) && s' == ResponseStep(s, w)
  }

  /** One step of the broker or of a worker. */
  ghost predicate Step(s: Sys, s': Sys) {
    IsReady(s, s') || IsRequest(s, s') || IsWork(s, s') || IsResponse(s, s')
  }
}
