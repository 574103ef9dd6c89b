/** The state of the database, and what a committed change does to it. */
module DatabaseStates {
  import opened Core
  import opened OnDiskFileIndexes

  // ----- names -----

  /** The first dot at or after `i`. */
  function FindDot(s: string, i: nat): (r: nat)
    requires i <= |s|
    ensures i <= r <= |s| && '.' !in s[i..r] && (r < |s| ==> s[r] == '.')
    decreases |s| - i
  {
    if i == |s| || s[i] == '.' then i
    else
      var r := FindDot(s, i + 1);
      assert s[i..r] == [s[i]] + s[i + 1..r];
      r
  }

  /** Whether a file name has the form "type.id.rest". */
  predicate WellNamed(name: string) {
    var first := FindDot(name, 0);
    first < |name| && FindDot(name, first + 1) < |name|
  }

  /** The id in a file name: what stands between its first two dots. */
  function IdOf(name: string): (id: string)
    ensures '.' !in id
  {
    var first := FindDot(name, 0);
    if first < |name| then name[first + 1..FindDot(name, first + 1)] else []
  }

  /** In a name of the form "type.id.rest" the id is what it looks like. */
  lemma IdOfName(kind: string, id: string, rest: string)
    requires '.' !in kind && '.' !in id
    ensures WellNamed(kind + "." + id + "." + rest) && IdOf(kind + "." + id + "." + rest) == id
  {
    var name := kind + "." + id + "." + rest;
    var first := |kind|;
    FirstDot(name, 0, first);
    FirstDot(name, first + 1, first + 1 + |id|);
    assert name[first + 1..first + 1 + |id|] == id;
  }

  lemma {:induction false} FirstDot(s: string, i: nat, k: nat)
    requires i <= k < |s| && s[k] == '.' && forall j :: i <= j < k ==> s[j] != '.'
    ensures FindDot(s, i) == k
    decreases k - i
  {
    if i < k {
      FirstDot(s, i + 1, k);
    }
  }

  /** No id is a file name. */
  lemma IdIsNoName(name: string, id: string)
    requires WellNamed(name) && '.' !in id
    ensures id != name
  {
    assert name[FindDot(name, 0)] == '.';
  }

  // ----- the state -----

  /**
   * A loaded or stored dataset: its file name, the names of its files, its taints, and the types and
   * the size in bytes of its indexes.
   */
  datatype Dataset = Dataset(name: string, files: seq<Bytes>, taints: set<string>, types: set<IndexType>, bytes: nat)
  {
    function Id(): string {
      IdOf(name)
    }

    predicate IsCalled(x: string) {
      name == x || Id() == x
    }
  }

  /** A stored result list, and how much of it has been read. */
  datatype Iter = Iter(name: string, names: seq<Bytes>, byteOffset: nat, fileOffset: nat)

  datatype Lock = DatasetLock(target: string) | IteratorLock(target: string)

  datatype TaintMode = AddTaint | ClearTaint

  datatype Command =
    | ReadOnly
    | SelectInto
    | Pop(id: string, count: nat)
    | Index(types: set<IndexType>)
    | Reindex(dataset: string)
    | Compact(smart: bool)
    | Taint(dataset: string, taint: string, mode: TaintMode)
    | DropDataset(dataset: string)

  datatype TaskSpec = TaskSpec(id: nat, command: Command, locks: seq<Lock>)

  datatype Change =
    | Insert(name: string)
    | Drop(name: string)
    | Reload(name: string)
    | ToggleTaint(id: string, taint: string)
    | NewIterator(name: string)
    | UpdateIterator(name: string, bytes: nat, files: nat)

  /** The address of a loaded dataset object. */
  type Handle = nat

  /**
   * `objects` are the dataset objects that exist, `loaded` the list that owns them and `working` the
   * list of those in use. `disk` and `stored` are the datasets and iterators on disk, by file name.
   */
  datatype Db = Db(
    objects: map<Handle, Dataset>,
    next: Handle,
    working: seq<Handle>,
    loaded: seq<Handle>,
    disk: map<string, Dataset>,
    iterators: map<string, Iter>,
    stored: map<string, Iter>,
    lastTaskId: nat,
    tasks: map<nat, TaskSpec>)

  // ----- changes -----

  function LoadDataset(db: Db, name: string): Db
    requires name in db.disk
  {
    db.(objects := db.objects[db.next := db.disk[name]], next := db.next + 1,
        loaded := db.loaded + [db.next], working := db.working + [db.next])
  }

  /** The first `n` handles of a list without those called `x`. */
  function Without(objects: map<Handle, Dataset>, hs: seq<Handle>, n: nat, x: string): (r: seq<Handle>)
    requires n <= |hs|
    ensures forall h :: h in r ==> h in hs
  {
    if n == 0 then []
    else
      var gone := hs[n - 1] in objects && objects[hs[n - 1]].IsCalled(x);
      Without(objects, hs, n - 1, x) + (if gone then [] else [hs[n - 1]])
  }

  function DropWorking(db: Db, x: string): Db {
    db.(working := Without(db.objects, db.working, |db.working|, x))
  }

  /** The first of the first `n` handles of a list with the given id. */
  function FindId(objects: map<Handle, Dataset>, hs: seq<Handle>, n: nat, id: string): (r: Option<Handle>)
    requires n <= |hs|
    ensures r.Some? ==> r.value in hs && r.value in objects && objects[r.value].Id() == id
  {
    if n == 0 then None
    else
      var r := FindId(objects, hs, n - 1, id);
      if r.Some? then r
      else if hs[n - 1] in objects && objects[hs[n - 1]].Id() == id then Some(hs[n - 1])
      else None
  }

  function Toggled(taints: set<string>, taint: string): set<string> {
    if taint in taints then taints - {taint} else taints + {taint}
  }

  /** Toggles a taint of a working dataset and saves it; without such a dataset nothing happens. */
  function Toggle(db: Db, id: string, taint: string): Db {
    var h := FindId(db.objects, db.working, |db.working|, id);
    if h.None? then db
    else
      var d := db.objects[h.value];
      var d' := d.(taints := Toggled(d.taints, taint));
      db.(objects := db.objects[h.value := d'], disk := db.disk[d.name := d'])
  }

  /** `load_iterator`; an iterator that is there already is kept. */
  function LoadIterator(db: Db, name: string): Db
    requires name in db.stored
  {
    if IdOf(name) in db.iterators then db
    else db.(iterators := db.iterators[IdOf(name) := db.stored[name]])
  }

  /** Stores the position of an iterator, or drops the iterator once all its files have been read. */
  function MoveIterator(db: Db, id: string, bytes: nat, files: nat): Db {
    if id !in db.iterators then db
    else
      var it := db.iterators[id];
      if files >= |it.names| then db.(iterators := db.iterators - {id}, stored := db.stored - {it.name})
      else
        var it' := it.(byteOffset := bytes, fileOffset := files);
        db.(iterators := db.iterators[id := it'], stored := db.stored[it.name := it'])
  }

  /** One change; changes that name something that is not on disk cannot be applied. */
  function Apply(db: Db, c: Change): Db {
    match c
    case Insert(name) => if name in db.disk then LoadDataset(db, name) else db
    case Drop(name) => DropWorking(db, name)
    case Reload(name) => if name in db.disk then LoadDataset(DropWorking(db, name), name) else db
    case ToggleTaint(id, taint) => Toggle(db, id, taint)
    case NewIterator(name) => if name in db.stored then LoadIterator(db, name) else db
    case UpdateIterator(name, bytes, files) => MoveIterator(db, IdOf(name), bytes, files)
  }

  function ApplyAll(db: Db, changes: seq<Change>, n: nat): Db
    requires n <= |changes|
  {
    if n == 0 then db else Apply(ApplyAll(db, changes, n - 1), changes[n - 1])
  }

  function Commit(db: Db, task: nat, changes: seq<Change>): Db {
    var db' := ApplyAll(db, changes, |changes|);
    db'.(tasks := db'.tasks - {task})
  }

  // ----- garbage -----

  /** The datasets of a list that are called `x`. */
  function CalledSet(objects: map<Handle, Dataset>, hs: seq<Handle>, x: string): set<Handle> {
    set h | h in hs && h in objects && objects[h].IsCalled(x)
  }

  /** `destroy_dataset`: frees a loaded dataset and removes it from disk. */
  function Destroy(db: Db, x: string): Db {
    var freed := CalledSet(db.objects, db.loaded, x);
    db.(objects := db.objects - freed,
        loaded := Without(db.objects, db.loaded, |db.loaded|, x),
        disk := db.disk - NamesOf(db.objects, freed))
  }

  function DestroyAll(db: Db, names: seq<string>, n: nat): Db
    requires n <= |names|
  {
    if n == 0 then db else Destroy(DestroyAll(db, names, n - 1), names[n - 1])
  }

  function NamesOf(objects: map<Handle, Dataset>, hs: set<Handle>): set<string> {
    set h | h in hs && h in objects :: objects[h].name
  }

  /** The names of the first `n` loaded datasets that nobody needs. */
  function DropList(db: Db, required: set<string>, n: nat): seq<string>
    requires n <= |db.loaded|
  {
    if n == 0 then []
    else
      var h := db.loaded[n - 1];
      var unneeded := h in db.objects && db.objects[h].name !in required;
      DropList(db, required, n - 1) + (if unneeded then [db.objects[h].name] else [])
  }

  /** `collect_garbage`: `held` are the datasets of the snapshots of all busy workers. */
  function Collect(db: Db, held: set<Handle>): Db {
    var required := NamesOf(db.objects, (set h | h in db.working) + held);
    var drops := DropList(db, required, |db.loaded|);
    DestroyAll(db, drops, |drops|)
  }

  // ----- what always holds -----

  predicate NoRepeats(hs: seq<Handle>) {
    forall i, j :: 0 <= i < j < |hs| ==> hs[i] != hs[j]
  }

  /** The loaded list owns every object once, and every working dataset is loaded. */
  ghost predicate HeapOk(db: Db) {
    && NoRepeats(db.loaded) && NoRepeats(db.working)
    && (forall h :: h in db.loaded <==> h in db.objects)
    && (forall h :: h in db.working ==> h in db.objects)
    && (forall h :: h in db.objects ==> h < db.next)
  }

  /** Names on disk are well formed, and no two have the same id. */
  ghost predicate DiskOk(db: Db) {
    && (forall n :: n in db.disk ==> db.disk[n].name == n && WellNamed(n))
    && (forall m, n :: m in db.disk && n in db.disk && IdOf(m) == IdOf(n) ==> m == n)
  }

  /** Every object is the dataset on disk of that name, and no two have the same. */
  ghost predicate ShadowOk(db: Db) {
    && (forall h :: h in db.objects ==> db.objects[h].name in db.disk && db.disk[db.objects[h].name] == db.objects[h])
    && (forall g, h :: g in db.objects && h in db.objects && db.objects[g].name == db.objects[h].name ==> g == h)
  }

  ghost predicate ItersOk(db: Db) {
    && (forall i :: i in db.iterators ==> IdOf(db.iterators[i].name) == i)
    && (forall n :: n in db.stored ==> db.stored[n].name == n)
  }

  ghost predicate TasksOk(db: Db) {
    forall k :: k in db.tasks ==> db.tasks[k].id == k <= db.lastTaskId
  }

  ghost predicate DbParts(db: Db) {
    HeapOk(db) && DiskOk(db) && ShadowOk(db) && ItersOk(db) && TasksOk(db)
  }

  /**
   * The invariant of the database. It is stated of everything equal to `db`, so that the parts come
   * into a proof only where it names `DbParts`.
   */
  ghost predicate DbOk(db: Db) {
    forall d {:trigger DbParts(d)} :: d == db ==> DbParts(d)
  }

  ghost predicate Unloaded(db: Db, name: string) {
    forall h :: h in db.objects ==> db.objects[h].name != name
  }

  lemma {:induction false} WithoutExactly(objects: map<Handle, Dataset>, hs: seq<Handle>, n: nat, x: string, h: Handle)
    requires n <= |hs|
    ensures h in Without(objects, hs, n, x) <==> h in hs[..n] && !(h in objects && objects[h].IsCalled(x))
  {
    if n > 0 {
      WithoutExactly(objects, hs, n - 1, x, h);
      PrefixMore(hs, n - 1);
    }
  }

  lemma {:induction false} WithoutNoRepeats(objects: map<Handle, Dataset>, hs: seq<Handle>, n: nat, x: string)
    requires n <= |hs| && NoRepeats(hs)
    ensures NoRepeats(Without(objects, hs, n, x))
  {
    if n > 0 {
      WithoutNoRepeats(objects, hs, n - 1, x);
      WithoutExactly(objects, hs, n - 1, x, hs[n - 1]);
      assert hs[n - 1] !in hs[..n - 1];
    }
  }

  lemma NoRepeatsMore(hs: seq<Handle>, h: Handle)
    requires NoRepeats(hs) && h !in hs
    ensures NoRepeats(hs + [h])
  {
  }

  lemma LoadOk(db: Db, name: string)
    requires DbOk(db) && name in db.disk && Unloaded(db, name)
    ensures DbOk(LoadDataset(db, name))
  {
    assert DbParts(db);
    var db' := LoadDataset(db, name);
    assert db.next !in db.objects;
    NoRepeatsMore(db.loaded, db.next);
    NoRepeatsMore(db.working, db.next);
    assert HeapOk(db');
    assert ShadowOk(db');
    assert DbParts(db');
  }

  lemma DropOk(db: Db, x: string)
    requires DbOk(db)
    ensures DbOk(DropWorking(db, x))
  {
    assert DbParts(db);
    WithoutNoRepeats(db.objects, db.working, |db.working|, x);
    assert HeapOk(DropWorking(db, x));
    assert DbParts(DropWorking(db, x));
  }

  lemma ToggleOk(db: Db, id: string, taint: string)
    requires DbOk(db)
    ensures DbOk(Toggle(db, id, taint))
  {
    assert DbParts(db);
    var h := FindId(db.objects, db.working, |db.working|, id);
    if h.Some? {
      var d := db.objects[h.value];
      SaveOk(db, h.value, d.(taints := Toggled(d.taints, taint)));
    }
  }

  /** Changing an object and saving it under its name. */
  function Saved(db: Db, h: Handle, d: Dataset): Db {
    db.(objects := db.objects[h := d], disk := db.disk[d.name := d])
  }

  lemma SaveOk(db: Db, h: Handle, d: Dataset)
    requires DbOk(db) && h in db.objects && d.name == db.objects[h].name
    ensures DbOk(Saved(db, h, d))
  {
    assert DbParts(db);
    SaveHeapOk(db, h, d);
    SaveDiskOk(db, h, d);
    SaveShadowOk(db, h, d);
    assert DbParts(Saved(db, h, d));
  }

  lemma SaveHeapOk(db: Db, h: Handle, d: Dataset)
    requires HeapOk(db) && h in db.objects
    ensures HeapOk(Saved(db, h, d))
  {
    assert Saved(db, h, d).objects.Keys == db.objects.Keys;
  }

  lemma SaveDiskOk(db: Db, h: Handle, d: Dataset)
    requires DiskOk(db) && d.name in db.disk
    ensures DiskOk(Saved(db, h, d))
  {
    assert Saved(db, h, d).disk.Keys == db.disk.Keys;
  }

  lemma SaveShadowOk(db: Db, h: Handle, d: Dataset)
    requires ShadowOk(db) && h in db.objects && d.name == db.objects[h].name
    ensures ShadowOk(Saved(db, h, d))
  {
    var db' := Saved(db, h, d);
    forall g | g in db'.objects
      ensures db'.objects[g].name in db'.disk && db'.disk[db'.objects[g].name] == db'.objects[g]
    {
      assert g != h ==> db.objects[g].name != d.name;
    }
  }

  lemma LoadIteratorOk(db: Db, name: string)
    requires DbOk(db) && name in db.stored
    ensures DbOk(LoadIterator(db, name))
  {
    assert DbParts(db);
    assert ItersOk(LoadIterator(db, name));
    assert DbParts(LoadIterator(db, name));
  }

  lemma MoveIteratorOk(db: Db, id: string, bytes: nat, files: nat)
    requires DbOk(db)
    ensures DbOk(MoveIterator(db, id, bytes, files))
  {
    assert DbParts(db);
    MovedItersOk(db, id, bytes, files);
    ItersChanged(db, MoveIterator(db, id, bytes, files));
  }

  lemma MovedItersOk(db: Db, id: string, bytes: nat, files: nat)
    requires ItersOk(db)
    ensures ItersOk(MoveIterator(db, id, bytes, files))
  {
  }

  /** Only the iterators have changed. */
  lemma ItersChanged(db: Db, db': Db)
    requires DbOk(db) && ItersOk(db') && db' == db.(iterators := db'.iterators, stored := db'.stored)
    ensures DbOk(db')
  {
    assert DbParts(db);
    assert DbParts(db');
  }

  // ----- what a task may change -----

  /** The locks of a task, the drops it was asked for by name, and the new names it brought. */
  datatype Authority = Authority(locks: seq<Lock>, drops: set<string>, names: set<string>, iters: set<string>)
  {
    predicate Locks(id: string) {
      DatasetLock(id) in locks
    }

    /** The dataset may get other taints. */
    predicate MayTaint(d: Dataset) {
      Locks(d.Id()) || d.name in names
    }

    /** The dataset may leave the working set. */
    predicate MayDrop(d: Dataset) {
      Locks(d.Id()) || d.name in drops || d.Id() in drops
    }
  }

  ghost predicate Permits(a: Authority, c: Change) {
    match c
    case Insert(name) => name in a.names
    case Drop(x) => x in a.drops || (a.Locks(x) && '.' !in x)
    case Reload(_) => false
    case ToggleTaint(id, _) => a.Locks(id) || exists n :: n in a.names && IdOf(n) == id
    case NewIterator(name) => IdOf(name) in a.iters
    case UpdateIterator(name, _, _) => IteratorLock(IdOf(name)) in a.locks
  }

  predicate SameBut(a: Authority, d: Dataset, e: Dataset) {
    e == d.(taints := e.taints) && (e.taints == d.taints || a.MayTaint(d))
  }

  ghost predicate ObjectsEvolve(a: Authority, x: Db, y: Db) {
    && (forall h :: h in x.objects ==> h in y.objects && SameBut(a, x.objects[h], y.objects[h]))
    && (forall h :: h in y.objects ==> h in x.objects || y.objects[h].name in a.names)
  }

  ghost predicate DiskEvolves(a: Authority, x: Db, y: Db) {
    && x.disk.Keys == y.disk.Keys
    && forall n :: n in x.disk ==> SameBut(a, x.disk[n], y.disk[n])
  }

  /** What is on disk only, and is not brought along, is not touched. */
  ghost predicate UnloadedStay(a: Authority, x: Db, y: Db) {
    forall n :: n in x.disk && Unloaded(x, n) && n !in a.names ==> n in y.disk && y.disk[n] == x.disk[n] && Unloaded(y, n)
  }

  ghost predicate WorkingEvolves(a: Authority, x: Db, y: Db) {
    forall h :: h in x.working && h in x.objects ==> h in y.working || a.MayDrop(x.objects[h])
  }

  ghost predicate ItersEvolve(a: Authority, x: Db, y: Db) {
    && (forall i :: i in x.iterators && IteratorLock(i) !in a.locks ==> i in y.iterators && y.iterators[i] == x.iterators[i])
    && (forall i :: i in y.iterators ==> i in x.iterators || i in a.iters)
    && (forall n :: n in x.stored && IteratorLock(IdOf(n)) !in a.locks ==> n in y.stored && y.stored[n] == x.stored[n])
  }

  ghost predicate EvolvesParts(a: Authority, x: Db, y: Db) {
    && ObjectsEvolve(a, x, y) && DiskEvolves(a, x, y) && UnloadedStay(a, x, y)
    && WorkingEvolves(a, x, y) && ItersEvolve(a, x, y)
    && y.tasks == x.tasks && y.lastTaskId == x.lastTaskId
  }

  /** All that is allowed to happen to the database under this authority; as with `DbOk`, of all equals. */
  ghost predicate Evolves(a: Authority, x: Db, y: Db) {
    forall d {:trigger EvolvesParts(a, x, d)} :: d == y ==> EvolvesParts(a, x, d)
  }

  lemma EvolvesTrans(a: Authority, x: Db, y: Db, z: Db)
    requires Evolves(a, x, y) && Evolves(a, y, z)
    ensures Evolves(a, x, z)
  {
    assert EvolvesParts(a, x, y) && EvolvesParts(a, y, z);
    assert ObjectsEvolve(a, x, z);
    assert DiskEvolves(a, x, z);
    assert UnloadedStay(a, x, z);
    assert WorkingEvolves(a, x, z);
    assert ItersEvolve(a, x, z);
    assert EvolvesParts(a, x, z);
  }

  /** A change that leaves the datasets alone. */
  lemma ItersOnly(a: Authority, x: Db, y: Db)
    requires y.objects == x.objects && y.disk == x.disk && y.working == x.working
    requires y.tasks == x.tasks && y.lastTaskId == x.lastTaskId && ItersEvolve(a, x, y)
    ensures Evolves(a, x, y)
  {
    assert EvolvesParts(a, x, y);
  }

  /** A change that leaves the iterators alone. */
  lemma DatasetsOnly(a: Authority, x: Db, y: Db)
    requires y.iterators == x.iterators && y.stored == x.stored
    requires y.tasks == x.tasks && y.lastTaskId == x.lastTaskId
    requires ObjectsEvolve(a, x, y) && DiskEvolves(a, x, y) && UnloadedStay(a, x, y) && WorkingEvolves(a, x, y)
    ensures Evolves(a, x, y)
  {
    assert EvolvesParts(a, x, y);
  }

  lemma LoadEvolves(a: Authority, db: Db, name: string)
    requires DbOk(db) && name in db.disk && name in a.names
    ensures Evolves(a, db, LoadDataset(db, name))
  {
    assert DbParts(db);
    var db' := LoadDataset(db, name);
    assert db.next !in db.objects;
    assert ObjectsEvolve(a, db, db');
    DatasetsOnly(a, db, db');
  }

  lemma DropEvolves(a: Authority, db: Db, x: string)
    requires DbOk(db) && (x in a.drops || (a.Locks(x) && '.' !in x))
    ensures Evolves(a, db, DropWorking(db, x))
  {
    assert DbParts(db);
    var db' := DropWorking(db, x);
    forall h | h in db.working && h in db.objects ensures h in db'.working || a.MayDrop(db.objects[h]) {
      WithoutExactly(db.objects, db.working, |db.working|, x, h);
      if db.objects[h].IsCalled(x) {
        CalledByLock(a, db.objects[h], x);
      }
    }
    DatasetsOnly(a, db, db');
  }

  lemma CalledByLock(a: Authority, d: Dataset, x: string)
    requires WellNamed(d.name) && d.IsCalled(x) && (x in a.drops || (a.Locks(x) && '.' !in x))
    ensures a.MayDrop(d)
  {
    if x !in a.drops {
      IdIsNoName(d.name, x);
    }
  }

  lemma ToggleEvolves(a: Authority, db: Db, id: string, taint: string)
    requires DbOk(db) && (a.Locks(id) || exists n :: n in a.names && IdOf(n) == id)
    requires forall n :: n in a.names ==> n in db.disk
    ensures Evolves(a, db, Toggle(db, id, taint))
  {
    assert DbParts(db);
    var h := FindId(db.objects, db.working, |db.working|, id);
    if h.Some? {
      var d := db.objects[h.value];
      assert a.MayTaint(d);
      SaveEvolves(a, db, h.value, d.(taints := Toggled(d.taints, taint)));
    }
  }

  lemma SaveUnloaded(a: Authority, db: Db, h: Handle, d: Dataset)
    requires h in db.objects && d.name == db.objects[h].name
    ensures UnloadedStay(a, db, Saved(db, h, d))
  {
  }

  lemma SaveEvolves(a: Authority, db: Db, h: Handle, d: Dataset)
    requires DbOk(db) && h in db.objects && SameBut(a, db.objects[h], d)
    ensures Evolves(a, db, Saved(db, h, d))
  {
    assert DbParts(db);
    var db' := Saved(db, h, d);
    assert db'.disk.Keys == db.disk.Keys;
    assert DiskEvolves(a, db, db');
    assert ObjectsEvolve(a, db, db');
    SaveUnloaded(a, db, h, d);
    DatasetsOnly(a, db, db');
  }

  lemma LoadIteratorEvolves(a: Authority, db: Db, name: string)
    requires DbOk(db) && name in db.stored && IdOf(name) in a.iters
    ensures Evolves(a, db, LoadIterator(db, name))
  {
    assert DbParts(db);
    ItersOnly(a, db, LoadIterator(db, name));
  }

  lemma MoveIteratorEvolves(a: Authority, db: Db, id: string, bytes: nat, files: nat)
    requires DbOk(db) && IteratorLock(id) in a.locks
    ensures Evolves(a, db, MoveIterator(db, id, bytes, files))
  {
    assert DbParts(db);
    ItersOnly(a, db, MoveIterator(db, id, bytes, files));
  }

  lemma EvolvesRefl(a: Authority, db: Db)
    ensures Evolves(a, db, db)
  {
    assert EvolvesParts(a, db, db);
  }

  lemma ApplyOk(a: Authority, db: Db, c: Change)
    requires DbOk(db) && Permits(a, c)
    requires c.Insert? ==> Unloaded(db, c.name)
    ensures DbOk(Apply(db, c))
  {
    match c
    case Insert(name) =>
      if name in db.disk {
        LoadOk(db, name);
      }
    case Drop(x) => DropOk(db, x);
    case ToggleTaint(id, taint) => ToggleOk(db, id, taint);
    case NewIterator(name) =>
      if name in db.stored {
        LoadIteratorOk(db, name);
      }
    case UpdateIterator(name, bytes, files) => MoveIteratorOk(db, IdOf(name), bytes, files);
  }

  /** A permitted change does nothing beyond the authority it is made under. */
  lemma ApplyEvolves(a: Authority, db: Db, c: Change)
    requires DbOk(db) && Permits(a, c) && (forall n :: n in a.names ==> n in db.disk)
    ensures Evolves(a, db, Apply(db, c))
  {
    match c
    case Insert(name) => LoadEvolves(a, db, name);
    case Drop(x) => DropEvolves(a, db, x);
    case ToggleTaint(id, taint) => ToggleEvolves(a, db, id, taint);
    case NewIterator(name) =>
      if name in db.stored {
        LoadIteratorEvolves(a, db, name);
      }
      EvolvesRefl(a, db);
    case UpdateIterator(name, bytes, files) => MoveIteratorEvolves(a, db, IdOf(name), bytes, files);
  }

  // ----- commits -----

  /** Every change is permitted, and every dataset inserted is on disk, not loaded, and inserted once. */
  ghost predicate CanApply(a: Authority, db: Db, changes: seq<Change>) {
    && (forall n :: n in a.names ==> n in db.disk && Unloaded(db, n))
    && (forall i :: 0 <= i < |changes| ==> Permits(a, changes[i]))
    && (forall i, j :: 0 <= i < j < |changes| && changes[i].Insert? ==> changes[i] != changes[j])
  }

  /** Datasets that were not loaded before come from the first `n` changes. */
  ghost predicate OnlyInserted(db: Db, changes: seq<Change>, n: nat, db': Db)
    requires n <= |changes|
  {
    forall h :: h in db'.objects ==>
      || (h in db.objects && db.objects[h].name == db'.objects[h].name)
      || Insert(db'.objects[h].name) in changes[..n]
  }

  /** A change renames nothing, and loads at most the dataset that it inserts. */
  ghost predicate NamesFrom(db: Db, db': Db, c: Change) {
    forall h :: h in db'.objects ==>
      (h in db.objects && db.objects[h].name == db'.objects[h].name) || c == Insert(db'.objects[h].name)
  }

  lemma ApplyNames(a: Authority, db: Db, c: Change)
    requires DbOk(db) && Permits(a, c)
    ensures NamesFrom(db, Apply(db, c), c)
  {
    if c.Insert? {
      LoadNames(db, c.name);
    } else if c.ToggleTaint? {
      ToggleNames(db, c.id, c.taint);
    } else {
      assert Apply(db, c).objects == db.objects;
    }
  }

  lemma LoadNames(db: Db, name: string)
    requires DbOk(db)
    ensures name in db.disk ==> NamesFrom(db, LoadDataset(db, name), Insert(name))
  {
    assert DbParts(db);
  }

  lemma ToggleNames(db: Db, id: string, taint: string)
    requires DbOk(db)
    ensures NamesFrom(db, Toggle(db, id, taint), ToggleTaint(id, taint))
  {
    assert Toggle(db, id, taint).objects.Keys == db.objects.Keys;
  }

  lemma InsertedMore(a: Authority, db: Db, changes: seq<Change>, n: nat, db': Db)
    requires n < |changes| && OnlyInserted(db, changes, n, db') && DbOk(db') && Permits(a, changes[n])
    ensures OnlyInserted(db, changes, n + 1, Apply(db', changes[n]))
  {
    PrefixMore(changes, n);
    ApplyNames(a, db', changes[n]);
  }

  lemma StillUnloaded(a: Authority, db: Db, changes: seq<Change>, n: nat, db': Db)
    requires CanApply(a, db, changes) && n < |changes| && changes[n].Insert?
    requires OnlyInserted(db, changes, n, db')
    ensures Unloaded(db', changes[n].name)
  {
    assert changes[n].name in a.names && Unloaded(db, changes[n].name);
    assert changes[n] !in changes[..n];
  }

  /** What holds of the database after `n` changes. */
  ghost predicate Reached(a: Authority, db: Db, changes: seq<Change>, n: nat, db': Db)
    requires n <= |changes|
  {
    DbOk(db') && Evolves(a, db, db') && OnlyInserted(db, changes, n, db')
  }

  lemma ReachedStart(a: Authority, db: Db, changes: seq<Change>)
    requires DbOk(db)
    ensures Reached(a, db, changes, 0, db)
  {
    EvolvesRefl(a, db);
  }

  lemma ReachedMore(a: Authority, db: Db, changes: seq<Change>, n: nat, db': Db)
    requires CanApply(a, db, changes) && n < |changes| && Reached(a, db, changes, n, db')
    ensures Reached(a, db, changes, n + 1, Apply(db', changes[n]))
  {
    if changes[n].Insert? {
      StillUnloaded(a, db, changes, n, db');
    }
    assert EvolvesParts(a, db, db');
    NamesStay(a, db, db');
    ApplyOk(a, db', changes[n]);
    ApplyEvolves(a, db', changes[n]);
    EvolvesTrans(a, db, db', Apply(db', changes[n]));
    InsertedMore(a, db, changes, n, db');
  }

  lemma ReachedNext(a: Authority, db: Db, changes: seq<Change>, n: nat)
    requires CanApply(a, db, changes) && n < |changes|
    requires Reached(a, db, changes, n, ApplyAll(db, changes, n))
    ensures Reached(a, db, changes, n + 1, ApplyAll(db, changes, n + 1))
  {
    ReachedMore(a, db, changes, n, ApplyAll(db, changes, n));
  }

  /** Permitted changes keep the database sound, and do nothing beyond their authority. */
  lemma {:induction false} ApplyAllEvolves(a: Authority, db: Db, changes: seq<Change>, n: nat)
    requires DbOk(db) && CanApply(a, db, changes) && n <= |changes|
    ensures Reached(a, db, changes, n, ApplyAll(db, changes, n))
  {
    if n == 0 {
      ReachedStart(a, db, changes);
    } else {
      ApplyAllEvolves(a, db, changes, n - 1);
      ReachedNext(a, db, changes, n - 1);
    }
  }

  lemma NamesStay(a: Authority, db: Db, db': Db)
    requires DiskEvolves(a, db, db') && forall n :: n in a.names ==> n in db.disk
    ensures forall n :: n in a.names ==> n in db'.disk
  {
    assert db'.disk.Keys == db.disk.Keys;
  }

  // ----- garbage collection -----

  /** What is left after destroying datasets with some of the names. */
  ghost predicate Kept(db: Db, db': Db, names: set<string>) {
    && (forall h :: h in db'.objects <==> h in db.objects && db.objects[h].name !in names)
    && (forall h :: h in db'.objects ==> db'.objects[h] == db.objects[h])
    && (forall n :: n in db'.disk <==> n in db.disk && (n in names ==> Unloaded(db, n)))
    && (forall n :: n in db'.disk ==> db'.disk[n] == db.disk[n])
    && db' == db.(objects := db'.objects, loaded := db'.loaded, disk := db'.disk)
  }

  /** Destroying by file name destroys just the dataset of that name. */
  lemma CalledByName(db: Db, x: string, h: Handle)
    requires DbOk(db) && WellNamed(x) && h in db.objects
    ensures db.objects[h].IsCalled(x) <==> db.objects[h].name == x
  {
    assert DbParts(db);
    IdIsNoName(x, db.objects[h].Id());
  }

  lemma DestroyLoaded(db: Db, x: string)
    requires DbOk(db)
    ensures forall h :: h in Destroy(db, x).loaded <==> h in Destroy(db, x).objects
    ensures NoRepeats(Destroy(db, x).loaded)
  {
    assert DbParts(db);
    forall h ensures h in Destroy(db, x).loaded <==> h in db.objects && !db.objects[h].IsCalled(x) {
      WithoutExactly(db.objects, db.loaded, |db.loaded|, x, h);
    }
    WithoutNoRepeats(db.objects, db.loaded, |db.loaded|, x);
  }

  lemma DestroyKept(db: Db, x: string)
    requires DbOk(db) && WellNamed(x)
    ensures Kept(db, Destroy(db, x), {x})
  {
    NamedExactly(db, x);
    KeptOnDisk(db, x);
    KeptObjects(db, x);
  }

  lemma NamedExactly(db: Db, x: string)
    requires DbOk(db) && WellNamed(x)
    ensures HeapOk(db) && forall h :: h in db.objects ==> (db.objects[h].IsCalled(x) <==> db.objects[h].name == x)
  {
    assert DbParts(db);
    forall h | h in db.objects ensures db.objects[h].IsCalled(x) <==> db.objects[h].name == x {
      CalledByName(db, x, h);
    }
  }

  lemma KeptObjects(db: Db, x: string)
    requires HeapOk(db) && forall h :: h in db.objects ==> (db.objects[h].IsCalled(x) <==> db.objects[h].name == x)
    ensures forall h :: h in Destroy(db, x).objects <==> h in db.objects && db.objects[h].name != x
  {
  }

  lemma KeptOnDisk(db: Db, x: string)
    requires HeapOk(db) && forall h :: h in db.objects ==> (db.objects[h].IsCalled(x) <==> db.objects[h].name == x)
    ensures forall n :: n in Destroy(db, x).disk <==> n in db.disk && (n == x ==> Unloaded(db, n))
  {
    forall n | n in db.disk ensures n in Destroy(db, x).disk <==> (n == x ==> Unloaded(db, n)) {
      if n == x && !Unloaded(db, n) {
        var h :| h in db.objects && db.objects[h].name == n;
        assert h in db.loaded;
      }
    }
  }

  lemma KeptOk(db: Db, db': Db, names: set<string>)
    requires DbOk(db) && Kept(db, db', names)
    requires forall h :: h in db'.loaded <==> h in db'.objects
    requires NoRepeats(db'.loaded) && forall h :: h in db.working ==> h in db'.objects
    ensures DbOk(db')
  {
    assert DbParts(db);
    assert HeapOk(db');
    assert DiskOk(db');
    forall h | h in db'.objects ensures db'.objects[h].name in db'.disk && db'.disk[db'.objects[h].name] == db'.objects[h] {
      assert db.objects[h].name in db.disk;
    }
    assert ShadowOk(db');
    assert DbParts(db');
  }

  lemma KeptMore(db: Db, db': Db, db'': Db, names: set<string>, x: string)
    requires Kept(db, db', names) && Kept(db', db'', {x}) && x !in names
    ensures Kept(db, db'', names + {x})
  {
    assert Unloaded(db', x) <==> Unloaded(db, x);
    forall n ensures n in db''.disk <==> n in db.disk && (n in names + {x} ==> Unloaded(db, n)) {
    }
  }

  function NameSet(names: seq<string>, n: nat): set<string>
    requires n <= |names|
  {
    if n == 0 then {} else NameSet(names, n - 1) + {names[n - 1]}
  }

  /** File names without repetitions, none of a working dataset. */
  ghost predicate CanDestroy(db: Db, names: seq<string>) {
    && (forall i, j :: 0 <= i < j < |names| ==> names[i] != names[j])
    && (forall i :: 0 <= i < |names| ==> WellNamed(names[i]))
    && (forall i, h :: 0 <= i < |names| && h in db.working && h in db.objects ==> db.objects[h].name != names[i])
  }

  lemma {:induction false} NameSetIs(names: seq<string>, n: nat, x: string)
    requires n <= |names|
    ensures x in NameSet(names, n) <==> x in names[..n]
  {
    if n > 0 {
      NameSetIs(names, n - 1, x);
      PrefixMore(names, n - 1);
    }
  }

  lemma WorkingKept(db: Db, names: seq<string>, n: nat, db': Db)
    requires DbOk(db) && CanDestroy(db, names) && n <= |names| && Kept(db, db', NameSet(names, n))
    ensures forall h :: h in db.working ==> h in db'.objects
  {
    assert DbParts(db);
    forall h | h in db.working ensures h in db'.objects {
      NameSetIs(names, n, db.objects[h].name);
    }
  }

  lemma {:induction false} DestroyAllKept(db: Db, names: seq<string>, n: nat)
    requires DbOk(db) && CanDestroy(db, names) && n <= |names|
    ensures DestroyedUpTo(db, names, n, DestroyAll(db, names, n))
  {
    if n > 0 {
      DestroyAllKept(db, names, n - 1);
      DestroyNext(db, names, n - 1, DestroyAll(db, names, n - 1));
    } else {
      KeptAll(db);
    }
  }

  lemma KeptAll(db: Db)
    requires DbOk(db)
    ensures Kept(db, db, {})
  {
  }

  /** The state after destroying the first `n` datasets; as with `DbOk`, of all equals. */
  ghost predicate DestroyedUpTo(db: Db, names: seq<string>, n: nat, db': Db)
    requires n <= |names|
  {
    DbOk(db') && forall d {:trigger Kept(db, d, NameSet(names, n))} :: d == db' ==> Kept(db, d, NameSet(names, n))
  }

  lemma DestroyNext(db: Db, names: seq<string>, n: nat, db': Db)
    requires DbOk(db) && CanDestroy(db, names) && n < |names|
    requires DestroyedUpTo(db, names, n, db')
    ensures DestroyedUpTo(db, names, n + 1, Destroy(db', names[n]))
  {
    var x, db'' := names[n], Destroy(db', names[n]);
    assert Kept(db, db', NameSet(names, n));
    DestroyKept(db', x);
    DestroyLoaded(db', x);
    NameSetIs(names, n, x);
    KeptMore(db, db', db'', NameSet(names, n), x);
    WorkingKept(db, names, n + 1, db'');
    KeptOk(db', db'', {x});
  }

  predicate IsNamed(db: Db, h: Handle, x: string) {
    h in db.objects && db.objects[h].name == x
  }

  lemma DropListNext(db: Db, required: set<string>, n: nat)
    requires n < |db.loaded| && db.loaded[n] in db.objects
    ensures var name := db.objects[db.loaded[n]].name;
      DropList(db, required, n + 1) == DropList(db, required, n) + (if name in required then [] else [name])
  {
  }

  lemma {:induction false} DropListExactly(db: Db, required: set<string>, n: nat, x: string)
    requires n <= |db.loaded| && forall h :: h in db.loaded ==> h in db.objects
    ensures x in DropList(db, required, n)
       <==> x !in required && exists i :: 0 <= i < n && IsNamed(db, db.loaded[i], x)
  {
    if n > 0 {
      DropListExactly(db, required, n - 1, x);
      assert db.loaded[n - 1] in db.loaded;
      DropListNext(db, required, n - 1);
      assert IsNamed(db, db.loaded[n - 1], x) <==> db.objects[db.loaded[n - 1]].name == x;
    }
  }

  lemma {:induction false} DropListNoRepeats(db: Db, required: set<string>, n: nat)
    requires HeapOk(db) && ShadowOk(db) && n <= |db.loaded|
    ensures var r := DropList(db, required, n); forall i, j :: 0 <= i < j < |r| ==> r[i] != r[j]
  {
    if n > 0 {
      DropListNoRepeats(db, required, n - 1);
      DropListNext(db, required, n - 1);
      DropListExactly(db, required, n - 1, db.objects[db.loaded[n - 1]].name);
      NamedOnce(db, n - 1);
    }
  }

  /** No dataset loaded before has the name of this one. */
  lemma NamedOnce(db: Db, n: nat)
    requires HeapOk(db) && ShadowOk(db) && n < |db.loaded|
    ensures forall i :: 0 <= i < n ==> !IsNamed(db, db.loaded[i], db.objects[db.loaded[n]].name)
  {
  }

  lemma CanDestroyDrops(db: Db, required: set<string>)
    requires DbOk(db) && forall h :: h in db.working && h in db.objects ==> db.objects[h].name in required
    ensures CanDestroy(db, DropList(db, required, |db.loaded|))
  {
    assert DbParts(db);
    var drops := DropList(db, required, |db.loaded|);
    DropListNoRepeats(db, required, |db.loaded|);
    forall i | 0 <= i < |drops| ensures WellNamed(drops[i]) && drops[i] !in required {
      DropListExactly(db, required, |db.loaded|, drops[i]);
    }
  }

  /** The names of loaded datasets that are neither working nor held. */
  function Unneeded(db: Db, held: set<Handle>): set<string> {
    NamesOf(db.objects, db.objects.Keys) - NamesOf(db.objects, (set h | h in db.working) + held)
  }

  /** A garbage collection removes the unneeded datasets and nothing else. */
  lemma CollectKept(db: Db, held: set<Handle>)
    requires DbOk(db)
    ensures DbOk(Collect(db, held)) && Kept(db, Collect(db, held), Unneeded(db, held))
  {
    var required := NamesOf(db.objects, (set h | h in db.working) + held);
    var drops := DropList(db, required, |db.loaded|);
    CanDestroyDrops(db, required);
    DestroyAllKept(db, drops, |drops|);
    assert Kept(db, Collect(db, held), NameSet(drops, |drops|));
    forall x ensures x in NameSet(drops, |drops|) <==> x in Unneeded(db, held) {
      DroppedNames(db, required, x);
    }
    assert NameSet(drops, |drops|) == Unneeded(db, held);
  }

  /** After the garbage collection, exactly the working datasets and those held by busy workers are loaded. */
  lemma CollectExactly(db: Db, held: set<Handle>)
    requires DbOk(db) && forall h :: h in held ==> h in db.objects
    ensures forall h :: h in Collect(db, held).objects <==> h in db.working || h in held
  {
    assert DbParts(db);
    CollectKept(db, held);
    var needed := (set h | h in db.working) + held;
    forall h | h in db.objects ensures db.objects[h].name in Unneeded(db, held) <==> h !in needed {
      RequiredIff(db, needed, h);
    }
  }

  lemma DroppedNames(db: Db, required: set<string>, x: string)
    requires DbOk(db)
    ensures var drops := DropList(db, required, |db.loaded|);
      x in NameSet(drops, |drops|) <==> x in NamesOf(db.objects, db.objects.Keys) - required
  {
    assert DbParts(db);
    var drops := DropList(db, required, |db.loaded|);
    NameSetIs(drops, |drops|, x);
    assert drops[..|drops|] == drops;
    DropListExactly(db, required, |db.loaded|, x);
    if h :| h in db.objects && db.objects[h].name == x {
      var i :| 0 <= i < |db.loaded| && db.loaded[i] == h;
      assert IsNamed(db, db.loaded[i], x);
    }
  }

  lemma RequiredIff(db: Db, needed: set<Handle>, h: Handle)
    requires DbOk(db) && h in db.objects
    ensures db.objects[h].name in NamesOf(db.objects, needed) <==> h in needed
  {
    assert DbParts(db);
    if db.objects[h].name in NamesOf(db.objects, needed) {
      var g :| g in needed && g in db.objects && db.objects[g].name == db.objects[h].name;
      assert g == h;
    }
  }
}
