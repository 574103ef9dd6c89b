/** The database as it runs (`Database`): each method does what the state model says. */
module Databases {
  import opened Core
  import opened DatabaseStates
  import opened Broker

  class Database {
    var objects: map<Handle, Dataset>
    var next: Handle
    var working: seq<Handle>
    var loaded: seq<Handle>
    var disk: map<string, Dataset>
    var iterators: map<string, Iter>
    var stored: map<string, Iter>
    var lastTaskId: nat
    var tasks: map<nat, TaskSpec>

    function View(): Db
      reads this
    {
      Db(objects, next, working, loaded, disk, iterators, stored, lastTaskId, tasks)
    }

    constructor (db: Db)
      ensures View() == db
    {
      objects, next, working, loaded, disk := db.objects, db.next, db.working, db.loaded, db.disk;
      iterators, stored, lastTaskId, tasks := db.iterators, db.stored, db.lastTaskId, db.tasks;
    }

    // ----- tasks -----

    /** Whether no task has the lock. */
    method CanAcquireLock(lock: Lock) returns (ok: bool)
      ensures ok == CanAcquire(View(), lock)
    {
      var rest := tasks.Keys;
      while rest != {}
        invariant rest <= tasks.Keys
        invariant forall k :: k in tasks && k !in rest ==> lock !in tasks[k].locks
      {
        var k :| k in rest;
        if lock in tasks[k].locks {
          return false;
        }
        rest := rest - {k};
      }
      return true;
    }

    /** Allocates a task that holds the locks; `None` is the "can't acquire lock" error. */
    method AllocateTask(c: Command, locks: seq<Lock>) returns (id: Option<nat>)
      modifies this
      ensures id.Some? <==> CanAcquireAll(old(View()), locks)
      ensures View() == if id.Some? then Allocated(old(View()), c, locks) else old(View())
      ensures id.Some? ==> id.value == old(lastTaskId) + 1
    {
      for i := 0 to |locks|
        invariant View() == old(View()) && forall j :: 0 <= j < i ==> CanAcquire(View(), locks[j])
      {
        var ok := CanAcquireLock(locks[i]);
        if !ok {
          return None;
        }
      }
      lastTaskId := lastTaskId + 1;
      tasks := tasks[lastTaskId := TaskSpec(lastTaskId, c, locks)];
      id := Some(lastTaskId);
    }

    // ----- datasets -----

    /** The first working dataset with the id. */
    method FindWorkingDataset(id: string) returns (r: Option<Handle>)
      requires HeapOk(View())
      ensures r == FindId(objects, working, |working|, id)
    {
      for i := 0 to |working|
        invariant FindId(objects, working, i, id) == None
      {
        if objects[working[i]].Id() == id {
          FoundFirst(objects, working, i, id);
          return Some(working[i]);
        }
      }
      return None;
    }

    /** Loads a dataset from disk. */
    method LoadDatasetFile(name: string)
      requires name in disk
      modifies this
      ensures View() == LoadDataset(old(View()), name)
    {
      objects := objects[next := disk[name]];
      loaded := loaded + [next];
      working := working + [next];
      next := next + 1;
    }

    /** Takes the datasets called `x` out of the working list. */
    method DropDataset(x: string)
      requires HeapOk(View())
      modifies this`working
      ensures View() == DropWorking(old(View()), x)
    {
      working := EraseCalled(objects, working, x);
    }

    /** Frees the loaded datasets called `x`, and removes their files. */
    method DestroyDataset(x: string)
      requires HeapOk(View())
      modifies this`loaded, this`objects, this`disk
      ensures View() == Destroy(old(View()), x)
    {
      objects, disk, loaded := EraseAndFree(objects, disk, loaded, x);
    }

    method ToggleTaintOf(id: string, taint: string)
      requires HeapOk(View())
      modifies this`objects, this`disk
      ensures View() == Toggle(old(View()), id, taint)
    {
      var h := FindWorkingDataset(id);
      if h.None? {
        return;
      }
      var d := objects[h.value];
      var taints := if taint in d.taints then d.taints - {taint} else d.taints + {taint};
      d := d.(taints := taints);
      objects := objects[h.value := d];
      disk := disk[d.name := d];
    }

    // ----- iterators -----

    method LoadIteratorFile(name: string)
      requires name in stored
      modifies this`iterators
      ensures View() == LoadIterator(old(View()), name)
    {
      if IdOf(name) !in iterators {
        iterators := iterators[IdOf(name) := stored[name]];
      }
    }

    method UpdateIteratorAt(id: string, newBytes: nat, newFiles: nat)
      modifies this`iterators, this`stored
      ensures View() == MoveIterator(old(View()), id, newBytes, newFiles)
    {
      if id !in iterators {
        return;
      }
      var it := iterators[id];
      if newFiles >= |it.names| {
        stored := stored - {it.name};
        iterators := iterators - {id};
      } else {
        it := it.(byteOffset := newBytes, fileOffset := newFiles);
        iterators := iterators[id := it];
        stored := stored[it.name := it];
      }
    }

    // ----- commits -----

    method ApplyChange(c: Change)
      requires HeapOk(View()) && !c.Reload?
      modifies this
      ensures View() == Apply(old(View()), c)
    {
      match c
      case Insert(name) =>
        if name in disk {
          LoadDatasetFile(name);
        }
      case Drop(name) =>
        DropDataset(name);
      case ToggleTaint(id, taint) =>
        ToggleTaintOf(id, taint);
      case NewIterator(name) =>
        if name in stored {
          LoadIteratorFile(name);
        }
      case UpdateIterator(name, bytes, files) =>
        UpdateIteratorAt(IdOf(name), bytes, files);
    }

    /** Applies the changes of a task in order, and erases it. */
    method CommitTask(id: nat, changes: seq<Change>, ghost a: Authority)
      requires DbOk(View()) && CanApply(a, View(), changes)
      modifies this
      ensures View() == Commit(old(View()), id, changes)
    {
      ghost var db := View();
      for i := 0 to |changes|
        invariant View() == ApplyAll(db, changes, i)
      {
        ApplyAllEvolves(a, db, changes, i);
        assert DbParts(View());
        ApplyChange(changes[i]);
      }
      tasks := tasks - {id};
    }

    /** A worker has written new files. */
    method Grow(grown: Db)
      requires DiskGrows(View(), grown)
      modifies this`disk, this`stored
      ensures View() == grown
    {
      disk, stored := grown.disk, grown.stored;
    }

    // ----- garbage collection -----

    /** The names of all working datasets and of those that are held. */
    method RequiredNames(held: set<Handle>) returns (required: set<string>)
      requires HeapOk(View()) && forall h :: h in held ==> h in objects
      ensures required == NamesOf(objects, (set h | h in working) + held)
    {
      required := {};
      for i := 0 to |working|
        invariant required == NamesOf(objects, set h | h in working[..i])
      {
        PrefixMore(working, i);
        required := required + {objects[working[i]].name};
      }
      assert working[..|working|] == working;
      var rest, done := held, {};
      while rest != {}
        invariant rest + done == held && required == NamesOf(objects, (set h | h in working) + done)
        decreases rest
      {
        var h :| h in rest;
        required := required + {objects[h].name};
        rest, done := rest - {h}, done + {h};
      }
      assert done == held;
    }

    /** The names of the loaded datasets that are not required. */
    method UnneededNames(required: set<string>) returns (dropList: seq<string>)
      requires HeapOk(View())
      ensures dropList == DropList(View(), required, |loaded|)
    {
      dropList := [];
      for i := 0 to |loaded|
        invariant dropList == DropList(View(), required, i)
      {
        if objects[loaded[i]].name !in required {
          dropList := dropList + [objects[loaded[i]].name];
        }
      }
    }

    method DestroyListed(dropList: seq<string>)
      requires DbOk(View()) && CanDestroy(View(), dropList)
      modifies this
      ensures View() == DestroyAll(old(View()), dropList, |dropList|)
    {
      ghost var db := View();
      for i := 0 to |dropList|
        invariant View() == DestroyAll(db, dropList, i)
      {
        DestroyAllKept(db, dropList, i);
        assert DbParts(View());
        DestroyDataset(dropList[i]);
      }
    }

    /** Destroys the datasets that are neither working nor held by a snapshot. */
    method CollectGarbage(held: set<Handle>)
      requires DbOk(View()) && forall h :: h in held ==> h in objects
      modifies this
      ensures View() == Collect(old(View()), held)
    {
      assert DbParts(View());
      var required := RequiredNames(held);
      var dropList := UnneededNames(required);
      CanDestroyDrops(View(), required);
      DestroyListed(dropList);
    }
  }

  /** The list without the datasets called `x`, which are erased one by one. */
  method EraseCalled(objects: map<Handle, Dataset>, all: seq<Handle>, x: string) returns (hs: seq<Handle>)
    requires forall h :: h in all ==> h in objects
    ensures hs == Without(objects, all, |all|, x)
  {
    hs := all;
    ghost var n := 0;
    var it := 0;
    assert all[0..] == all;
    while it < |hs|
      invariant n <= |all| && it == |Without(objects, all, n, x)|
      invariant hs == Without(objects, all, n, x) + all[n..]
      decreases |all| - n
    {
      RemoveOrSkip(Without(objects, all, n, x), all, n);
      if objects[hs[it]].IsCalled(x) {
        hs := hs[..it] + hs[it + 1..];
      } else {
        it := it + 1;
      }
      n := n + 1;
    }
    assert all[|all|..] == [];
  }

  /** The state of the loop that frees datasets. */
  datatype Sweep = Sweep(objects: map<Handle, Dataset>, disk: map<string, Dataset>, hs: seq<Handle>, it: nat)

  ghost predicate SweptParts(s: Sweep, all: seq<Handle>, n: nat, x: string, t: Sweep)
    requires n <= |all|
  {
    && t.it == |Without(s.objects, all, n, x)| && t.hs == Without(s.objects, all, n, x) + all[n..]
    && t.objects == s.objects - Freed(s.objects, all, n, x)
    && t.disk == s.disk - NamesOf(s.objects, Freed(s.objects, all, n, x))
  }

  /** The loop has come from `s` to `t` after the first `n` datasets; as with `DbOk`, of all equals. */
  ghost predicate Swept(s: Sweep, all: seq<Handle>, n: nat, x: string, t: Sweep)
    requires n <= |all|
  {
    forall u {:trigger SweptParts(s, all, n, x, u)} :: u == t ==> SweptParts(s, all, n, x, u)
  }

  /** Erases the datasets called `x` from a list, freeing each and removing its files. */
  method EraseAndFree(objects: map<Handle, Dataset>, disk: map<string, Dataset>, all: seq<Handle>, x: string)
    returns (objects': map<Handle, Dataset>, disk': map<string, Dataset>, hs: seq<Handle>)
    requires NoRepeats(all) && forall h :: h in all ==> h in objects
    ensures hs == Without(objects, all, |all|, x)
    ensures objects' == objects - CalledSet(objects, all, x)
    ensures disk' == disk - NamesOf(objects, CalledSet(objects, all, x))
  {
    var sweep := Sweep(objects, disk, all, 0);
    ghost var start, n := sweep, 0;
    NoneFreed(start, x);
    while sweep.it < |sweep.hs|
      invariant n <= |all| && Swept(start, all, n, x, sweep)
      decreases |all| - n
    {
      NotDone(start, all, n, x, sweep);
      sweep := FreeOne(sweep, x, start, all, n);
      n := n + 1;
    }
    FreedDone(start, all, n, x, sweep);
    objects', disk', hs := sweep.objects, sweep.disk, sweep.hs;
  }

  lemma NotDone(s: Sweep, all: seq<Handle>, n: nat, x: string, t: Sweep)
    requires n <= |all| && Swept(s, all, n, x, t) && t.it < |t.hs|
    ensures n < |all|
  {
    assert SweptParts(s, all, n, x, t);
  }

  lemma FreedDone(s: Sweep, all: seq<Handle>, n: nat, x: string, t: Sweep)
    requires n <= |all| && Swept(s, all, n, x, t) && t.it >= |t.hs|
    ensures t.hs == Without(s.objects, all, |all|, x)
    ensures t.objects == s.objects - CalledSet(s.objects, all, x)
    ensures t.disk == s.disk - NamesOf(s.objects, CalledSet(s.objects, all, x))
  {
    assert SweptParts(s, all, n, x, t);
    assert n == |all| && all[n..] == [];
    FreedAll(s.objects, all, x);
  }

  /** Looks at one dataset, and erases and frees it if it is called `x`. */
  method FreeOne(t: Sweep, x: string, ghost s: Sweep, ghost all: seq<Handle>, ghost n: nat) returns (t': Sweep)
    requires n < |all| && Swept(s, all, n, x, t) && NoRepeats(all) && all[n] in s.objects
    ensures Swept(s, all, n + 1, x, t')
  {
    assert SweptParts(s, all, n, x, t);
    FreedMore(s.objects, all, n, x);
    RemoveOrSkip(Without(s.objects, all, n, x), all, n);
    var h := t.hs[t.it];
    if t.objects[h].IsCalled(x) {
      t' := Sweep(t.objects - {h}, t.disk - {t.objects[h].name}, t.hs[..t.it] + t.hs[t.it + 1..], t.it);
    } else {
      t' := t.(it := t.it + 1);
      assert Freed(s.objects, all, n, x) + {} == Freed(s.objects, all, n, x);
    }
    assert SweptParts(s, all, n + 1, x, t');
  }

  lemma FoundFirst(objects: map<Handle, Dataset>, hs: seq<Handle>, i: nat, id: string)
    requires i < |hs| && FindId(objects, hs, i, id) == None && hs[i] in objects && objects[hs[i]].Id() == id
    ensures FindId(objects, hs, |hs|, id) == Some(hs[i])
  {
    FindStays(objects, hs, i + 1, |hs|, id);
  }

  /** What is found stays the first. */
  lemma {:induction false} FindStays(objects: map<Handle, Dataset>, hs: seq<Handle>, m: nat, n: nat, id: string)
    requires m <= n <= |hs| && FindId(objects, hs, m, id).Some?
    ensures FindId(objects, hs, n, id) == FindId(objects, hs, m, id)
  {
    if m < n {
      FindStays(objects, hs, m, n - 1, id);
    }
  }

  /** The element behind a prefix, and the list without it. */
  lemma RemoveOrSkip(kept: seq<Handle>, all: seq<Handle>, n: nat)
    requires n <= |all|
    ensures n < |all| ==> (kept + all[n..])[|kept|] == all[n]
    ensures n < |all| ==> (kept + all[n..])[..|kept|] + (kept + all[n..])[|kept| + 1..] == kept + [] + all[n + 1..]
    ensures n < |all| ==> kept + all[n..] == kept + [all[n]] + all[n + 1..]
  {
  }

  /** The datasets called `x` among the first `n`. */
  ghost function Freed(objects: map<Handle, Dataset>, hs: seq<Handle>, n: nat, x: string): set<Handle>
    requires n <= |hs|
  {
    if n == 0 then {}
    else
      Freed(objects, hs, n - 1, x) + (if hs[n - 1] in objects && objects[hs[n - 1]].IsCalled(x) then {hs[n - 1]} else {})
  }

  lemma {:induction false} FreedExactly(objects: map<Handle, Dataset>, hs: seq<Handle>, n: nat, x: string, h: Handle)
    requires n <= |hs|
    ensures h in Freed(objects, hs, n, x) <==> h in hs[..n] && h in objects && objects[h].IsCalled(x)
  {
    if n > 0 {
      FreedExactly(objects, hs, n - 1, x, h);
      PrefixMore(hs, n - 1);
    }
  }

  lemma FreedMore(objects: map<Handle, Dataset>, hs: seq<Handle>, n: nat, x: string)
    requires n <= |hs| && NoRepeats(hs)
    ensures n < |hs| ==> hs[n] !in Freed(objects, hs, n, x)
    ensures n < |hs| && hs[n] in objects ==>
      NamesOf(objects, Freed(objects, hs, n, x) + {hs[n]}) == NamesOf(objects, Freed(objects, hs, n, x)) + {objects[hs[n]].name}
  {
    if n < |hs| {
      FreedExactly(objects, hs, n, x, hs[n]);
      assert hs[n] !in hs[..n];
    }
  }

  lemma FreedAll(objects: map<Handle, Dataset>, hs: seq<Handle>, x: string)
    ensures Freed(objects, hs, |hs|, x) == CalledSet(objects, hs, x)
  {
    assert hs[..|hs|] == hs;
    forall h ensures h in Freed(objects, hs, |hs|, x) <==> h in hs && h in objects && objects[h].IsCalled(x) {
      FreedExactly(objects, hs, |hs|, x, h);
    }
  }

  lemma NoneFreed(s: Sweep, x: string)
    requires s.it == 0
    ensures Swept(s, s.hs, 0, x, s)
  {
    assert s.objects - Freed(s.objects, s.hs, 0, x) == s.objects;
    assert s.disk - NamesOf(s.objects, Freed(s.objects, s.hs, 0, x)) == s.disk;
    assert s.hs[0..] == s.hs;
    assert SweptParts(s, s.hs, 0, x, s);
  }
}
