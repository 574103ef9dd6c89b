/** Which datasets a compaction merges (`find_compact_candidate`). */
module Compaction {
  import opened Core
  import opened DatabaseStates

  /** Datasets can be merged if they have the same taints and the same index types. */
  datatype Class = Class(taints: set<string>, types: set<IndexType>)

  /** What the choice looks at: the number of files and the size of all index files in bytes. */
  datatype Candidate = Candidate(id: string, cls: Class, files: nat, bytes: nat)

  function Files(cs: seq<Candidate>, n: nat): nat
    requires n <= |cs|
  {
    if n == 0 then 0 else Files(cs, n - 1) + cs[n - 1].files
  }

  datatype Key = ByFiles | ByBytes

  function KeyOf(c: Candidate, key: Key): nat {
    if key == ByFiles then c.files else c.bytes
  }

  predicate SortedBy(cs: seq<Candidate>, key: Key) {
    forall i, j :: 0 <= i < j < |cs| ==> KeyOf(cs[i], key) <= KeyOf(cs[j], key)
  }

  /** No more datasets and no more files than allowed. */
  predicate Fits(cs: seq<Candidate>, maxDatasets: nat, maxFiles: nat) {
    |cs| <= maxDatasets && Files(cs, |cs|) <= maxFiles
  }

  // ----- sums -----

  lemma {:induction false} FilesPrefix(a: seq<Candidate>, b: seq<Candidate>, n: nat)
    requires n <= |a| && n <= |b| && forall i :: 0 <= i < n ==> a[i] == b[i]
    ensures Files(a, n) == Files(b, n)
  {
    if n > 0 {
      FilesPrefix(a, b, n - 1);
    }
  }

  /** The list without its element `j`. */
  function Removed(cs: seq<Candidate>, j: nat): (r: seq<Candidate>)
    requires j < |cs|
    ensures |r| == |cs| - 1
  {
    cs[..j] + cs[j + 1..]
  }

  lemma {:induction false} FilesRemoved(cs: seq<Candidate>, j: nat)
    requires j < |cs|
    ensures Files(cs, |cs|) == Files(Removed(cs, j), |cs| - 1) + cs[j].files
    decreases |cs|
  {
    var n := |cs| - 1;
    var init := cs[..n];
    FilesPrefix(cs, init, n);
    if j == n {
      assert Removed(cs, j) == init;
    } else {
      FilesRemoved(init, j);
      RemovedInit(cs, j);
      FilesPrefix(Removed(cs, j), Removed(init, j), n - 1);
    }
  }

  lemma RemovedInit(cs: seq<Candidate>, j: nat)
    requires j < |cs| - 1
    ensures Removed(cs, j) == Removed(cs[..|cs| - 1], j) + [cs[|cs| - 1]]
  {
  }

  lemma MultisetRemoved(cs: seq<Candidate>, j: nat)
    requires j < |cs|
    ensures multiset(cs) == multiset(Removed(cs, j)) + multiset{cs[j]}
  {
    assert cs == cs[..j] + [cs[j]] + cs[j + 1..];
  }

  lemma PartIsSmaller(part: seq<Candidate>, cs: seq<Candidate>)
    requires multiset(part) <= multiset(cs)
    ensures |part| <= |cs|
  {
    var rest := multiset(cs) - multiset(part);
    assert multiset(cs) == multiset(part) + rest;
    assert |multiset(cs)| == |multiset(part)| + |rest|;
  }

  /** Of all parts of a sorted list, its beginning has the fewest files. */
  lemma {:induction false} BeginningIsLeast(cs: seq<Candidate>, part: seq<Candidate>)
    requires SortedBy(cs, ByFiles) && multiset(part) <= multiset(cs)
    ensures |part| <= |cs| && Files(cs, |part|) <= Files(part, |part|)
    decreases |cs|
  {
    PartIsSmaller(part, cs);
    if cs != [] {
      var n := |cs| - 1;
      var init, last := cs[..n], cs[n];
      if last in part {
        var j :| 0 <= j < |part| && part[j] == last;
        RestFits(cs, part, j);
        BeginningIsLeast(init, Removed(part, j));
        WithLast(cs, part, j);
      } else {
        PartOfInit(cs, part);
        BeginningIsLeast(init, part);
        FilesPrefix(cs, init, |part|);
      }
    }
  }

  /** The case that the last of the list is in the part. */
  lemma WithLast(cs: seq<Candidate>, part: seq<Candidate>, j: nat)
    requires SortedBy(cs, ByFiles) && j < |part| <= |cs| && part[j] == cs[|cs| - 1]
    requires Files(cs[..|cs| - 1], |part| - 1) <= Files(Removed(part, j), |part| - 1)
    ensures Files(cs, |part|) <= Files(part, |part|)
  {
    FilesRemoved(part, j);
    FilesPrefix(cs, cs[..|cs| - 1], |part| - 1);
    LastIsMost(cs, |part| - 1);
    assert Files(cs, |part|) == Files(cs, |part| - 1) + cs[|part| - 1].files;
  }

  lemma LastIsMost(cs: seq<Candidate>, i: nat)
    requires SortedBy(cs, ByFiles) && i < |cs|
    ensures cs[i].files <= cs[|cs| - 1].files
  {
    assert KeyOf(cs[i], ByFiles) <= KeyOf(cs[|cs| - 1], ByFiles);
  }

  lemma RestFits(cs: seq<Candidate>, part: seq<Candidate>, j: nat)
    requires multiset(part) <= multiset(cs) && j < |part| && cs != [] && part[j] == cs[|cs| - 1]
    ensures multiset(Removed(part, j)) <= multiset(cs[..|cs| - 1])
  {
    var init, rest, last := cs[..|cs| - 1], Removed(part, j), part[j];
    assert cs == init + [last];
    MultisetRemoved(part, j);
    forall x ensures multiset(rest)[x] <= multiset(init)[x] {
      assert multiset(part)[x] <= multiset(cs)[x];
    }
  }

  lemma PartOfInit(cs: seq<Candidate>, part: seq<Candidate>)
    requires multiset(part) <= multiset(cs) && cs != [] && cs[|cs| - 1] !in part
    ensures multiset(part) <= multiset(cs[..|cs| - 1])
  {
    var init, last := cs[..|cs| - 1], cs[|cs| - 1];
    assert cs == init + [last];
    assert last !in multiset(part);
    forall x ensures multiset(part)[x] <= multiset(init)[x] {
      assert multiset(part)[x] <= multiset(cs)[x];
    }
  }

  // ----- sorting -----

  function Insert(cs: seq<Candidate>, c: Candidate, key: Key): (r: seq<Candidate>)
    ensures |r| == |cs| + 1
  {
    if cs == [] || KeyOf(cs[|cs| - 1], key) <= KeyOf(c, key) then cs + [c]
    else Insert(cs[..|cs| - 1], c, key) + [cs[|cs| - 1]]
  }

  /** The first `n` candidates, sorted. */
  function Sorted(cs: seq<Candidate>, n: nat, key: Key): (r: seq<Candidate>)
    requires n <= |cs|
    ensures |r| == n
  {
    if n == 0 then [] else Insert(Sorted(cs, n - 1, key), cs[n - 1], key)
  }

  predicate KeyAtMost(cs: seq<Candidate>, key: Key, k: nat) {
    forall i :: 0 <= i < |cs| ==> KeyOf(cs[i], key) <= k
  }

  lemma {:induction false} InsertAtMost(cs: seq<Candidate>, c: Candidate, key: Key, k: nat)
    requires KeyAtMost(cs, key, k) && KeyOf(c, key) <= k
    ensures KeyAtMost(Insert(cs, c, key), key, k)
    decreases |cs|
  {
    if !(cs == [] || KeyOf(cs[|cs| - 1], key) <= KeyOf(c, key)) {
      InsertAtMost(cs[..|cs| - 1], c, key, k);
    }
  }

  lemma {:induction false} InsertSorts(cs: seq<Candidate>, c: Candidate, key: Key)
    requires SortedBy(cs, key)
    ensures SortedBy(Insert(cs, c, key), key)
    decreases |cs|
  {
    if !(cs == [] || KeyOf(cs[|cs| - 1], key) <= KeyOf(c, key)) {
      InsertSorts(cs[..|cs| - 1], c, key);
      InsertAtMost(cs[..|cs| - 1], c, key, KeyOf(cs[|cs| - 1], key));
    }
  }

  lemma {:induction false} InsertPermutes(cs: seq<Candidate>, c: Candidate, key: Key)
    ensures multiset(Insert(cs, c, key)) == multiset(cs) + multiset{c}
    decreases |cs|
  {
    if !(cs == [] || KeyOf(cs[|cs| - 1], key) <= KeyOf(c, key)) {
      InsertPermutes(cs[..|cs| - 1], c, key);
      assert cs == cs[..|cs| - 1] + [cs[|cs| - 1]];
    }
  }

  lemma {:induction false} SortedSorts(cs: seq<Candidate>, n: nat, key: Key)
    requires n <= |cs|
    ensures SortedBy(Sorted(cs, n, key), key)
  {
    if n > 0 {
      SortedSorts(cs, n - 1, key);
      InsertSorts(Sorted(cs, n - 1, key), cs[n - 1], key);
    }
  }

  lemma {:induction false} SortedPermutes(cs: seq<Candidate>, n: nat, key: Key)
    requires n <= |cs|
    ensures multiset(Sorted(cs, n, key)) == multiset(cs[..n])
  {
    if n > 0 {
      SortedPermutes(cs, n - 1, key);
      InsertPermutes(Sorted(cs, n - 1, key), cs[n - 1], key);
      PrefixMore(cs, n - 1);
    }
  }

  // ----- candidates of one class -----

  /** Where the chain of sizes, each less than twice the one before, ends. */
  function ChainEnd(cs: seq<Candidate>, i: nat): (r: nat)
    requires 1 <= i <= |cs|
    ensures i <= r <= |cs|
    decreases |cs| - i
  {
    if i < |cs| && cs[i - 1].bytes * 2 > cs[i].bytes then ChainEnd(cs, i + 1) else i
  }

  /** `get_compact_candidates`: the smallest datasets, as long as the sizes do not double. */
  function Smart(cs: seq<Candidate>): seq<Candidate> {
    if |cs| < 2 then []
    else
      var scores := Sorted(cs, |cs|, ByBytes);
      var end := ChainEnd(scores, 1);
      if end < 2 then [] else scores[..end]
  }

  predicate IsLocked(tasks: map<nat, TaskSpec>, id: string) {
    exists k :: k in tasks && DatasetLock(id) in tasks[k].locks
  }

  function Unlocked(cs: seq<Candidate>, n: nat, tasks: map<nat, TaskSpec>): seq<Candidate>
    requires n <= |cs|
  {
    if n == 0 then [] else Unlocked(cs, n - 1, tasks) + (if IsLocked(tasks, cs[n - 1].id) then [] else [cs[n - 1]])
  }

  /** How many of the first `n` candidates are left when the last is dropped until the limits are met. */
  function Trim(cs: seq<Candidate>, n: nat, maxDatasets: nat, maxFiles: nat): (r: nat)
    requires n <= |cs|
    ensures r <= n
  {
    if n > 0 && (n > maxDatasets || Files(cs, n) > maxFiles) then Trim(cs, n - 1, maxDatasets, maxFiles) else n
  }

  /** The candidates considered in a class, before the limits are applied. */
  function Ready(cs: seq<Candidate>, tasks: map<nat, TaskSpec>, smart: bool): seq<Candidate> {
    var candidates := if smart then Smart(cs) else cs;
    Unlocked(candidates, |candidates|, tasks)
  }

  /** What would be merged of a class. */
  function Choice(cs: seq<Candidate>, tasks: map<nat, TaskSpec>, smart: bool, maxDatasets: nat, maxFiles: nat): seq<Candidate> {
    var ready := Ready(cs, tasks, smart);
    var sorted := Sorted(ready, |ready|, ByFiles);
    sorted[..Trim(sorted, |sorted|, maxDatasets, maxFiles)]
  }

  /** Number of datasets minus average number of files. */
  function Rating(cs: seq<Candidate>): int
    requires cs != []
  {
    |cs| - Files(cs, |cs|) / |cs|
  }

  lemma {:induction false} TrimExactly(cs: seq<Candidate>, n: nat, maxDatasets: nat, maxFiles: nat)
    requires n <= |cs|
    ensures var k := Trim(cs, n, maxDatasets, maxFiles);
      && k <= maxDatasets && Files(cs, k) <= maxFiles
      && forall m :: k < m <= n ==> m > maxDatasets || Files(cs, m) > maxFiles
  {
    if n > 0 && (n > maxDatasets || Files(cs, n) > maxFiles) {
      TrimExactly(cs, n - 1, maxDatasets, maxFiles);
    }
  }

  lemma {:induction false} UnlockedPart(cs: seq<Candidate>, n: nat, tasks: map<nat, TaskSpec>)
    requires n <= |cs|
    ensures multiset(Unlocked(cs, n, tasks)) <= multiset(cs[..n])
  {
    if n > 0 {
      UnlockedPart(cs, n - 1, tasks);
      PartMore(Unlocked(cs, n - 1, tasks), cs[..n - 1], cs[n - 1]);
      PrefixMore(cs, n - 1);
      assert Unlocked(cs, n - 1, tasks) + [] == Unlocked(cs, n - 1, tasks);
    }
  }

  lemma PartMore(part: seq<Candidate>, whole: seq<Candidate>, c: Candidate)
    requires multiset(part) <= multiset(whole)
    ensures multiset(part) <= multiset(whole + [c]) && multiset(part + [c]) <= multiset(whole + [c])
  {
    assert multiset(whole + [c]) == multiset(whole) + multiset{c};
    assert multiset(part + [c]) == multiset(part) + multiset{c};
  }

  lemma {:induction false} UnlockedExactly(cs: seq<Candidate>, n: nat, tasks: map<nat, TaskSpec>, c: Candidate)
    requires n <= |cs|
    ensures c in Unlocked(cs, n, tasks) <==> c in cs[..n] && !IsLocked(tasks, c.id)
  {
    if n > 0 {
      UnlockedExactly(cs, n - 1, tasks, c);
      PrefixMore(cs, n - 1);
    }
  }

  lemma {:induction false} ChainHolds(cs: seq<Candidate>, i: nat)
    requires 1 <= i <= |cs|
    ensures var end := ChainEnd(cs, i);
      && (forall j :: i <= j < end ==> cs[j - 1].bytes * 2 > cs[j].bytes)
      && (end < |cs| ==> cs[end - 1].bytes * 2 <= cs[end].bytes)
    decreases |cs| - i
  {
    if i < |cs| && cs[i - 1].bytes * 2 > cs[i].bytes {
      ChainHolds(cs, i + 1);
    }
  }

  lemma PrefixPart(cs: seq<Candidate>, n: nat)
    requires n <= |cs|
    ensures multiset(cs[..n]) <= multiset(cs)
  {
    assert cs == cs[..n] + cs[n..];
  }

  lemma SmartPart(cs: seq<Candidate>)
    ensures multiset(Smart(cs)) <= multiset(cs)
    ensures Smart(cs) == [] || |Smart(cs)| >= 2
  {
    SortedPermutes(cs, |cs|, ByBytes);
    assert cs[..|cs|] == cs;
    if |cs| >= 2 {
      PrefixPart(Sorted(cs, |cs|, ByBytes), ChainEnd(Sorted(cs, |cs|, ByBytes), 1));
    }
  }

  lemma ReadyPart(cs: seq<Candidate>, tasks: map<nat, TaskSpec>, smart: bool)
    ensures multiset(Ready(cs, tasks, smart)) <= multiset(cs)
    ensures forall c :: c in Ready(cs, tasks, smart) ==> !IsLocked(tasks, c.id)
  {
    var candidates := if smart then Smart(cs) else cs;
    SmartPart(cs);
    UnlockedPart(candidates, |candidates|, tasks);
    assert candidates[..|candidates|] == candidates;
    forall c | c in Ready(cs, tasks, smart) ensures !IsLocked(tasks, c.id) {
      UnlockedExactly(candidates, |candidates|, tasks, c);
    }
  }

  /** What is chosen of a class is part of it, unlocked, and within the limits. */
  lemma ChoiceFits(cs: seq<Candidate>, tasks: map<nat, TaskSpec>, smart: bool, maxDatasets: nat, maxFiles: nat)
    ensures var r := Choice(cs, tasks, smart, maxDatasets, maxFiles);
      && multiset(r) <= multiset(Ready(cs, tasks, smart)) <= multiset(cs)
      && Fits(r, maxDatasets, maxFiles)
      && forall c :: c in r ==> !IsLocked(tasks, c.id)
  {
    var ready := Ready(cs, tasks, smart);
    var sorted := Sorted(ready, |ready|, ByFiles);
    var k := Trim(sorted, |sorted|, maxDatasets, maxFiles);
    ReadyPart(cs, tasks, smart);
    SortedPermutes(ready, |ready|, ByFiles);
    assert ready[..|ready|] == ready;
    PrefixPart(sorted, k);
    TrimExactly(sorted, |sorted|, maxDatasets, maxFiles);
    FilesPrefix(sorted, sorted[..k], k);
    forall c | c in sorted[..k] ensures c in ready {
      assert c in multiset(sorted[..k]);
      assert c in multiset(ready);
    }
  }

  /** And no part of the class that is within the limits has more datasets. */
  lemma ChoiceIsGreatest(cs: seq<Candidate>, tasks: map<nat, TaskSpec>, smart: bool, maxDatasets: nat, maxFiles: nat,
      part: seq<Candidate>)
    requires multiset(part) <= multiset(Ready(cs, tasks, smart)) && Fits(part, maxDatasets, maxFiles)
    ensures |part| <= |Choice(cs, tasks, smart, maxDatasets, maxFiles)|
  {
    var ready := Ready(cs, tasks, smart);
    var sorted := Sorted(ready, |ready|, ByFiles);
    SortedSorts(ready, |ready|, ByFiles);
    SortedPermutes(ready, |ready|, ByFiles);
    assert ready[..|ready|] == ready;
    BeginningIsLeast(sorted, part);
    TrimExactly(sorted, |sorted|, maxDatasets, maxFiles);
  }

  /** Nor is there one with as many datasets and fewer files. */
  lemma ChoiceIsLeast(cs: seq<Candidate>, tasks: map<nat, TaskSpec>, smart: bool, maxDatasets: nat, maxFiles: nat,
      part: seq<Candidate>)
    requires multiset(part) <= multiset(Ready(cs, tasks, smart))
    requires |part| == |Choice(cs, tasks, smart, maxDatasets, maxFiles)|
    ensures Files(Choice(cs, tasks, smart, maxDatasets, maxFiles), |part|) <= Files(part, |part|)
  {
    var ready := Ready(cs, tasks, smart);
    var sorted := Sorted(ready, |ready|, ByFiles);
    SortedSorts(ready, |ready|, ByFiles);
    SortedPermutes(ready, |ready|, ByFiles);
    assert ready[..|ready|] == ready;
    BeginningIsLeast(sorted, part);
    FilesPrefix(Choice(cs, tasks, smart, maxDatasets, maxFiles), sorted, |part|);
  }

  // ----- the choice, as it runs -----

  function OfClass(cs: seq<Candidate>, n: nat, cls: Class): seq<Candidate>
    requires n <= |cs|
  {
    if n == 0 then [] else OfClass(cs, n - 1, cls) + (if cs[n - 1].cls == cls then [cs[n - 1]] else [])
  }

  /** `get_compatible_datasets`: the datasets of each class. */
  method GetCompatibleDatasets(cs: seq<Candidate>) returns (partial: map<Class, seq<Candidate>>)
    ensures forall c :: c in partial ==> partial[c] == OfClass(cs, |cs|, c)
    ensures forall c :: c !in partial ==> OfClass(cs, |cs|, c) == []
  {
    partial := map[];
    for k := 0 to |cs|
      invariant forall c :: c in partial ==> partial[c] == OfClass(cs, k, c)
      invariant forall c :: c !in partial ==> OfClass(cs, k, c) == []
    {
      var c := cs[k].cls;
      partial := partial[c := (if c in partial then partial[c] else []) + [cs[k]]];
    }
  }

  /** `get_compact_candidates` */
  method GetCompactCandidates(cs: seq<Candidate>) returns (out: seq<Candidate>)
    ensures out == Smart(cs)
  {
    out := [];
    if |cs| < 2 {
      return;
    }
    var scores := Sorted(cs, |cs|, ByBytes);
    out := [scores[0]];
    var offset := 1;
    while offset < |scores| && scores[offset - 1].bytes * 2 > scores[offset].bytes
      invariant 1 <= offset <= |scores| && out == scores[..offset]
      invariant ChainEnd(scores, 1) == ChainEnd(scores, offset)
    {
      PrefixMore(scores, offset);
      out := out + [scores[offset]];
      offset := offset + 1;
    }
    if |out| < 2 {
      out := [];
    }
  }

  /** `is_dataset_locked` */
  method IsDatasetLocked(tasks: map<nat, TaskSpec>, id: string) returns (locked: bool)
    ensures locked == IsLocked(tasks, id)
  {
    var rest := tasks.Keys;
    while rest != {}
      invariant rest <= tasks.Keys
      invariant forall k :: k in tasks && k !in rest ==> DatasetLock(id) !in tasks[k].locks
    {
      var k :| k in rest;
      if DatasetLock(id) in tasks[k].locks {
        return true;
      }
      rest := rest - {k};
    }
    return false;
  }

  method KeepUnlocked(candidates: seq<Candidate>, tasks: map<nat, TaskSpec>) returns (ready: seq<Candidate>)
    ensures ready == Unlocked(candidates, |candidates|, tasks)
  {
    ready := [];
    for k := 0 to |candidates|
      invariant ready == Unlocked(candidates, k, tasks)
    {
      var locked := IsDatasetLocked(tasks, candidates[k].id);
      if !locked {
        ready := ready + [candidates[k]];
      }
    }
  }

  /** Drops the biggest candidates until the limits are met; the number of files left is the second result. */
  method ApplyLimits(sorted: seq<Candidate>, numberOfFiles: nat, maxDatasets: nat, maxFiles: nat)
    returns (ready: seq<Candidate>, left: nat)
    requires numberOfFiles == Files(sorted, |sorted|)
    ensures ready == sorted[..Trim(sorted, |sorted|, maxDatasets, maxFiles)] && left == Files(ready, |ready|)
  {
    ready, left := sorted, numberOfFiles;
    assert sorted[..|sorted|] == sorted;
    while |ready| > maxDatasets || left > maxFiles
      invariant |ready| <= |sorted| && ready == sorted[..|ready|] && left == Files(sorted, |ready|)
      invariant Trim(sorted, |sorted|, maxDatasets, maxFiles) == Trim(sorted, |ready|, maxDatasets, maxFiles)
      decreases |ready|
    {
      var n := |ready| - 1;
      left := left - ready[n].files;
      ready := ready[..n];
    }
    FilesPrefix(ready, sorted, |ready|);
  }

  /** What a compaction would merge of one class, and how many files that is. */
  method ChooseOf(group: seq<Candidate>, tasks: map<nat, TaskSpec>, smart: bool, maxDatasets: nat, maxFiles: nat)
    returns (ready: seq<Candidate>, numberOfFiles: nat)
    ensures ready == Choice(group, tasks, smart, maxDatasets, maxFiles) && numberOfFiles == Files(ready, |ready|)
  {
    var candidates := group;
    if smart {
      candidates := GetCompactCandidates(group);
    }
    ready := KeepUnlocked(candidates, tasks);
    numberOfFiles := 0;
    for k := 0 to |ready|
      invariant numberOfFiles == Files(ready, k)
    {
      numberOfFiles := numberOfFiles + ready[k].files;
    }
    SameTotal(ready);
    ready, numberOfFiles := ApplyLimits(Sorted(ready, |ready|, ByFiles), numberOfFiles, maxDatasets, maxFiles);
  }

  lemma SameTotal(cs: seq<Candidate>)
    ensures Files(Sorted(cs, |cs|, ByFiles), |cs|) == Files(cs, |cs|)
  {
    TotalSorted(cs, |cs|);
  }

  lemma {:induction false} TotalInsert(cs: seq<Candidate>, c: Candidate, key: Key)
    ensures Files(Insert(cs, c, key), |cs| + 1) == Files(cs, |cs|) + c.files
    decreases |cs|
  {
    if cs == [] || KeyOf(cs[|cs| - 1], key) <= KeyOf(c, key) {
      FilesPrefix(cs + [c], cs, |cs|);
    } else {
      var init := cs[..|cs| - 1];
      TotalInsert(init, c, key);
      FilesPrefix(Insert(init, c, key) + [cs[|cs| - 1]], Insert(init, c, key), |cs|);
      FilesPrefix(cs, init, |init|);
    }
  }

  lemma {:induction false} TotalSorted(cs: seq<Candidate>, n: nat)
    requires n <= |cs|
    ensures Files(Sorted(cs, n, ByFiles), n) == Files(cs, n)
  {
    if n > 0 {
      TotalSorted(cs, n - 1);
      TotalInsert(Sorted(cs, n - 1, ByFiles), cs[n - 1], ByFiles);
    }
  }

  function ChoiceAt(cs: seq<Candidate>, c: Class, tasks: map<nat, TaskSpec>, smart: bool, maxDatasets: nat, maxFiles: nat): seq<Candidate> {
    Choice(OfClass(cs, |cs|, c), tasks, smart, maxDatasets, maxFiles)
  }

  /** The best choice so far, of the classes looked at; it is the one of class `from`. */
  ghost predicate BestOf(best: seq<Candidate>, from: Class, choices: map<Class, seq<Candidate>>) {
    && (best != [] ==> |best| >= 2 && from in choices && best == choices[from])
    && (forall c :: c in choices && |choices[c]| >= 2 ==> best != [] && Rating(choices[c]) <= Rating(best))
  }

  /** The choice in every class that has datasets. */
  ghost predicate AllChoices(choices: map<Class, seq<Candidate>>, cs: seq<Candidate>, tasks: map<nat, TaskSpec>, smart: bool,
      maxDatasets: nat, maxFiles: nat)
  {
    && (forall c :: c in choices ==> choices[c] == ChoiceAt(cs, c, tasks, smart, maxDatasets, maxFiles))
    && (forall c :: c !in choices ==> OfClass(cs, |cs|, c) == [])
  }

  /** `find_compact_candidate`: the choice of the class with the highest rating, if any has two datasets. */
  method FindCompactCandidate(cs: seq<Candidate>, tasks: map<nat, TaskSpec>, smart: bool, maxDatasets: nat, maxFiles: nat)
    returns (best: seq<Candidate>, ghost from: Class, ghost choices: map<Class, seq<Candidate>>)
    ensures AllChoices(choices, cs, tasks, smart, maxDatasets, maxFiles) && BestOf(best, from, choices)
    ensures IsBest(best, cs, tasks, smart, maxDatasets, maxFiles)
  {
    best, from, choices := [], Class({}, {}), map[];
    var bestValue := 0;
    var partial := GetCompatibleDatasets(cs);
    var rest := partial.Keys;
    while rest != {}
      invariant rest <= partial.Keys && (best != [] ==> bestValue == Rating(best))
      invariant choices.Keys == partial.Keys - rest && BestOf(best, from, choices)
      invariant forall c :: c in choices ==> choices[c] == ChoiceAt(cs, c, tasks, smart, maxDatasets, maxFiles)
    {
      var c :| c in rest;
      var ready, numberOfFiles := ChooseOf(partial[c], tasks, smart, maxDatasets, maxFiles);
      BetterOf(best, from, choices, c, ready);
      if |ready| >= 2 {
        var avgFiles := numberOfFiles / |ready|;
        var value := |ready| - avgFiles;
        if best == [] || value > bestValue {
          best, bestValue, from := ready, value, c;
        }
      }
      choices := choices[c := ready];
      rest := rest - {c};
    }
    BestIsBest(best, from, choices, cs, tasks, smart, maxDatasets, maxFiles);
  }

  lemma BetterOf(best: seq<Candidate>, from: Class, choices: map<Class, seq<Candidate>>, c: Class, ready: seq<Candidate>)
    requires BestOf(best, from, choices) && c !in choices
    ensures if |ready| >= 2 && (best == [] || Rating(ready) > Rating(best)) then BestOf(ready, c, choices[c := ready])
            else BestOf(best, from, choices[c := ready])
  {
  }

  // ----- what that means -----

  lemma {:induction false} OfClassExactly(cs: seq<Candidate>, n: nat, cls: Class, c: Candidate)
    requires n <= |cs|
    ensures c in OfClass(cs, n, cls) <==> c in cs[..n] && c.cls == cls
  {
    if n > 0 {
      OfClassExactly(cs, n - 1, cls, c);
      PrefixMore(cs, n - 1);
    }
  }

  lemma {:induction false} OfClassPart(cs: seq<Candidate>, n: nat, cls: Class)
    requires n <= |cs|
    ensures multiset(OfClass(cs, n, cls)) <= multiset(cs[..n])
  {
    if n > 0 {
      OfClassPart(cs, n - 1, cls);
      PartMore(OfClass(cs, n - 1, cls), cs[..n - 1], cs[n - 1]);
      PrefixMore(cs, n - 1);
      assert OfClass(cs, n - 1, cls) + [] == OfClass(cs, n - 1, cls);
    }
  }

  /**
   * The datasets `part` could be merged: some of `cs`, all of one class, none locked, within the
   * limits, and when only similar sizes are considered, of similar size.
   */
  ghost predicate Mergeable(part: seq<Candidate>, cls: Class, cs: seq<Candidate>, tasks: map<nat, TaskSpec>,
      smart: bool, maxDatasets: nat, maxFiles: nat)
  {
    && multiset(part) <= multiset(cs) && Fits(part, maxDatasets, maxFiles)
    && (forall c :: c in part ==> c.cls == cls && !IsLocked(tasks, c.id))
    && (smart ==> multiset(part) <= multiset(Smart(OfClass(cs, |cs|, cls))))
  }

  /** No mergeable datasets of the class are more than `n`. */
  ghost predicate AtMost(n: nat, cls: Class, cs: seq<Candidate>, tasks: map<nat, TaskSpec>, smart: bool,
      maxDatasets: nat, maxFiles: nat)
  {
    forall part :: Mergeable(part, cls, cs, tasks, smart, maxDatasets, maxFiles) ==> |part| <= n
  }

  /**
   * What a compaction may merge: nothing, or at least two mergeable datasets of one class. There are
   * none that are more in its class, and nothing is merged only if no two datasets whatever could be.
   */
  ghost predicate IsBest(best: seq<Candidate>, cs: seq<Candidate>, tasks: map<nat, TaskSpec>, smart: bool,
      maxDatasets: nat, maxFiles: nat)
  {
    && (best != [] ==> |best| >= 2 && Mergeable(best, best[0].cls, cs, tasks, smart, maxDatasets, maxFiles))
    && (best != [] ==> AtMost(|best|, best[0].cls, cs, tasks, smart, maxDatasets, maxFiles))
    && (best == [] ==> forall cls :: AtMost(1, cls, cs, tasks, smart, maxDatasets, maxFiles))
  }

  /** How often a candidate occurs among the unlocked ones of its class. */
  lemma {:induction false} OfClassCount(cs: seq<Candidate>, n: nat, cls: Class, c: Candidate)
    requires n <= |cs| && c.cls == cls
    ensures multiset(OfClass(cs, n, cls))[c] == multiset(cs[..n])[c]
  {
    if n > 0 {
      OfClassCount(cs, n - 1, cls, c);
      PrefixMore(cs, n - 1);
    }
  }

  lemma {:induction false} UnlockedCount(cs: seq<Candidate>, n: nat, tasks: map<nat, TaskSpec>, c: Candidate)
    requires n <= |cs| && !IsLocked(tasks, c.id)
    ensures multiset(Unlocked(cs, n, tasks))[c] == multiset(cs[..n])[c]
  {
    if n > 0 {
      UnlockedCount(cs, n - 1, tasks, c);
      PrefixMore(cs, n - 1);
    }
  }

  /** All mergeable datasets of a class are candidates. */
  lemma MergeableIsReady(part: seq<Candidate>, cls: Class, cs: seq<Candidate>, tasks: map<nat, TaskSpec>, smart: bool,
      maxDatasets: nat, maxFiles: nat)
    requires Mergeable(part, cls, cs, tasks, smart, maxDatasets, maxFiles)
    ensures multiset(part) <= multiset(Ready(OfClass(cs, |cs|, cls), tasks, smart))
  {
    var group := OfClass(cs, |cs|, cls);
    var pool := if smart then Smart(group) else group;
    assert cs[..|cs|] == cs && pool[..|pool|] == pool;
    forall c ensures multiset(part)[c] <= multiset(Ready(group, tasks, smart))[c] {
      if c in part {
        OfClassCount(cs, |cs|, cls, c);
        UnlockedCount(pool, |pool|, tasks, c);
      } else {
        assert c !in multiset(part);
      }
    }
  }

  lemma ReadyOfPool(group: seq<Candidate>, tasks: map<nat, TaskSpec>, smart: bool)
    ensures smart ==> multiset(Ready(group, tasks, smart)) <= multiset(Smart(group))
  {
    var pool := if smart then Smart(group) else group;
    UnlockedPart(pool, |pool|, tasks);
    assert pool[..|pool|] == pool;
  }

  lemma ChoiceIsMergeable(cls: Class, cs: seq<Candidate>, tasks: map<nat, TaskSpec>, smart: bool, maxDatasets: nat, maxFiles: nat)
    ensures Mergeable(ChoiceAt(cs, cls, tasks, smart, maxDatasets, maxFiles), cls, cs, tasks, smart, maxDatasets, maxFiles)
  {
    var group, r := OfClass(cs, |cs|, cls), ChoiceAt(cs, cls, tasks, smart, maxDatasets, maxFiles);
    ChoiceFits(group, tasks, smart, maxDatasets, maxFiles);
    OfClassPart(cs, |cs|, cls);
    ReadyOfPool(group, tasks, smart);
    assert cs[..|cs|] == cs;
    forall c | c in r ensures c.cls == cls {
      assert c in multiset(r);
      assert c in multiset(group);
      OfClassExactly(cs, |cs|, cls, c);
    }
  }

  lemma ChoiceIsMost(cls: Class, cs: seq<Candidate>, tasks: map<nat, TaskSpec>, smart: bool, maxDatasets: nat, maxFiles: nat)
    ensures AtMost(|ChoiceAt(cs, cls, tasks, smart, maxDatasets, maxFiles)|, cls, cs, tasks, smart, maxDatasets, maxFiles)
  {
    forall part | Mergeable(part, cls, cs, tasks, smart, maxDatasets, maxFiles)
      ensures |part| <= |ChoiceAt(cs, cls, tasks, smart, maxDatasets, maxFiles)|
    {
      MergeableIsReady(part, cls, cs, tasks, smart, maxDatasets, maxFiles);
      ChoiceIsGreatest(OfClass(cs, |cs|, cls), tasks, smart, maxDatasets, maxFiles, part);
    }
  }

  /** A class without datasets has nothing to merge. */
  lemma NothingOfClass(cls: Class, cs: seq<Candidate>, tasks: map<nat, TaskSpec>, smart: bool, maxDatasets: nat, maxFiles: nat)
    requires OfClass(cs, |cs|, cls) == []
    ensures AtMost(1, cls, cs, tasks, smart, maxDatasets, maxFiles)
  {
    forall part | Mergeable(part, cls, cs, tasks, smart, maxDatasets, maxFiles) ensures |part| <= 1 {
      MergeableIsReady(part, cls, cs, tasks, smart, maxDatasets, maxFiles);
      PartIsSmaller(part, []);
    }
  }

  lemma BestIsBest(best: seq<Candidate>, from: Class, choices: map<Class, seq<Candidate>>, cs: seq<Candidate>,
      tasks: map<nat, TaskSpec>, smart: bool, maxDatasets: nat, maxFiles: nat)
    requires AllChoices(choices, cs, tasks, smart, maxDatasets, maxFiles) && BestOf(best, from, choices)
    ensures IsBest(best, cs, tasks, smart, maxDatasets, maxFiles)
  {
    if best != [] {
      ChoiceIsMergeable(from, cs, tasks, smart, maxDatasets, maxFiles);
      assert best[0] in best;
      ChoiceIsMost(from, cs, tasks, smart, maxDatasets, maxFiles);
    } else {
      forall cls ensures AtMost(1, cls, cs, tasks, smart, maxDatasets, maxFiles) {
        if cls in choices {
          ChoiceIsMost(cls, cs, tasks, smart, maxDatasets, maxFiles);
        } else {
          NothingOfClass(cls, cs, tasks, smart, maxDatasets, maxFiles);
        }
      }
    }
  }

  // ----- similar sizes -----

  /** Sorted by size, and each less than twice the one before. */
  ghost predicate Doubling(r: seq<Candidate>) {
    forall j :: 0 < j < |r| ==> r[j - 1].bytes <= r[j].bytes < 2 * r[j - 1].bytes
  }

  /** All other datasets are of at least this size. */
  ghost predicate OthersAtLeast(r: seq<Candidate>, cs: seq<Candidate>, bytes: nat) {
    forall c :: c in multiset(cs) - multiset(r) ==> c.bytes >= bytes
  }

  /** A chain of sizes: it begins with the smallest, and all other datasets are at least twice the last. */
  ghost predicate IsChain(r: seq<Candidate>, cs: seq<Candidate>) {
    r != [] && multiset(r) <= multiset(cs) && Doubling(r) && OthersAtLeast(r, cs, 2 * r[|r| - 1].bytes)
  }

  lemma RestBehind(sorted: seq<Candidate>, end: nat, c: Candidate)
    requires SortedBy(sorted, ByBytes) && end <= |sorted| && c in multiset(sorted) - multiset(sorted[..end])
    ensures end < |sorted| && sorted[end].bytes <= c.bytes
  {
    assert sorted == sorted[..end] + sorted[end..];
    assert c in multiset(sorted[end..]);
    var k :| 0 <= k < |sorted[end..]| && sorted[end..][k] == c;
    assert sorted[end + k] == c;
  }

  lemma RestIsBig(sorted: seq<Candidate>, end: nat, cs: seq<Candidate>, bytes: nat)
    requires SortedBy(sorted, ByBytes) && multiset(sorted) == multiset(cs) && end <= |sorted|
    requires end < |sorted| ==> bytes <= sorted[end].bytes
    ensures OthersAtLeast(sorted[..end], cs, bytes)
  {
    forall c | c in multiset(cs) - multiset(sorted[..end]) ensures c.bytes >= bytes {
      RestBehind(sorted, end, c);
    }
  }

  lemma ChainSteps(sorted: seq<Candidate>, end: nat)
    requires SortedBy(sorted, ByBytes) && end <= |sorted|
    requires forall j :: 1 <= j < end ==> sorted[j - 1].bytes * 2 > sorted[j].bytes
    ensures Doubling(sorted[..end])
  {
    forall j | 0 < j < end ensures sorted[j - 1].bytes <= sorted[j].bytes {
      assert KeyOf(sorted[j - 1], ByBytes) <= KeyOf(sorted[j], ByBytes);
    }
  }

  lemma ChainOfSorted(sorted: seq<Candidate>, cs: seq<Candidate>)
    requires sorted != [] && SortedBy(sorted, ByBytes) && multiset(sorted) == multiset(cs)
    ensures IsChain(sorted[..ChainEnd(sorted, 1)], cs)
  {
    var end := ChainEnd(sorted, 1);
    ChainHolds(sorted, 1);
    ChainSteps(sorted, end);
    EndsChain(sorted, end, cs);
  }

  lemma EndsChain(sorted: seq<Candidate>, end: nat, cs: seq<Candidate>)
    requires SortedBy(sorted, ByBytes) && multiset(sorted) == multiset(cs) && 1 <= end <= |sorted|
    requires Doubling(sorted[..end]) && (end < |sorted| ==> 2 * sorted[end - 1].bytes <= sorted[end].bytes)
    ensures IsChain(sorted[..end], cs)
  {
    var r, last := sorted[..end], sorted[end - 1];
    PrefixPart(sorted, end);
    RestIsBig(sorted, end, cs, 2 * last.bytes);
    assert r[|r| - 1] == last;
  }

  lemma ChainIsChain(cs: seq<Candidate>)
    requires cs != []
    ensures var sorted := Sorted(cs, |cs|, ByBytes); |sorted| == |cs| && IsChain(sorted[..ChainEnd(sorted, 1)], cs)
  {
    var sorted := Sorted(cs, |cs|, ByBytes);
    SortedSorts(cs, |cs|, ByBytes);
    SortedPermutes(cs, |cs|, ByBytes);
    assert cs[..|cs|] == cs;
    assert |multiset(sorted)| == |multiset(cs)|;
    ChainOfSorted(sorted, cs);
  }

  /**
   * The smart choice is the chain that begins with the smallest dataset, if that has at least two, and
   * nothing otherwise.
   */
  lemma SmartExactly(cs: seq<Candidate>)
    ensures Smart(cs) != [] ==> |Smart(cs)| >= 2 && IsChain(Smart(cs), cs)
    ensures Smart(cs) == [] ==> |cs| < 2 || exists r :: |r| == 1 && IsChain(r, cs)
  {
    if |cs| >= 2 {
      ChainIsChain(cs);
      var sorted := Sorted(cs, |cs|, ByBytes);
      if ChainEnd(sorted, 1) < 2 {
        assert |sorted[..1]| == 1 && IsChain(sorted[..1], cs);
      }
    }
  }

  /** The rating is the number of datasets less the average number of files, rounded down. */
  lemma RatingExactly(cs: seq<Candidate>)
    requires cs != []
    ensures var average := |cs| - Rating(cs);
      0 <= average && average * |cs| <= Files(cs, |cs|) < average * |cs| + |cs|
  {
    var f, n := Files(cs, |cs|), |cs|;
    assert f == n * (f / n) + f % n;
  }
}
