/** From byte patterns to n-grams (`plan_qstring` and `Query::plan`). */
module QueryPlan {
  import opened Core
  import opened Ngrams
  import opened GramConversion
  import opened Queries

  type PatternQuery = Query<QString>
  type NgramQuery = Query<PrimitiveQuery>

  // ----- planning -----

  datatype PlanStep = PlanStep(grams: seq<PrimitiveQuery>, next: nat, skipTo: nat)

  /** What the loop of `plan_qstring` does at position `i`. */
  function StepAt(types: set<IndexType>, value: QString, i: nat, skipTo: nat): (r: PlanStep)
    ensures r.next > i
  {
    var wide, text := ConvertAt(WIDE8, value, i), ConvertAt(TEXT4, value, i);
    if WIDE8 in types && wide.Some? then PlanStep([PrimitiveQuery(WIDE8, wide.value)], i + 2, i + 6)
    else if TEXT4 in types && text.Some? then PlanStep([PrimitiveQuery(TEXT4, text.value)], i + 1, i + 2)
    else
      var hash, tri := ConvertAt(HASH4, value, i), ConvertAt(GRAM3, value, i);
      var h := if i >= skipTo - 1 && HASH4 in types && hash.Some? then [PrimitiveQuery(HASH4, hash.value)] else [];
      var g := if i >= skipTo && GRAM3 in types && tri.Some? then [PrimitiveQuery(GRAM3, tri.value)] else [];
      PlanStep(h + g, i + 1, skipTo)
  }

  /** The n-grams planned from position `i` on. */
  function PlanFrom(types: set<IndexType>, value: QString, i: nat, skipTo: nat): seq<PrimitiveQuery>
    decreases |value| - i
  {
    if i + 2 < |value| then
      var s := StepAt(types, value, i, skipTo);
      s.grams + PlanFrom(types, value, s.next, s.skipTo)
    else []
  }

  function Leaves(grams: seq<PrimitiveQuery>): (r: seq<NgramQuery>)
    ensures |r| == |grams| && forall k :: 0 <= k < |r| ==> r[k] == Leaf(grams[k])
  {
    seq(|grams|, k requires 0 <= k < |grams| => Leaf(grams[k]))
  }

  function PlanQString(types: set<IndexType>, value: QString): NgramQuery {
    And(Leaves(PlanFrom(types, value, 0, 0)))
  }

  /** The whole query with every pattern replaced by its plan. */
  function Planned(types: set<IndexType>, q: PatternQuery): NgramQuery {
    match q
    case Leaf(value) => PlanQString(types, value)
    case And(qs) => And(seq(|qs|, i requires 0 <= i < |qs| => Planned(types, qs[i])))
    case Or(qs) => Or(seq(|qs|, i requires 0 <= i < |qs| => Planned(types, qs[i])))
    case MinOf(c, qs) => MinOf(c, seq(|qs|, i requires 0 <= i < |qs| => Planned(types, qs[i])))
  }

  /** `plan_qstring` */
  method PlanPattern(types: set<IndexType>, value: QString) returns (plan: seq<PrimitiveQuery>)
    ensures plan == PlanFrom(types, value, 0, 0)
  {
    plan := [];
    var i: nat, skipTo: nat := 0, 0;
    while i + 2 < |value|
      invariant plan + PlanFrom(types, value, i, skipTo) == PlanFrom(types, value, 0, 0)
      decreases |value| - i
    {
      ghost var s := StepAt(types, value, i, skipTo);
      Assoc(plan, s.grams, PlanFrom(types, value, s.next, s.skipTo));
      plan, i, skipTo := PlanOne(types, value, i, skipTo, plan);
    }
  }

  /** The body of its loop. */
  method PlanOne(types: set<IndexType>, value: QString, i: nat, skipTo: nat, plan: seq<PrimitiveQuery>)
    returns (plan': seq<PrimitiveQuery>, i': nat, skipTo': nat)
    ensures var s := StepAt(types, value, i, skipTo); plan' == plan + s.grams && i' == s.next && skipTo' == s.skipTo
  {
    if WIDE8 in types {
      var gram := ConvertGramAt(WIDE8, i, value);
      if gram.Some? {
        return plan + [PrimitiveQuery(WIDE8, gram.value)], i + 2, i + 6;
      }
    }
    if TEXT4 in types {
      var gram := ConvertGramAt(TEXT4, i, value);
      if gram.Some? {
        return plan + [PrimitiveQuery(TEXT4, gram.value)], i + 1, i + 2;
      }
    }
    plan' := PlanRest(types, value, i, skipTo, plan);
    i', skipTo' := i + 1, skipTo;
  }

  /** The part of the loop that plans hashes and trigrams. */
  method PlanRest(types: set<IndexType>, value: QString, i: nat, skipTo: nat, plan: seq<PrimitiveQuery>)
    returns (plan': seq<PrimitiveQuery>)
    requires WIDE8 in types ==> ConvertAt(WIDE8, value, i).None?
    requires TEXT4 in types ==> ConvertAt(TEXT4, value, i).None?
    ensures plan' == plan + StepAt(types, value, i, skipTo).grams
  {
    plan' := plan;
    var hgram := ConvertGramAt(HASH4, i, value);
    if i >= skipTo - 1 && HASH4 in types && hgram.Some? {
      plan' := plan' + [PrimitiveQuery(HASH4, hgram.value)];
    }
    var gram := ConvertGramAt(GRAM3, i, value);
    if i >= skipTo && gram.Some? {
      if GRAM3 in types {
        plan' := plan' + [PrimitiveQuery(GRAM3, gram.value)];
      }
    }
  }

  /** `Query::plan` */
  method Plan(types: set<IndexType>, q: PatternQuery) returns (r: NgramQuery)
    ensures r == Planned(types, q)
  {
    if q.Leaf? {
      var grams := PlanPattern(types, q.leaf);
      return And(Leaves(grams));
    }
    var plans: seq<NgramQuery> := [];
    for k := 0 to |q.queries|
      invariant |plans| == k && forall j :: 0 <= j < k ==> plans[j] == Planned(types, q.queries[j])
    {
      var plan := Plan(types, q.queries[k]);
      plans := plans + [plan];
    }
    ghost var expected := seq(|q.queries|, i requires 0 <= i < |q.queries| => Planned(types, q.queries[i]));
    assert plans == expected;
    if q.MinOf? {
      return MinOf(q.count, plans);
    }
    r := if q.And? then And(plans) else Or(plans);
  }

  // ----- the meaning of plans -----

  /** Whether `file` matches the pattern from offset `o` on. */
  predicate MatchesAt(file: Bytes, o: nat, value: QString) {
    o + |value| <= |file| && forall k :: 0 <= k < |value| ==> file[o + k] in value[k]
  }

  predicate Occurs(file: Bytes, value: QString) {
    exists o: nat :: o <= |file| && MatchesAt(file, o, value)
  }

  /** The window occurs somewhere in the file where its generator is not in the middle of a letter. */
  predicate Seen(file: Bytes, w: Bytes) {
    exists i: nat :: i <= |file| && SeenAt(file, w, i)
  }

  predicate SeenAt(file: Bytes, w: Bytes, i: nat) {
    i + |w| <= |file| && file[i..i + |w|] == w && WideRun(file, i) % 2 == 0
  }

  /** The wide window of the pattern at `j`, if it has one, is seen. */
  predicate WideSeenAt(file: Bytes, value: QString, j: nat) {
    ConvertAt(WIDE8, value, j).Some? ==> Seen(file, Singles(value[j..j + 8]))
  }

  predicate WideSeen(file: Bytes, value: QString) {
    forall j :: 0 <= j < |value| ==> WideSeenAt(file, value, j)
  }

  /** `file` contains the pattern, and a wide8 index, if there is one, has seen its wide windows. */
  predicate Matches(types: set<IndexType>, file: Bytes, value: QString) {
    Occurs(file, value) && (WIDE8 in types ==> WideSeen(file, value))
  }

  function MatchesIn(types: set<IndexType>, file: Bytes): QString -> bool {
    (value: QString) => Matches(types, file, value)
  }

  /** Which n-grams the generators find in `file`. */
  function InFile(file: Bytes): PrimitiveQuery -> bool {
    (g: PrimitiveQuery) => g.trigram in Grams(g.itype, file)
  }

  function PlanHolds(types: set<IndexType>, p: PrimitiveQuery -> bool): QString -> bool {
    (value: QString) => Holds(PlanQString(types, value), p)
  }

  /** A planned query holds when the original does, with each pattern judged by its plan. */
  lemma {:induction false} PlannedHolds(types: set<IndexType>, q: PatternQuery, p: PrimitiveQuery -> bool)
    ensures Holds(Planned(types, q), p) == Holds(q, PlanHolds(types, p))
  {
    if !q.Leaf? {
      var r := Planned(types, q);
      forall i | 0 <= i < |q.queries| ensures Holds(r.queries[i], p) == Holds(q.queries[i], PlanHolds(types, p)) {
        PlannedHolds(types, q.queries[i], p);
      }
      if q.MinOf? {
        MinOfHolds(q.count, q.queries, PlanHolds(types, p));
        MinOfHolds(q.count, r.queries, p);
        TallySame(q.queries, r.queries, |q.queries|, PlanHolds(types, p), p);
      }
    }
  }

  lemma PlanHoldsIff(types: set<IndexType>, value: QString, p: PrimitiveQuery -> bool)
    ensures Holds(PlanQString(types, value), p) <==> forall g :: g in PlanFrom(types, value, 0, 0) ==> p(g)
  {
    var grams := PlanFrom(types, value, 0, 0);
    if Holds(PlanQString(types, value), p) {
      forall g | g in grams ensures p(g) {
        var k :| 0 <= k < |grams| && grams[k] == g;
        assert Holds(Leaves(grams)[k], p);
      }
    }
  }

  // ----- no file is lost -----

  /** Everything planned is the n-gram of some window of the pattern. */
  lemma {:induction false} PlanIsSound(types: set<IndexType>, value: QString, i: nat, skipTo: nat, g: PrimitiveQuery)
    requires g in PlanFrom(types, value, i, skipTo)
    ensures g.itype in types && exists j: nat :: j < |value| && ConvertAt(g.itype, value, j) == Some(g.trigram)
    decreases |value| - i
  {
    var s := StepAt(types, value, i, skipTo);
    if g in s.grams {
      StepIsSound(types, value, i, skipTo, g);
    } else {
      PlanIsSound(types, value, s.next, s.skipTo, g);
    }
  }

  lemma StepIsSound(types: set<IndexType>, value: QString, i: nat, skipTo: nat, g: PrimitiveQuery)
    requires g in StepAt(types, value, i, skipTo).grams
    ensures g.itype in types && ConvertAt(g.itype, value, i) == Some(g.trigram)
  {
  }

  lemma WindowAt(t: IndexType, file: Bytes, o: nat, value: QString, j: nat)
    requires MatchesAt(file, o, value) && ConvertAt(t, value, j).Some?
    ensures o + j + Width(t) <= |file| && file[o + j..o + j + Width(t)] == Singles(value[j..j + Width(t)])
  {
    var tokens := value[j..j + Width(t)];
    var w, v := Singles(tokens), file[o + j..o + j + Width(t)];
    forall k | 0 <= k < Width(t) ensures w[k] == v[k] {
      assert tokens[k] == value[j + k] == [w[k]];
      assert file[o + (j + k)] in value[j + k];
    }
  }

  /** The n-gram of a window of the pattern is the n-gram of the matching window of the file. */
  lemma WindowMatches(t: IndexType, file: Bytes, o: nat, value: QString, j: nat)
    requires MatchesAt(file, o, value) && ConvertAt(t, value, j).Some? && t != WIDE8
    ensures ConvertAt(t, value, j).value in Grams(t, file)
  {
    WindowAt(t, file, o, value, j);
    assert GramAt(t, file, o + j) == ConvertAt(t, value, j);
    GramsExactly(t, file, ConvertAt(t, value, j).value);
  }

  /** A wide n-gram of the pattern is in the file if and only if its window is seen. */
  lemma WideExactly(file: Bytes, value: QString, j: nat)
    requires ConvertAt(WIDE8, value, j).Some?
    ensures ConvertAt(WIDE8, value, j).value in Grams(WIDE8, file) <==> WideSeenAt(file, value, j)
  {
    var w, g := Singles(value[j..j + 8]), ConvertAt(WIDE8, value, j).value;
    GramsExactly(WIDE8, file, g);
    if i: nat :| GramAt(WIDE8, file, i) == Some(g) {
      CodeInjective(WIDE8, w, file[i..i + 8]);
      assert SeenAt(file, w, i);
    }
    if i: nat :| SeenAt(file, w, i) {
      assert GramAt(WIDE8, file, i) == Some(g);
    }
  }

  /** A wide window starts with a letter and a zero, so none starts one byte after another. */
  lemma NoWideAfterWide(value: QString, i: nat)
    requires ConvertAt(WIDE8, value, i).Some?
    ensures ConvertAt(WIDE8, value, i + 1).None?
  {
    var v := Singles(value[i..i + 8]);
    assert value[i..i + 8][1] == value[i + 1] == [v[1]];
    assert i + 9 <= |value| ==> value[i + 1..i + 9][0] == value[i + 1];
  }

  /** Every wide window of the pattern is planned, although the planner moves on by two bytes. */
  lemma {:induction false} WideIsPlanned(types: set<IndexType>, value: QString, i: nat, skipTo: nat, j: nat)
    requires WIDE8 in types && i <= j && ConvertAt(WIDE8, value, j).Some?
    ensures PrimitiveQuery(WIDE8, ConvertAt(WIDE8, value, j).value) in PlanFrom(types, value, i, skipTo)
    decreases |value| - i
  {
    var s := StepAt(types, value, i, skipTo);
    if i == j {
      assert PrimitiveQuery(WIDE8, ConvertAt(WIDE8, value, j).value) in s.grams;
    } else {
      if ConvertAt(WIDE8, value, i).Some? {
        NoWideAfterWide(value, i);
      }
      WideIsPlanned(types, value, s.next, s.skipTo, j);
    }
  }

  /** Everything planned but the wide n-grams is in every file that contains the pattern. */
  lemma PlannedIsInFile(types: set<IndexType>, file: Bytes, value: QString, g: PrimitiveQuery)
    requires Matches(types, file, value) && g in PlanFrom(types, value, 0, 0)
    ensures InFile(file)(g)
  {
    var o: nat :| o <= |file| && MatchesAt(file, o, value);
    PlanIsSound(types, value, 0, 0, g);
    var j: nat :| j < |value| && ConvertAt(g.itype, value, j) == Some(g.trigram);
    if g.itype == WIDE8 {
      WideExactly(file, value, j);
    } else {
      WindowMatches(g.itype, file, o, value, j);
    }
  }

  /**
   * Of a file that contains the pattern, the plan holds if and only if, should there be a wide8 index,
   * its generator has seen all wide windows of the pattern.
   */
  lemma PatternFoundExactly(types: set<IndexType>, file: Bytes, value: QString)
    requires Occurs(file, value)
    ensures Holds(PlanQString(types, value), InFile(file)) <==> (WIDE8 in types ==> WideSeen(file, value))
  {
    PlanHoldsIff(types, value, InFile(file));
    if WIDE8 in types ==> WideSeen(file, value) {
      forall g | g in PlanFrom(types, value, 0, 0) ensures InFile(file)(g) {
        PlannedIsInFile(types, file, value, g);
      }
    }
    if WIDE8 in types && Holds(PlanQString(types, value), InFile(file)) {
      forall j | 0 <= j < |value| ensures WideSeenAt(file, value, j) {
        if ConvertAt(WIDE8, value, j).Some? {
          WideIsPlanned(types, value, 0, 0, j);
          assert InFile(file)(PrimitiveQuery(WIDE8, ConvertAt(WIDE8, value, j).value));
          WideExactly(file, value, j);
        }
      }
    }
  }

  /** The pattern without alternatives that is matched by `w` only. */
  function Literal(w: Bytes): QString {
    seq(|w|, k requires 0 <= k < |w| => [w[k]])
  }

  lemma LiteralGram(w: Bytes)
    requires Shape(WIDE8, w)
    ensures ConvertAt(WIDE8, Literal(w), 0) == Some(Code(WIDE8, w))
  {
    var value := Literal(w);
    assert value[0..8] == value;
    assert Singles(value) == w;
  }

  /** The file "AA\0B\0C\0D\0" contains the wide string ABCD, but no plan that uses a wide8 index finds it. */
  lemma WidePatternMissed(types: set<IndexType>)
    requires WIDE8 in types
    ensures var file: Bytes := [65, 65, 0, 66, 0, 67, 0, 68, 0];
      Occurs(file, Literal(file[1..9])) && !Holds(PlanQString(types, Literal(file[1..9])), InFile(file))
  {
    var file: Bytes := [65, 65, 0, 66, 0, 67, 0, 68, 0];
    var w := file[1..9];
    WideWindowMissed();
    LiteralGram(w);
    assert MatchesAt(file, 1, Literal(w)) by {
      assert forall k :: 0 <= k < 8 ==> w[k] == file[1 + k];
    }
    WideExactly(file, Literal(w), 0);
    PatternFoundExactly(types, file, Literal(w));
  }

  /** A byte outside the alphabet in front of an occurrence, or the start of the file, makes a window seen. */
  lemma SeenAfterGap(file: Bytes, o: nat, value: QString, j: nat)
    requires MatchesAt(file, o, value) && ConvertAt(WIDE8, value, j).Some?
    requires o + j > 0 && o + j <= |file| ==> !IsText(file[o + j - 1])
    ensures WideSeenAt(file, value, j)
  {
    WindowAt(WIDE8, file, o, value, j);
    WideRunEvenAfterGap(file, o + j);
    assert SeenAt(file, Singles(value[j..j + 8]), o + j);
  }

  /**
   * No false negatives: a file that satisfies the query, pattern by pattern, satisfies its plan. For a
   * pattern that occurs in the file, `Matches` is exactly what its plan needs; without a wide8 index it
   * is occurrence and nothing else.
   */
  lemma NoFalseNegatives(types: set<IndexType>, q: PatternQuery, file: Bytes)
    requires Holds(q, MatchesIn(types, file))
    ensures Holds(Planned(types, q), InFile(file))
  {
    forall value | MatchesIn(types, file)(value) ensures PlanHolds(types, InFile(file))(value) {
      PatternFoundExactly(types, file, value);
    }
    HoldsMonotone(q, MatchesIn(types, file), PlanHolds(types, InFile(file)));
    PlannedHolds(types, q, InFile(file));
  }

  // ----- no selectivity is lost -----

  /** The trigram of the pattern at `k`, if it has one, is in the file. */
  predicate TrigramIn(file: Bytes, value: QString, k: nat) {
    ConvertAt(GRAM3, value, k).Some? ==> ConvertAt(GRAM3, value, k).value in Grams(GRAM3, file)
  }

  /** Apart from hashes, an n-gram in a file tells which window it comes from. */
  lemma GramHasWindow(t: IndexType, file: Bytes, w: Bytes) returns (o: nat)
    requires t != HASH4 && Shape(t, w) && Code(t, w) in Grams(t, file)
    ensures o + |w| <= |file| && file[o..o + |w|] == w
  {
    GramsExactly(t, file, Code(t, w));
    o :| GramAt(t, file, o) == Some(Code(t, w));
    CodeInjective(t, w, file[o..o + Width(t)]);
  }

  lemma TrigramInWindow(file: Bytes, o: nat, w: Bytes, m: nat)
    requires o + |w| <= |file| && file[o..o + |w|] == w && m + 3 <= |w|
    ensures Code(GRAM3, w[m..m + 3]) in Grams(GRAM3, file)
  {
    SubSlice(file, o, o + m, o + m + 3, o + |w|);
    assert GramAt(GRAM3, file, o + m) == Some(Code(GRAM3, w[m..m + 3]));
    GramsExactly(GRAM3, file, Code(GRAM3, w[m..m + 3]));
  }

  lemma SinglesSlice(tokens: QString, m: nat)
    requires AllUnique(tokens) && m + 3 <= |tokens|
    ensures AllUnique(tokens[m..m + 3]) && Singles(tokens[m..m + 3]) == Singles(tokens)[m..m + 3]
  {
    var part := tokens[m..m + 3];
    assert forall k :: 0 <= k < 3 ==> part[k] == tokens[m + k];
    assert forall k :: 0 <= k < 3 ==> [Singles(part)[k]] == [Singles(tokens)[m + k]];
  }

  /** A file with a text or wide n-gram of the pattern has the trigrams inside its window. */
  lemma GramCovers(t: IndexType, file: Bytes, value: QString, i: nat, k: nat)
    requires t != HASH4 && i <= k && k + 3 <= i + Width(t)
    requires ConvertAt(t, value, i).Some? && ConvertAt(t, value, i).value in Grams(t, file)
    ensures TrigramIn(file, value, k)
  {
    var o := ConvertedWindow(t, file, value, i);
    WindowCovers(file, value, o, i, Width(t), k - i);
  }

  /** An n-gram of the pattern in a file, hashes apart, tells where its window is. */
  lemma ConvertedWindow(t: IndexType, file: Bytes, value: QString, i: nat) returns (o: nat)
    requires t != HASH4 && ConvertAt(t, value, i).Some? && ConvertAt(t, value, i).value in Grams(t, file)
    ensures i + Width(t) <= |value| && AllUnique(value[i..i + Width(t)])
    ensures o + Width(t) <= |file| && file[o..o + Width(t)] == Singles(value[i..i + Width(t)])
  {
    o := GramHasWindow(t, file, Singles(value[i..i + Width(t)]));
  }

  lemma WindowCovers(file: Bytes, value: QString, o: nat, i: nat, width: nat, m: nat)
    requires i + width <= |value| && AllUnique(value[i..i + width]) && m + 3 <= width
    requires o + width <= |file| && file[o..o + width] == Singles(value[i..i + width])
    ensures TrigramIn(file, value, i + m)
  {
    var tokens := value[i..i + width];
    SinglesSlice(tokens, m);
    SubSlice(value, i, i + m, i + m + 3, i + width);
    TrigramInWindow(file, o, Singles(tokens), m);
    TrigramGiven(file, value, i + m, tokens[m..m + 3]);
  }

  lemma TrigramGiven(file: Bytes, value: QString, k: nat, part: QString)
    requires k + 3 <= |value| && value[k..k + 3] == part && AllUnique(part)
    requires Code(GRAM3, Singles(part)) in Grams(GRAM3, file)
    ensures TrigramIn(file, value, k)
  {
  }

  /** All trigrams of the pattern that start before `end` are in the file. */
  predicate CoveredTo(file: Bytes, value: QString, end: nat) {
    forall k: nat :: k < end ==> TrigramIn(file, value, k)
  }

  function Max(a: nat, b: nat): nat {
    if a < b then b else a
  }

  /** What a step leaves behind is covered by what it plans. */
  lemma StepCoversAt(types: set<IndexType>, value: QString, i: nat, skipTo: nat, file: Bytes, k: nat)
    requires GRAM3 in types
    requires forall g :: g in StepAt(types, value, i, skipTo).grams ==> InFile(file)(g)
    requires i <= k && (k < StepAt(types, value, i, skipTo).next || k < StepAt(types, value, i, skipTo).skipTo)
    requires k >= skipTo || StepAt(types, value, i, skipTo).skipTo != skipTo
    ensures TrigramIn(file, value, k)
  {
    var s := StepAt(types, value, i, skipTo);
    if WIDE8 in types && ConvertAt(WIDE8, value, i).Some? {
      assert InFile(file)(s.grams[0]);
      GramCovers(WIDE8, file, value, i, k);
    } else if TEXT4 in types && ConvertAt(TEXT4, value, i).Some? {
      assert InFile(file)(s.grams[0]);
      GramCovers(TEXT4, file, value, i, k);
    } else if ConvertAt(GRAM3, value, i).Some? {
      assert InFile(file)(s.grams[|s.grams| - 1]);
    }
  }

  /** One step of the planner leaves no trigram behind `next` or `skipTo` uncovered. */
  lemma StepCovers(types: set<IndexType>, value: QString, i: nat, skipTo: nat, file: Bytes)
    requires GRAM3 in types && CoveredTo(file, value, Max(i, skipTo))
    requires forall g :: g in StepAt(types, value, i, skipTo).grams ==> InFile(file)(g)
    ensures CoveredTo(file, value, Max(StepAt(types, value, i, skipTo).next, StepAt(types, value, i, skipTo).skipTo))
  {
    var next, skipTo' := StepAt(types, value, i, skipTo).next, StepAt(types, value, i, skipTo).skipTo;
    forall k: nat | k < Max(next, skipTo') ensures TrigramIn(file, value, k) {
      if k >= Max(i, skipTo) || (k >= i && skipTo' != skipTo) {
        StepCoversAt(types, value, i, skipTo, file, k);
      }
    }
  }

  lemma {:induction false} PlanCovers(types: set<IndexType>, value: QString, i: nat, skipTo: nat, file: Bytes)
    requires GRAM3 in types && CoveredTo(file, value, Max(i, skipTo))
    requires forall g :: g in PlanFrom(types, value, i, skipTo) ==> InFile(file)(g)
    ensures forall k: nat :: TrigramIn(file, value, k)
    decreases |value| - i
  {
    if i + 2 < |value| {
      var s := StepAt(types, value, i, skipTo);
      StepCovers(types, value, i, skipTo, file);
      PlanCovers(types, value, s.next, s.skipTo, file);
    }
  }

  lemma PatternSelective(types: set<IndexType>, value: QString, file: Bytes)
    requires GRAM3 in types && Holds(PlanQString(types, value), InFile(file))
    ensures Holds(PlanQString({GRAM3}, value), InFile(file))
  {
    PlanHoldsIff(types, value, InFile(file));
    PlanCovers(types, value, 0, 0, file);
    forall g | g in PlanFrom({GRAM3}, value, 0, 0) ensures InFile(file)(g) {
      PlanIsSound({GRAM3}, value, 0, 0, g);
      var j: nat :| j < |value| && ConvertAt(GRAM3, value, j) == Some(g.trigram);
      assert TrigramIn(file, value, j);
    }
    PlanHoldsIff({GRAM3}, value, InFile(file));
  }

  /** Leaving out trigrams that other n-grams cover lets no more files through than trigrams alone. */
  lemma NoLessSelective(types: set<IndexType>, q: PatternQuery, file: Bytes)
    requires GRAM3 in types && Holds(Planned(types, q), InFile(file))
    ensures Holds(Planned({GRAM3}, q), InFile(file))
  {
    forall value | PlanHolds(types, InFile(file))(value) ensures PlanHolds({GRAM3}, InFile(file))(value) {
      PatternSelective(types, value, file);
    }
    PlannedHolds(types, q, InFile(file));
    HoldsMonotone(q, PlanHolds(types, InFile(file)), PlanHolds({GRAM3}, InFile(file)));
    PlannedHolds({GRAM3}, q, InFile(file));
  }

  /** What is planned can be run on the indexes it was planned for. */
  lemma {:induction false} PlannedFits(types: set<IndexType>, q: PatternQuery)
    requires SmallCounts(q)
    ensures Fits(Planned(types, q), types)
  {
    if q.Leaf? {
      var grams := PlanFrom(types, q.leaf, 0, 0);
      forall k | 0 <= k < |grams| ensures grams[k].itype in types {
        PlanIsSound(types, q.leaf, 0, 0, grams[k]);
      }
    } else {
      forall i | 0 <= i < |q.queries| ensures Fits(Planned(types, q).queries[i], types) {
        PlannedFits(types, q.queries[i]);
      }
    }
  }
}
