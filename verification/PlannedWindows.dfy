/** Exactly which windows of a pattern `plan_qstring` plans, without its loop, its jumps and `skip_to`. */
module PlannedWindows {
  import opened Core
  import opened Ngrams
  import opened GramConversion
  import opened Queries
  import opened QueryPlan

  /** The pattern has an n-gram at `j` of a type that there is an index of. */
  predicate Has(types: set<IndexType>, t: IndexType, value: QString, j: nat) {
    t in types && ConvertAt(t, value, j).Some?
  }

  /** No wide window that starts at most `reach - 1` bytes before `j`, and before `i`, has been planned. */
  predicate NoWide(types: set<IndexType>, value: QString, i: nat, j: nat, reach: nat) {
    forall k: nat :: k < i && k <= j < k + reach ==> !Has(types, WIDE8, value, k)
  }

  predicate NoText(types: set<IndexType>, value: QString, i: nat, j: nat, reach: nat) {
    forall k: nat :: k < i && k <= j < k + reach ==> !Has(types, TEXT4, value, k)
  }

  /**
   * Which windows of a pattern are planned: all text and wide ones; a hash, unless a text window starts
   * at the same place, or a wide one there or up to four bytes before; and a trigram, unless a text
   * window starts there or one byte before, or a wide one there or up to five bytes before.
   */
  predicate PlannedAt(types: set<IndexType>, t: IndexType, value: QString, j: nat) {
    Has(types, t, value, j) &&
    match t
    case WIDE8 => true
    case TEXT4 => true
    case HASH4 => !Has(types, TEXT4, value, j) && NoWide(types, value, j + 1, j, 5)
    case GRAM3 => NoText(types, value, j + 1, j, 2) && NoWide(types, value, j + 1, j, 6)
  }

  /** `skipTo` tells whether trigrams at `j` are still covered, and one byte before whether hashes are. */
  predicate SkipsAt(types: set<IndexType>, value: QString, i: nat, skipTo: nat, j: nat) {
    && (j >= skipTo <==> NoText(types, value, i, j, 2) && NoWide(types, value, i, j, 6))
    && (j + 1 >= skipTo <==> NoWide(types, value, i, j, 5))
  }

  ghost predicate Skips(types: set<IndexType>, value: QString, i: nat, skipTo: nat) {
    forall j: nat :: j >= i ==> SkipsAt(types, value, i, skipTo, j)
  }

  /** A wide window has a zero at every other place, so no text window starts inside it. */
  lemma NoTextInWide(value: QString, k: nat, j: nat)
    requires ConvertAt(WIDE8, value, k).Some? && k <= j < k + 8
    ensures ConvertAt(TEXT4, value, j).None?
  {
    var v := Singles(value[k..k + 8]);
    if j + 4 <= |value| && AllUnique(value[j..j + 4]) {
      var w := Singles(value[j..j + 4]);
      var z := if (j - k) % 2 == 1 then j else j + 1;
      assert value[k..k + 8][z - k] == value[z] == [v[z - k]];
      assert value[j..j + 4][z - j] == value[z] == [w[z - j]];
      assert v[z - k] == 0;
    }
  }

  lemma SkipWide(types: set<IndexType>, value: QString, i: nat)
    requires Has(types, WIDE8, value, i)
    ensures Skips(types, value, i + 2, i + 6)
  {
    NoWideAfterWide(value, i);
    NoTextInWide(value, i, i + 1);
    var next, skip := i + 2, i + 6;
    forall j: nat | j >= next ensures SkipsAt(types, value, next, skip, j) {
    }
  }

  lemma SkipText(types: set<IndexType>, value: QString, i: nat)
    requires Has(types, TEXT4, value, i)
    ensures Skips(types, value, i + 1, i + 2)
  {
    forall k: nat | k <= i < k + 8 ensures !Has(types, WIDE8, value, k) {
      if ConvertAt(WIDE8, value, k).Some? {
        NoTextInWide(value, k, i);
      }
    }
    var next, skip := i + 1, i + 2;
    forall j: nat | j >= next ensures SkipsAt(types, value, next, skip, j) {
    }
  }

  lemma SkipOther(types: set<IndexType>, value: QString, i: nat, skipTo: nat)
    requires !Has(types, WIDE8, value, i) && !Has(types, TEXT4, value, i) && Skips(types, value, i, skipTo)
    ensures Skips(types, value, i + 1, skipTo)
  {
    var next := i + 1;
    forall j: nat | j >= next ensures SkipsAt(types, value, next, skipTo, j) {
      assert SkipsAt(types, value, i, skipTo, j);
      NoMore(types, value, i, j);
    }
  }

  /** A position without a text or wide window covers nothing. */
  lemma NoMore(types: set<IndexType>, value: QString, i: nat, j: nat)
    requires !Has(types, WIDE8, value, i) && !Has(types, TEXT4, value, i)
    ensures NoText(types, value, i + 1, j, 2) == NoText(types, value, i, j, 2)
    ensures NoWide(types, value, i + 1, j, 6) == NoWide(types, value, i, j, 6)
    ensures NoWide(types, value, i + 1, j, 5) == NoWide(types, value, i, j, 5)
  {
  }

  lemma StepSkips(types: set<IndexType>, value: QString, i: nat, skipTo: nat)
    requires Skips(types, value, i, skipTo)
    ensures var s := StepAt(types, value, i, skipTo); Skips(types, value, s.next, s.skipTo)
  {
    if Has(types, WIDE8, value, i) {
      SkipWide(types, value, i);
    } else if Has(types, TEXT4, value, i) {
      SkipText(types, value, i);
    } else {
      SkipOther(types, value, i, skipTo);
    }
  }

  /** The n-gram `g` is that of a planned window at `j`. */
  predicate GivenAt(types: set<IndexType>, value: QString, g: PrimitiveQuery, j: nat) {
    PlannedAt(types, g.itype, value, j) && ConvertAt(g.itype, value, j) == Some(g.trigram)
  }

  /** Where neither a text nor a wide window starts, the step plans what `skipTo` leaves open. */
  lemma OpenAt(types: set<IndexType>, value: QString, i: nat, skipTo: nat)
    requires !Has(types, WIDE8, value, i) && !Has(types, TEXT4, value, i) && SkipsAt(types, value, i, skipTo, i)
    ensures PlannedAt(types, HASH4, value, i) <==> Has(types, HASH4, value, i) && i + 1 >= skipTo
    ensures PlannedAt(types, GRAM3, value, i) <==> Has(types, GRAM3, value, i) && i >= skipTo
    ensures !PlannedAt(types, WIDE8, value, i) && !PlannedAt(types, TEXT4, value, i)
  {
    NoMore(types, value, i, i);
  }

  lemma OtherExactly(types: set<IndexType>, value: QString, i: nat, skipTo: nat, g: PrimitiveQuery)
    requires !Has(types, WIDE8, value, i) && !Has(types, TEXT4, value, i) && SkipsAt(types, value, i, skipTo, i)
    ensures g in StepAt(types, value, i, skipTo).grams <==> GivenAt(types, value, g, i)
  {
    OpenAt(types, value, i, skipTo);
  }

  lemma TextExactly(types: set<IndexType>, value: QString, i: nat, skipTo: nat, g: PrimitiveQuery)
    requires !Has(types, WIDE8, value, i) && Has(types, TEXT4, value, i)
    ensures g in StepAt(types, value, i, skipTo).grams <==> GivenAt(types, value, g, i)
  {
    assert !NoText(types, value, i + 1, i, 2);
  }

  lemma WideExactly(types: set<IndexType>, value: QString, i: nat, skipTo: nat, g: PrimitiveQuery)
    requires Has(types, WIDE8, value, i)
    ensures g in StepAt(types, value, i, skipTo).grams <==> GivenAt(types, value, g, i)
  {
    NoTextInWide(value, i, i);
    assert !NoWide(types, value, i + 1, i, 5) && !NoWide(types, value, i + 1, i, 6);
  }

  /** A step plans just what is to be planned at its position. */
  lemma StepExactly(types: set<IndexType>, value: QString, i: nat, skipTo: nat, g: PrimitiveQuery)
    requires Skips(types, value, i, skipTo)
    ensures g in StepAt(types, value, i, skipTo).grams <==> GivenAt(types, value, g, i)
  {
    if Has(types, WIDE8, value, i) {
      WideExactly(types, value, i, skipTo, g);
    } else if Has(types, TEXT4, value, i) {
      TextExactly(types, value, i, skipTo, g);
    } else {
      assert SkipsAt(types, value, i, skipTo, i);
      OtherExactly(types, value, i, skipTo, g);
    }
  }

  /** Nothing is to be planned at the byte that the planner jumps over. */
  lemma NothingAfterWide(types: set<IndexType>, value: QString, i: nat, g: PrimitiveQuery)
    requires Has(types, WIDE8, value, i)
    ensures !GivenAt(types, value, g, i + 1)
  {
    NoWideAfterWide(value, i);
    NoTextInWide(value, i, i + 1);
    assert !NoWide(types, value, i + 2, i + 1, 5) && !NoWide(types, value, i + 2, i + 1, 6);
  }

  ghost predicate GivenFrom(types: set<IndexType>, value: QString, g: PrimitiveQuery, i: nat) {
    exists j: nat :: j >= i && GivenAt(types, value, g, j)
  }

  lemma GivenNext(types: set<IndexType>, value: QString, g: PrimitiveQuery, i: nat)
    ensures GivenFrom(types, value, g, i) <==> GivenAt(types, value, g, i) || GivenFrom(types, value, g, i + 1)
  {
  }

  lemma NothingAtEnd(types: set<IndexType>, value: QString, g: PrimitiveQuery, i: nat)
    requires i + 2 >= |value|
    ensures !GivenFrom(types, value, g, i)
  {
  }

  lemma {:induction false} PlanFromExactly(types: set<IndexType>, value: QString, i: nat, skipTo: nat, g: PrimitiveQuery)
    requires Skips(types, value, i, skipTo)
    ensures g in PlanFrom(types, value, i, skipTo) <==> GivenFrom(types, value, g, i)
    decreases |value| - i
  {
    if i + 2 < |value| {
      var s := StepAt(types, value, i, skipTo);
      StepSkips(types, value, i, skipTo);
      StepExactly(types, value, i, skipTo, g);
      PlanFromExactly(types, value, s.next, s.skipTo, g);
      StepGiven(types, value, i, skipTo, g);
      assert PlanFrom(types, value, i, skipTo) == s.grams + PlanFrom(types, value, s.next, s.skipTo);
    } else {
      NothingAtEnd(types, value, g, i);
    }
  }

  /** What is to be planned from `i` on is to be planned at `i`, or where the planner goes next. */
  lemma StepGiven(types: set<IndexType>, value: QString, i: nat, skipTo: nat, g: PrimitiveQuery)
    ensures GivenFrom(types, value, g, i)
       <==> GivenAt(types, value, g, i) || GivenFrom(types, value, g, StepAt(types, value, i, skipTo).next)
  {
    GivenNext(types, value, g, i);
    if Has(types, WIDE8, value, i) {
      GivenNext(types, value, g, i + 1);
      NothingAfterWide(types, value, i, g);
    }
  }

  lemma NothingSkipped(types: set<IndexType>, value: QString)
    ensures Skips(types, value, 0, 0)
  {
    var start: nat := 0;
    forall j: nat | j >= start ensures SkipsAt(types, value, start, start, j) {
    }
  }

  /** The plan of a pattern consists of exactly the n-grams of the windows that are to be planned. */
  lemma PlanExactly(types: set<IndexType>, value: QString, g: PrimitiveQuery)
    ensures g in PlanFrom(types, value, 0, 0) <==> exists j: nat :: GivenAt(types, value, g, j)
  {
    NothingSkipped(types, value);
    PlanFromExactly(types, value, 0, 0, g);
    if j: nat :| GivenAt(types, value, g, j) {
      assert GivenFrom(types, value, g, 0);
    }
  }

  /** What a plan asks for: `p` holds for the n-grams of all windows that are to be planned. */
  lemma PlanHoldsExactly(types: set<IndexType>, value: QString, p: PrimitiveQuery -> bool)
    ensures Holds(PlanQString(types, value), p)
       <==> forall t, j: nat :: PlannedAt(types, t, value, j) ==> p(PrimitiveQuery(t, ConvertAt(t, value, j).value))
  {
    PlanHoldsIff(types, value, p);
    if Holds(PlanQString(types, value), p) {
      forall t, j: nat | PlannedAt(types, t, value, j) ensures p(PrimitiveQuery(t, ConvertAt(t, value, j).value)) {
        var g := PrimitiveQuery(t, ConvertAt(t, value, j).value);
        assert GivenAt(types, value, g, j);
        PlanExactly(types, value, g);
      }
    }
    if forall t, j: nat :: PlannedAt(types, t, value, j) ==> p(PrimitiveQuery(t, ConvertAt(t, value, j).value)) {
      forall g | g in PlanFrom(types, value, 0, 0) ensures p(g) {
        PlanExactly(types, value, g);
        var j: nat :| GivenAt(types, value, g, j);
        assert PlannedAt(types, g.itype, value, j);
      }
    }
  }

  lemma OnlySmall(types: set<IndexType>, t: IndexType, value: QString, j: nat)
    requires types <= {HASH4, GRAM3}
    ensures PlannedAt(types, t, value, j) <==> Has(types, t, value, j)
  {
    assert WIDE8 !in types && TEXT4 !in types;
  }

  /** With trigrams and hashes only, all windows of the pattern are asked for. */
  lemma HashesAndTrigrams(types: set<IndexType>, value: QString, p: PrimitiveQuery -> bool)
    requires types <= {HASH4, GRAM3}
    ensures Holds(PlanQString(types, value), p)
       <==> forall t, j: nat :: Has(types, t, value, j) ==> p(PrimitiveQuery(t, ConvertAt(t, value, j).value))
  {
    PlanHoldsExactly(types, value, p);
    forall t, j: nat ensures PlannedAt(types, t, value, j) <==> Has(types, t, value, j) {
      OnlySmall(types, t, value, j);
    }
  }
}
