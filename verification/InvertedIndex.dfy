/** What an index of a list of files should hold, without saying how it is built. */
module InvertedIndex {
  import opened Core
  import opened Codec
  import opened IndexFormat
  import opened Ngrams

  /** The most files that 32-bit ids can number. */
  const MAX_FILES: nat := 0x1_0000_0000

  /** The n-grams of each file. */
  function GramLists(t: IndexType, files: seq<Bytes>): (lists: seq<seq<TriGram>>)
    ensures |lists| == |files|
    ensures forall i :: 0 <= i < |files| ==> lists[i] == Grams(t, files[i])
  {
    seq(|files|, i requires 0 <= i < |files| => Grams(t, files[i]))
  }

  function Has(lists: seq<seq<TriGram>>, v: TriGram): nat -> bool {
    (fid: nat) => fid < |lists| && v in lists[fid]
  }

  /** The ids, in order, of the files that contain n-gram `v`. */
  function Postings(lists: seq<seq<TriGram>>, v: TriGram): (r: Run)
    requires |lists| <= MAX_FILES
    ensures AscendingFrom(-1, r)
  {
    SelectAscending(|lists|, Has(lists, v));
    Select(|lists|, Has(lists, v))
  }

  lemma PostingsExactly(lists: seq<seq<TriGram>>, v: TriGram, fid: int)
    requires |lists| <= MAX_FILES
    ensures fid in Postings(lists, v) <==> 0 <= fid < |lists| && v in lists[fid]
  {
    SelectMember(|lists|, Has(lists, v), fid);
  }

  /** The run of every n-gram. */
  function Inverted(lists: seq<seq<TriGram>>): (runs: seq<Run>)
    requires |lists| <= MAX_FILES
    ensures |runs| == NUM_TRIGRAMS && ValidRuns(runs)
    ensures forall v: nat :: v < NUM_TRIGRAMS ==> runs[v] == Postings(lists, v)
  {
    seq(NUM_TRIGRAMS, v requires 0 <= v < NUM_TRIGRAMS => Postings(lists, v))
  }

  /** The index file that every builder must produce for `files`. */
  function IndexOf(t: IndexType, files: seq<Bytes>): Bytes
    requires |files| <= MAX_FILES
  {
    Serialize(t, Inverted(GramLists(t, files)))
  }

  lemma GramListsConcat(t: IndexType, a: seq<Bytes>, b: seq<Bytes>)
    ensures GramLists(t, a + b) == GramLists(t, a) + GramLists(t, b)
  {
  }

  /** Appending files appends their postings, moved up by the number of files before them. */
  lemma PostingsConcat(a: seq<seq<TriGram>>, b: seq<seq<TriGram>>, v: TriGram)
    requires |a| + |b| <= MAX_FILES
    ensures Postings(a + b, v) == Postings(a, v) + Shift(|a|, Postings(b, v))
  {
    SelectConcat(|a|, |b|, Has(a + b, v), Has(b, v));
    SelectSame(|a|, Has(a + b, v), Has(a, v));
  }

  /** A run that lists exactly the files with `v` is the posting list of `v`. */
  lemma PostingsUnique(lists: seq<seq<TriGram>>, v: TriGram, run: Run)
    requires |lists| <= MAX_FILES && AscendingFrom(-1, run)
    requires forall fid :: fid in run <==> 0 <= fid < |lists| && v in lists[fid]
    ensures run == Postings(lists, v)
  {
    SelectUnique(|lists|, Has(lists, v), run);
  }
}
