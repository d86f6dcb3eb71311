/** populate_sorted_elements_indices: sort (element, indices) pairs by their indices,
    lexicographically on (param, input, output, light), then copy the two halves of the
    pairs into two parallel vectors. */
module ElementSort {
  import opened ElementIndex

  type Pair = (Element, Indices)

  /** The comparator: lexicographic < on (paramIdx, inputIdx, outputIdx, lightIdx). */
  predicate Less(a: Indices, b: Indices)
    ensures Less(a, b) ==> a != b
  {
    if a.paramIdx < b.paramIdx then true
    else if a.paramIdx > b.paramIdx then false
    else if a.inputIdx < b.inputIdx then true
    else if a.inputIdx > b.inputIdx then false
    else if a.outputIdx < b.outputIdx then true
    else if a.outputIdx > b.outputIdx then false
    else a.lightIdx < b.lightIdx
  }

  /** The four fields read as the digits of one base-256 number, most significant first. */
  function Key(a: Indices): (k: int)
    ensures 0 <= k < 256 * 256 * 256 * 256
  {
    ((a.paramIdx as int * 256 + a.inputIdx as int) * 256 + a.outputIdx as int) * 256 + a.lightIdx as int
  }

  /** The comparator is the order of the keys, and equal keys mean equal records. */
  lemma LessIsKeyOrder(a: Indices, b: Indices)
    ensures Less(a, b) <==> Key(a) < Key(b)
    ensures Key(a) == Key(b) <==> a == b
  {
    var p, q := a.paramIdx as int, b.paramIdx as int;
    var i, j := a.inputIdx as int, b.inputIdx as int;
    var o, u := a.outputIdx as int, b.outputIdx as int;
    var l, m := a.lightIdx as int, b.lightIdx as int;
    var ka, kb := (p * 256 + i) * 256 + o, (q * 256 + j) * 256 + u;
    var ha, hb := p * 256 + i, q * 256 + j;
    DigitOrder(ha, hb, o, u);
    DigitOrder(p, q, i, j);
    DigitOrder(ka, kb, l, m);
  }

  /** Comparing two-digit base-256 numbers: the high digit decides unless it is equal. */
  lemma DigitOrder(h1: int, h2: int, d1: int, d2: int)
    requires 0 <= d1 < 256 && 0 <= d2 < 256
    ensures h1 * 256 + d1 < h2 * 256 + d2 <==> h1 < h2 || (h1 == h2 && d1 < d2)
    ensures h1 * 256 + d1 == h2 * 256 + d2 <==> h1 == h2 && d1 == d2
  {
  }

  /** A strict weak order, in fact a strict total order on records: irreflexive,
      transitive, and two records are incomparable only when they are equal. */
  lemma LessIsStrictTotalOrder(a: Indices, b: Indices, c: Indices)
    ensures !Less(a, a)
    ensures Less(a, b) && Less(b, c) ==> Less(a, c)
    ensures Less(a, b) ==> !Less(b, a)
    ensures !Less(a, b) && !Less(b, a) <==> a == b
  {
    LessIsKeyOrder(a, a);
    LessIsKeyOrder(a, b);
    LessIsKeyOrder(b, a);
    LessIsKeyOrder(b, c);
    LessIsKeyOrder(a, c);
  }

  /** Non-decreasing by key. */
  predicate Sorted(s: seq<Pair>) {
    forall p, q :: 0 <= p < q < |s| ==> Key(s[p].1) <= Key(s[q].1)
  }

  /** A sorted sequence holds no pair where a later record is Less than an earlier one. */
  lemma SortedHasNoInversion(s: seq<Pair>)
    requires Sorted(s)
    ensures forall p, q :: 0 <= p < q < |s| ==> !Less(s[q].1, s[p].1)
  {
    forall p, q | 0 <= p < q < |s|
      ensures !Less(s[q].1, s[p].1)
    {
      LessIsKeyOrder(s[q].1, s[p].1);
    }
  }

  /** The sort of the span, in place: insertion by adjacent swaps, each swap made only
      when the comparator says the later pair is Less. */
  method SortPairs(a: array<Pair>)
    modifies a
    ensures Sorted(a[..])
    ensures multiset(a[..]) == multiset(old(a[..]))
  {
    if a.Length == 0 {
      return;
    }
    var i := 1;
    while i < a.Length
      invariant 1 <= i <= a.Length
      invariant Sorted(a[..i])
      invariant multiset(a[..]) == multiset(old(a[..]))
    {
      InsertDown(a, i);
      i := i + 1;
    }
    assert a[..a.Length] == a[..];
  }

  /** One insertion step: a[i] sinks into the sorted prefix a[..i]. */
  method InsertDown(a: array<Pair>, i: nat)
    requires i < a.Length && Sorted(a[..i])
    modifies a
    ensures Sorted(a[..i + 1])
    ensures multiset(a[..]) == multiset(old(a[..]))
  {
    var j: nat := i;
    SinkStart(a[..], i);
    while j > 0 && Less(a[j].1, a[j - 1].1)
      invariant Sinking(a[..], i, j)
      invariant multiset(a[..]) == multiset(old(a[..]))
    {
      LessIsKeyOrder(a[j].1, a[j - 1].1);
      SinkStep(a[..], i, j);
      SwapPermutes(a[..], j);
      Swap(a, j);
      j := j - 1;
    }
    if j > 0 {
      LessIsKeyOrder(a[j].1, a[j - 1].1);
    }
    SinkDone(a[..], i, j);
  }

  /** Exchange a[j - 1] and a[j]. */
  method Swap(a: array<Pair>, j: nat)
    requires 0 < j < a.Length
    modifies a
    ensures a[..] == old(a[..])[j - 1 := old(a[j])][j := old(a[j - 1])]
  {
    a[j - 1], a[j] := a[j], a[j - 1];
  }

  lemma SwapPermutes(s: seq<Pair>, j: nat)
    requires 0 < j < |s|
    ensures multiset(s[j - 1 := s[j]][j := s[j - 1]]) == multiset(s)
  {
  }

  /** The state of one insertion step while the pair at j sinks: apart from j the prefix
      up to i is sorted, the pairs after j are all above it, and its two neighbours are
      in order. */
  predicate Sinking(s: seq<Pair>, i: nat, j: nat) {
    j <= i < |s|
    && (forall p, q :: 0 <= p < q <= i && p != j && q != j ==> Key(s[p].1) <= Key(s[q].1))
    && (forall q :: j < q <= i ==> Key(s[j].1) < Key(s[q].1))
    && (0 < j < i ==> Key(s[j - 1].1) <= Key(s[j + 1].1))
  }

  lemma SinkStart(s: seq<Pair>, i: nat)
    requires i < |s| && Sorted(s[..i])
    ensures Sinking(s, i, i)
  {
    forall p, q | 0 <= p < q <= i && p != i && q != i
      ensures Key(s[p].1) <= Key(s[q].1)
    {
      assert s[p] == s[..i][p] && s[q] == s[..i][q];
    }
  }

  lemma SinkStep(s: seq<Pair>, i: nat, j: nat)
    requires Sinking(s, i, j) && j > 0 && Key(s[j].1) < Key(s[j - 1].1)
    ensures Sinking(s[j - 1 := s[j]][j := s[j - 1]], i, j - 1)
  {
  }

  lemma SinkDone(s: seq<Pair>, i: nat, j: nat)
    requires Sinking(s, i, j) && (j == 0 || Key(s[j - 1].1) <= Key(s[j].1))
    ensures Sorted(s[..i + 1])
  {
    var t := s[..i + 1];
    forall p, q | 0 <= p < q < |t|
      ensures Key(t[p].1) <= Key(t[q].1)
    {
      if p == j {
      } else if q == j {
        assert Key(s[p].1) <= Key(s[j - 1].1);
      }
    }
  }

  /** The copy loop: push the element and the indices of every pair, in order, onto two
      vectors emptied first. */
  method SplitPairs(a: array<Pair>) returns (elements: seq<Element>, indices: seq<Indices>)
    ensures |elements| == a.Length && |indices| == a.Length
    ensures forall i :: 0 <= i < a.Length ==> elements[i] == a[i].0 && indices[i] == a[i].1
  {
    elements, indices := [], [];
    for i := 0 to a.Length
      invariant |elements| == i && |indices| == i
      invariant forall k :: 0 <= k < i ==> elements[k] == a[k].0 && indices[k] == a[k].1
    {
      elements := elements + [a[i].0];
      indices := indices + [a[i].1];
    }
  }

  /** populate_sorted_elements_indices: the span ends up a sorted permutation of itself and
      the two vectors hold its elements and its indices, pair by pair. */
  method PopulateSortedElementsIndices(elemIdx: array<Pair>)
    returns (elements: seq<Element>, indices: seq<Indices>)
    modifies elemIdx
    ensures Sorted(elemIdx[..])
    ensures multiset(elemIdx[..]) == multiset(old(elemIdx[..]))
    ensures |elements| == elemIdx.Length && |indices| == elemIdx.Length
    ensures forall i :: 0 <= i < elemIdx.Length ==> elements[i] == elemIdx[i].0 && indices[i] == elemIdx[i].1
    ensures forall p, q :: 0 <= p < q < |indices| ==> !Less(indices[q], indices[p])
  {
    SortPairs(elemIdx);
    elements, indices := SplitPairs(elemIdx);
    SortedHasNoInversion(elemIdx[..]);
  }
}
