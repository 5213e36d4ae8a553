/**
 * The bin map of output_init (src/output.c, lines 99-198): which data index
 * (frequency bin) feeds which display column, how many data indices feed each
 * column, the smallest and largest data index in use, and the number of
 * columns finally displayed.
 */
module BinMap {
  import opened CTypes

  /** OUTPUT_NO_GROUPING, OUTPUT_LINEAL_GROUPING, OUTPUT_LOGARITMIC_GROUPING. */
  datatype Grouping = NoGrouping | LinealGrouping | LogaritmicGrouping
  /** OUTPUT_NO_GROUPING_FUNC, OUTPUT_MAX_GROUPING_FUNC, OUTPUT_AVG_GROUPING_FUNC. */
  datatype GroupingFunc = NoGroupingFunc | MaxGroupingFunc | AvgGroupingFunc

  /**
   * The grouping that output_init applies (src/output.c:119): columns are only
   * grouped when both a grouping and a grouping function are given.
   */
  function EffectiveGrouping(group: Grouping, groupFunc: GroupingFunc): (g: Grouping)
    ensures g == NoGrouping <==> group == NoGrouping || groupFunc == NoGroupingFunc
    ensures g != NoGrouping ==> g == group
  {
    if groupFunc != NoGroupingFunc && group != NoGrouping then group else NoGrouping
  }

  /** A frequency is kept when it lies in the inclusive window [lo, hi]. */
  predicate InRange(f: real, lo: nat, hi: nat)
  {
    lo as real <= f <= hi as real
  }

  /** The frequencies are ascending (the assumption stated at src/output.c:160). */
  ghost predicate Sorted(s: seq<real>)
  {
    forall i, j :: 0 <= i <= j < |s| ==> s[i] <= s[j]
  }

  /**
   * The grouped column of a kept frequency (src/output.c:171-172): the position
   * of f in [lo, hi] scaled to numPoints and truncated, clamped to the last
   * column because f == hi would otherwise land one past it.
   */
  function ColumnOf(f: real, lo: nat, hi: nat, numPoints: nat): (c: nat)
    requires InRange(f, lo, hi) && lo != hi && numPoints > 0
    ensures c < numPoints
    ensures c < numPoints - 1 ==> c as real <= Scaled(f, lo, hi, numPoints) < (c + 1) as real
    ensures c == numPoints - 1 ==> c as real <= Scaled(f, lo, hi, numPoints)
  {
    ScaledBounds(f, lo, hi, numPoints);
    var t := Scaled(f, lo, hi, numPoints).Floor;
    if t < numPoints - 1 then t else numPoints - 1
  }

  /** ((f - lo) / (hi - lo)) * numPoints, the unclamped column position. */
  function Scaled(f: real, lo: nat, hi: nat, numPoints: nat): real
    requires lo != hi
  {
    (f - lo as real) / ((hi - lo) as real) * numPoints as real
  }

  lemma ScaledBounds(f: real, lo: nat, hi: nat, numPoints: nat)
    requires InRange(f, lo, hi) && lo != hi
    ensures 0.0 <= Scaled(f, lo, hi, numPoints) <= numPoints as real
  {
    var x, d := f - lo as real, (hi - lo) as real;
    assert 0.0 <= x <= d && d > 0.0;
    var q := x / d;
    assert q * d == x;
    assert 0.0 <= q <= 1.0;
    var n := numPoints as real;
    assert Scaled(f, lo, hi, numPoints) == q * n;
    assert 0.0 <= q * n <= n;
  }

  /** A higher frequency never lands in an earlier column. */
  lemma ColumnMonotone(f1: real, f2: real, lo: nat, hi: nat, numPoints: nat)
    requires InRange(f1, lo, hi) && InRange(f2, lo, hi) && lo != hi && numPoints > 0
    requires f1 <= f2
    ensures ColumnOf(f1, lo, hi, numPoints) <= ColumnOf(f2, lo, hi, numPoints)
  {
    var d := (hi - lo) as real;
    var q1, q2 := (f1 - lo as real) / d, (f2 - lo as real) / d;
    assert q1 <= q2;
    assert q1 * numPoints as real <= q2 * numPoints as real;
    var x1, x2 := Scaled(f1, lo, hi, numPoints), Scaled(f2, lo, hi, numPoints);
    assert x1 <= x2;
    assert x1.Floor <= x2.Floor;
  }

  /** The number of kept frequencies among the first i. */
  function InRangeCount(freqs: seq<real>, lo: nat, hi: nat, i: nat): (k: nat)
    requires i <= |freqs|
    ensures k <= i
  {
    if i == 0 then 0
    else InRangeCount(freqs, lo, hi, i - 1) + (if InRange(freqs[i - 1], lo, hi) then 1 else 0)
  }

  /**
   * What output_init may be given: unsigned int sizes, at least one column when
   * grouping (num_points - 1 would wrap otherwise), one column per data index
   * without grouping, and no 0/0 division (a kept frequency with lo == hi).
   */
  ghost predicate Configured(freqs: seq<real>, lo: nat, hi: nat, numPoints: nat, grouped: bool)
  {
    && |freqs| < Uint32Modulus && numPoints < Uint32Modulus
    && (grouped ==> numPoints > 0)
    && (!grouped ==> numPoints == |freqs|)
    && (grouped && lo == hi ==> forall k :: 0 <= k < |freqs| ==> !InRange(freqs[k], lo, hi))
  }

  /** The state of the loop of src/output.c:158-177 after some data indices. */
  datatype Bins = Bins(column: map<nat, nat>, counts: seq<nat>, minIndex: nat, maxIndex: nat, target: nat)

  /** The column a kept index gets, given the counter left by the previous kept one. */
  function NextTarget(freqs: seq<real>, lo: nat, hi: nat, numPoints: nat, grouped: bool, i: nat, previous: nat): nat
    requires Configured(freqs, lo, hi, numPoints, grouped) && i < |freqs| && InRange(freqs[i], lo, hi)
  {
    if grouped then ColumnOf(freqs[i], lo, hi, numPoints) else (previous + 1) % Uint32Modulus
  }

  /**
   * The loop state after the data indices 0 .. i-1: the bin map, the per-column
   * counts, the smallest and largest kept index and the column counter
   * target_acc_index (starting at (unsigned) -1).
   */
  function BinsUpTo(freqs: seq<real>, lo: nat, hi: nat, numPoints: nat, grouped: bool, i: nat): (b: Bins)
    requires Configured(freqs, lo, hi, numPoints, grouped) && i <= |freqs|
    ensures |b.counts| == numPoints
    ensures b.target == Uint32Max <==> InRangeCount(freqs, lo, hi, i) == 0
    ensures b.target != Uint32Max ==> b.target < numPoints
    ensures !grouped && b.target != Uint32Max ==> b.target == InRangeCount(freqs, lo, hi, i) - 1
  {
    if i == 0 then InitialBins(|freqs|, numPoints)
    else
      var b := BinsUpTo(freqs, lo, hi, numPoints, grouped, i - 1);
      if !InRange(freqs[i - 1], lo, hi) then b
      else Keep(b, i - 1, NextTarget(freqs, lo, hi, numPoints, grouped, i - 1, b.target))
  }

  /**
   * Before the loop: an empty bin map, numPoints zero counts (calloc), the
   * index bounds at data_length and 0, the counter at (unsigned) -1.
   */
  function InitialBins(dataLength: nat, numPoints: nat): (b: Bins)
    ensures |b.counts| == numPoints && forall c :: 0 <= c < numPoints ==> b.counts[c] == 0
  {
    Bins(map[], seq(numPoints, _ => 0), dataLength, 0, Uint32Max)
  }

  /** Keeping data index i in column t (src/output.c:165-176). */
  function Keep(b: Bins, i: nat, t: nat): (b': Bins)
    requires t < |b.counts|
    ensures |b'.counts| == |b.counts|
  {
    Bins(b.column[i := t], b.counts[t := b.counts[t] + 1],
         if b.minIndex < i then b.minIndex else i,
         if b.maxIndex > i then b.maxIndex else i,
         t)
  }

  /** The bin map once every data index has been seen. */
  function FinalBins(freqs: seq<real>, lo: nat, hi: nat, numPoints: nat, grouped: bool): Bins
    requires Configured(freqs, lo, hi, numPoints, grouped)
  {
    BinsUpTo(freqs, lo, hi, numPoints, grouped, |freqs|)
  }

  /** num_points = target_acc_index + 1 (src/output.c:187), in unsigned arithmetic. */
  function DisplayedPoints(b: Bins): nat
  {
    (b.target + 1) % Uint32Modulus
  }

  /**
   * The loop of src/output.c:158-177, incrementing acc_buffer_data_count in place
   * (a calloc'ed array of numPoints counts).
   */
  method BuildBins(freqs: seq<real>, lo: nat, hi: nat, numPoints: nat, grouped: bool) returns (b: Bins)
    requires Configured(freqs, lo, hi, numPoints, grouped)
    ensures b == FinalBins(freqs, lo, hi, numPoints, grouped)
  {
    var counts := new nat[numPoints](_ => 0);
    var column: map<nat, nat> := map[];
    var minIndex: nat, maxIndex: nat, target: nat := |freqs|, 0, Uint32Max;
    var i := 0;
    assert counts[..] == seq(numPoints, _ => 0);
    while i < |freqs|
      invariant 0 <= i <= |freqs|
      invariant counts.Length == numPoints
      invariant var b := BinsUpTo(freqs, lo, hi, numPoints, grouped, i);
                column == b.column && counts[..] == b.counts && minIndex == b.minIndex
                && maxIndex == b.maxIndex && target == b.target
    {
      var freq := freqs[i];
      ghost var cur := BinsUpTo(freqs, lo, hi, numPoints, grouped, i);
      if InRange(freq, lo, hi) {
        KeptStep(freqs, lo, hi, numPoints, grouped, i);
        var t := if !grouped then (target + 1) % Uint32Modulus else ColumnOf(freq, lo, hi, numPoints);
        assert t == NextTarget(freqs, lo, hi, numPoints, grouped, i, cur.target);
        minIndex := if minIndex < i then minIndex else i;
        maxIndex := if maxIndex > i then maxIndex else i;
        column := column[i := t];
        counts[t] := counts[t] + 1;
        target := t;
        assert counts[..] == cur.counts[t := cur.counts[t] + 1];
        assert Bins(column, counts[..], minIndex, maxIndex, target) == Keep(cur, i, t);
      } else {
        SkippedStep(freqs, lo, hi, numPoints, grouped, i);
      }
      i := i + 1;
    }
    b := Bins(column, counts[..], minIndex, maxIndex, target);
  }

  /** An index out of [lo, hi] leaves the loop state as it was. */
  lemma SkippedStep(freqs: seq<real>, lo: nat, hi: nat, numPoints: nat, grouped: bool, i: nat)
    requires Configured(freqs, lo, hi, numPoints, grouped) && i < |freqs| && !InRange(freqs[i], lo, hi)
    ensures BinsUpTo(freqs, lo, hi, numPoints, grouped, i + 1) == BinsUpTo(freqs, lo, hi, numPoints, grouped, i)
  {
  }

  /** One kept index: the loop body of src/output.c:165-176 on the spec state. */
  lemma KeptStep(freqs: seq<real>, lo: nat, hi: nat, numPoints: nat, grouped: bool, i: nat)
    requires Configured(freqs, lo, hi, numPoints, grouped) && i < |freqs| && InRange(freqs[i], lo, hi)
    ensures var b := BinsUpTo(freqs, lo, hi, numPoints, grouped, i);
            var t := NextTarget(freqs, lo, hi, numPoints, grouped, i, b.target);
            && t < |b.counts|
            && BinsUpTo(freqs, lo, hi, numPoints, grouped, i + 1) == Keep(b, i, t)
  {
  }
}

module BinMapProperties {
  import opened CTypes
  import opened BinMap

  /** The bin map holds only indices already seen, each mapped to an existing column. */
  lemma {:induction false} ColumnBounds(freqs: seq<real>, lo: nat, hi: nat, numPoints: nat, grouped: bool, i: nat)
    requires Configured(freqs, lo, hi, numPoints, grouped) && i <= |freqs|
    ensures var b := BinsUpTo(freqs, lo, hi, numPoints, grouped, i);
            forall k :: k in b.column ==> k < i && b.column[k] < numPoints
  {
    if i > 0 {
      ColumnBounds(freqs, lo, hi, numPoints, grouped, i - 1);
      var b0 := BinsUpTo(freqs, lo, hi, numPoints, grouped, i - 1);
      if InRange(freqs[i - 1], lo, hi) {
        KeptStep(freqs, lo, hi, numPoints, grouped, i - 1);
        var t := NextTarget(freqs, lo, hi, numPoints, grouped, i - 1, b0.target);
        assert BinsUpTo(freqs, lo, hi, numPoints, grouped, i).column == b0.column[i - 1 := t];
      } else {
        SkippedStep(freqs, lo, hi, numPoints, grouped, i - 1);
      }
    }
  }

  /** An index is in the bin map exactly when its frequency is in [lo, hi]. */
  lemma {:induction false} KeptIffInRange(freqs: seq<real>, lo: nat, hi: nat, numPoints: nat, grouped: bool, i: nat)
    requires Configured(freqs, lo, hi, numPoints, grouped) && i <= |freqs|
    ensures forall k: nat :: k in BinsUpTo(freqs, lo, hi, numPoints, grouped, i).column <==> k < i && InRange(freqs[k], lo, hi)
  {
    if i > 0 {
      KeptIffInRange(freqs, lo, hi, numPoints, grouped, i - 1);
    }
  }

  /** With grouping, a kept index goes to the clamped scaled column of its frequency. */
  lemma {:induction false} GroupedColumns(freqs: seq<real>, lo: nat, hi: nat, numPoints: nat, i: nat)
    requires Configured(freqs, lo, hi, numPoints, true) && i <= |freqs|
    ensures forall k: nat :: k < i && InRange(freqs[k], lo, hi) ==>
              && k in BinsUpTo(freqs, lo, hi, numPoints, true, i).column
              && BinsUpTo(freqs, lo, hi, numPoints, true, i).column[k] == ColumnOf(freqs[k], lo, hi, numPoints)
  {
    if i > 0 {
      GroupedColumns(freqs, lo, hi, numPoints, i - 1);
    }
  }

  /**
   * Without grouping, the kept indices get the columns 0, 1, 2, ... in order
   * (the k-th kept index gets column k - 1), and every count is 1 up to the
   * number of kept indices and 0 after it.
   */
  lemma {:induction false} UngroupedColumns(freqs: seq<real>, lo: nat, hi: nat, i: nat)
    requires Configured(freqs, lo, hi, |freqs|, false) && i <= |freqs|
    ensures var b := BinsUpTo(freqs, lo, hi, |freqs|, false, i);
            && (forall k: nat :: k < i && InRange(freqs[k], lo, hi) ==>
                  k in b.column && b.column[k] == InRangeCount(freqs, lo, hi, k))
            && (forall c :: 0 <= c < |freqs| ==>
                  b.counts[c] == if c < InRangeCount(freqs, lo, hi, i) then 1 else 0)
  {
    if i > 0 {
      UngroupedColumns(freqs, lo, hi, i - 1);
    }
  }

  /**
   * min_data_index and max_data_index are the smallest and largest kept index;
   * with no kept index they keep their initial values data_length and 0. The
   * counter ends on the column of the largest kept index, which has a count.
   */
  ghost predicate IndexBounds(freqs: seq<real>, lo: nat, hi: nat, numPoints: nat, grouped: bool, i: nat)
    requires Configured(freqs, lo, hi, numPoints, grouped) && i <= |freqs|
  {
    var b := BinsUpTo(freqs, lo, hi, numPoints, grouped, i);
    && (InRangeCount(freqs, lo, hi, i) == 0 ==> b.column == map[] && b.minIndex == |freqs| && b.maxIndex == 0)
    && (InRangeCount(freqs, lo, hi, i) > 0 ==>
          && b.minIndex in b.column && b.maxIndex in b.column
          && (forall k :: k in b.column ==> b.minIndex <= k <= b.maxIndex)
          && b.target == b.column[b.maxIndex] && b.counts[b.target] > 0)
  }

  /** IndexBounds holds after every prefix of the data indices. */
  lemma {:induction false} DataIndexRange(freqs: seq<real>, lo: nat, hi: nat, numPoints: nat, grouped: bool, i: nat)
    requires Configured(freqs, lo, hi, numPoints, grouped) && i <= |freqs|
    ensures IndexBounds(freqs, lo, hi, numPoints, grouped, i)
  {
    if i > 0 {
      DataIndexRange(freqs, lo, hi, numPoints, grouped, i - 1);
      IndexBoundsStep(freqs, lo, hi, numPoints, grouped, i - 1);
    }
  }

  /** One more index keeps IndexBounds. */
  lemma IndexBoundsStep(freqs: seq<real>, lo: nat, hi: nat, numPoints: nat, grouped: bool, i: nat)
    requires Configured(freqs, lo, hi, numPoints, grouped) && i < |freqs|
    requires IndexBounds(freqs, lo, hi, numPoints, grouped, i)
    ensures IndexBounds(freqs, lo, hi, numPoints, grouped, i + 1)
  {
    ColumnBounds(freqs, lo, hi, numPoints, grouped, i);
    var b := BinsUpTo(freqs, lo, hi, numPoints, grouped, i);
    if InRange(freqs[i], lo, hi) {
      KeptStep(freqs, lo, hi, numPoints, grouped, i);
      var t := NextTarget(freqs, lo, hi, numPoints, grouped, i, b.target);
      var b' := Keep(b, i, t);
      assert b'.maxIndex == i && b'.column[i] == t && b'.counts[t] > 0;
      forall k | k in b'.column
        ensures b'.minIndex <= k <= b'.maxIndex
      {
        if k != i {
          assert k in b.column;
        }
      }
    } else {
      SkippedStep(freqs, lo, hi, numPoints, grouped, i);
    }
  }

  /** The sum of a sequence of counts. */
  function Sum(s: seq<nat>): nat
  {
    if s == [] then 0 else Sum(s[..|s| - 1]) + s[|s| - 1]
  }

  /** Incrementing one count increments the sum. */
  lemma {:induction false} SumIncrement(s: seq<nat>, t: nat)
    requires t < |s|
    ensures Sum(s[t := s[t] + 1]) == Sum(s) + 1
  {
    var s' := s[t := s[t] + 1];
    assert s'[..|s'| - 1] == if t < |s| - 1 then s[..|s| - 1][t := s[t] + 1] else s[..|s| - 1];
    if t < |s| - 1 {
      SumIncrement(s[..|s| - 1], t);
    }
  }

  /** The counts add up to the number of kept indices. */
  lemma {:induction false} CountsSum(freqs: seq<real>, lo: nat, hi: nat, numPoints: nat, grouped: bool, i: nat)
    requires Configured(freqs, lo, hi, numPoints, grouped) && i <= |freqs|
    ensures Sum(BinsUpTo(freqs, lo, hi, numPoints, grouped, i).counts) == InRangeCount(freqs, lo, hi, i)
  {
    if i == 0 {
      SumZero(InitialBins(|freqs|, numPoints).counts);
    } else {
      CountsSum(freqs, lo, hi, numPoints, grouped, i - 1);
      CountsStep(freqs, lo, hi, numPoints, grouped, i - 1);
    }
  }

  /** One more data index adds one to the counts exactly when it is kept. */
  lemma CountsStep(freqs: seq<real>, lo: nat, hi: nat, numPoints: nat, grouped: bool, i: nat)
    requires Configured(freqs, lo, hi, numPoints, grouped) && i < |freqs|
    ensures Sum(BinsUpTo(freqs, lo, hi, numPoints, grouped, i + 1).counts)
            == Sum(BinsUpTo(freqs, lo, hi, numPoints, grouped, i).counts) + (if InRange(freqs[i], lo, hi) then 1 else 0)
  {
    var b := BinsUpTo(freqs, lo, hi, numPoints, grouped, i);
    if InRange(freqs[i], lo, hi) {
      KeptStep(freqs, lo, hi, numPoints, grouped, i);
      var t := NextTarget(freqs, lo, hi, numPoints, grouped, i, b.target);
      SumIncrement(b.counts, t);
    } else {
      SkippedStep(freqs, lo, hi, numPoints, grouped, i);
    }
  }

  lemma {:induction false} SumZero(s: seq<nat>)
    requires forall k :: 0 <= k < |s| ==> s[k] == 0
    ensures Sum(s) == 0
  {
    if s != [] {
      SumZero(s[..|s| - 1]);
    }
  }

  /** The number of data indices in [start, stop) that the bin map sends to column c. */
  function ColumnCount(column: map<nat, nat>, c: nat, start: nat, stop: nat): nat
    decreases stop
  {
    if stop <= start then 0
    else ColumnCount(column, c, start, stop - 1) + (if stop - 1 in column && column[stop - 1] == c then 1 else 0)
  }

  /** ColumnCount only looks at the indices in [start, stop). */
  lemma {:induction false} ColumnCountFrame(m1: map<nat, nat>, m2: map<nat, nat>, c: nat, start: nat, stop: nat)
    requires forall k: nat :: start <= k < stop ==> (k in m1 <==> k in m2) && (k in m1 ==> m1[k] == m2[k])
    ensures ColumnCount(m1, c, start, stop) == ColumnCount(m2, c, start, stop)
    decreases stop
  {
    if stop > start {
      ColumnCountFrame(m1, m2, c, start, stop - 1);
    }
  }

  /** acc_buffer_data_count[c] is the number of data indices mapped to column c. */
  lemma {:induction false} CountIsColumnCount(freqs: seq<real>, lo: nat, hi: nat, numPoints: nat, grouped: bool, i: nat, c: nat)
    requires Configured(freqs, lo, hi, numPoints, grouped) && i <= |freqs| && c < numPoints
    ensures BinsUpTo(freqs, lo, hi, numPoints, grouped, i).counts[c]
         == ColumnCount(BinsUpTo(freqs, lo, hi, numPoints, grouped, i).column, c, 0, i)
  {
    if i > 0 {
      CountIsColumnCount(freqs, lo, hi, numPoints, grouped, i - 1, c);
      var b0 := BinsUpTo(freqs, lo, hi, numPoints, grouped, i - 1);
      var b := BinsUpTo(freqs, lo, hi, numPoints, grouped, i);
      ColumnCountFrame(b0.column, b.column, c, 0, i - 1);
      ColumnBounds(freqs, lo, hi, numPoints, grouped, i - 1);
      if InRange(freqs[i - 1], lo, hi) {
        KeptStep(freqs, lo, hi, numPoints, grouped, i - 1);
        var t := NextTarget(freqs, lo, hi, numPoints, grouped, i - 1, b0.target);
        assert b.column == b0.column[i - 1 := t];
        assert b.counts == b0.counts[t := b0.counts[t] + 1];
      } else {
        SkippedStep(freqs, lo, hi, numPoints, grouped, i - 1);
      }
    }
  }

  /** InRangeCount only grows. */
  lemma {:induction false} InRangeCountMonotone(freqs: seq<real>, lo: nat, hi: nat, i: nat, j: nat)
    requires i <= j <= |freqs|
    ensures InRangeCount(freqs, lo, hi, i) <= InRangeCount(freqs, lo, hi, j)
    decreases j
  {
    if i < j {
      InRangeCountMonotone(freqs, lo, hi, i, j - 1);
    }
  }

  /**
   * With ascending frequencies every data index between min_data_index and
   * max_data_index is in the bin map, so output_print never reads an unset entry.
   */
  lemma SortedKeptRangeContiguous(freqs: seq<real>, lo: nat, hi: nat, numPoints: nat, grouped: bool)
    requires Configured(freqs, lo, hi, numPoints, grouped) && Sorted(freqs) && |freqs| > 0
    ensures var b := FinalBins(freqs, lo, hi, numPoints, grouped);
            forall k :: b.minIndex <= k <= b.maxIndex ==> k in b.column
  {
    var b := FinalBins(freqs, lo, hi, numPoints, grouped);
    KeptIffInRange(freqs, lo, hi, numPoints, grouped, |freqs|);
    DataIndexRange(freqs, lo, hi, numPoints, grouped, |freqs|);
    if InRangeCount(freqs, lo, hi, |freqs|) > 0 {
      forall k | b.minIndex <= k <= b.maxIndex
        ensures k in b.column
      {
        var fMin, fK, fMax := freqs[b.minIndex], freqs[k], freqs[b.maxIndex];
        assert fMin <= fK;
        assert fK <= fMax;
        assert InRange(fK, lo, hi);
      }
    }
  }

  /**
   * The number of displayed columns, target_acc_index + 1 with the wrap-around of
   * unsigned arithmetic: 0 when no frequency is kept, otherwise one past the
   * column of the last kept index (at most the allocated numPoints), and the
   * number of kept indices without grouping.
   */
  lemma DisplayedPointsValue(freqs: seq<real>, lo: nat, hi: nat, numPoints: nat, grouped: bool)
    requires Configured(freqs, lo, hi, numPoints, grouped)
    ensures var b := FinalBins(freqs, lo, hi, numPoints, grouped);
            && (DisplayedPoints(b) == 0 <==> InRangeCount(freqs, lo, hi, |freqs|) == 0)
            && (InRangeCount(freqs, lo, hi, |freqs|) > 0 ==>
                  b.maxIndex in b.column && DisplayedPoints(b) == b.column[b.maxIndex] + 1 <= numPoints)
            && (!grouped ==> DisplayedPoints(b) == InRangeCount(freqs, lo, hi, |freqs|))
            && (DisplayedPoints(b) > 0 ==> b.counts[DisplayedPoints(b) - 1] > 0)
  {
    DataIndexRange(freqs, lo, hi, numPoints, grouped, |freqs|);
  }

  /**
   * With ascending frequencies every kept index lands in a displayed column:
   * the last kept index has the highest column.
   */
  lemma SortedColumnsDisplayed(freqs: seq<real>, lo: nat, hi: nat, numPoints: nat, grouped: bool)
    requires Configured(freqs, lo, hi, numPoints, grouped) && Sorted(freqs)
    ensures var b := FinalBins(freqs, lo, hi, numPoints, grouped);
            forall k :: k in b.column ==> b.column[k] < DisplayedPoints(b)
  {
    var b := FinalBins(freqs, lo, hi, numPoints, grouped);
    KeptIffInRange(freqs, lo, hi, numPoints, grouped, |freqs|);
    DataIndexRange(freqs, lo, hi, numPoints, grouped, |freqs|);
    DisplayedPointsValue(freqs, lo, hi, numPoints, grouped);
    forall k | k in b.column
      ensures b.column[k] < DisplayedPoints(b)
    {
      ColumnBelowLast(freqs, lo, hi, numPoints, grouped, k, b.maxIndex);
    }
  }

  /** A kept index has a column no higher than that of any later kept index. */
  lemma ColumnBelowLast(freqs: seq<real>, lo: nat, hi: nat, numPoints: nat, grouped: bool, k: nat, m: nat)
    requires Configured(freqs, lo, hi, numPoints, grouped) && Sorted(freqs)
    requires k <= m < |freqs| && InRange(freqs[k], lo, hi) && InRange(freqs[m], lo, hi)
    ensures var column := FinalBins(freqs, lo, hi, numPoints, grouped).column;
            k in column && m in column && column[k] <= column[m]
  {
    var n := |freqs|;
    if grouped {
      GroupedColumns(freqs, lo, hi, numPoints, n);
      ColumnMonotone(freqs[k], freqs[m], lo, hi, numPoints);
    } else {
      UngroupedColumns(freqs, lo, hi, n);
      InRangeCountMonotone(freqs, lo, hi, k, m);
    }
  }

  /** ColumnCount over adjacent ranges adds up. */
  lemma {:induction false} ColumnCountSplit(column: map<nat, nat>, c: nat, a: nat, m: nat, z: nat)
    requires a <= m <= z
    ensures ColumnCount(column, c, a, z) == ColumnCount(column, c, a, m) + ColumnCount(column, c, m, z)
    decreases z
  {
    if m < z {
      ColumnCountSplit(column, c, a, m, z - 1);
    }
  }

  /** Over a range holding no key of the bin map, no index is counted. */
  lemma {:induction false} ColumnCountEmpty(column: map<nat, nat>, c: nat, a: nat, z: nat)
    requires forall k: nat :: a <= k < z ==> k !in column
    ensures ColumnCount(column, c, a, z) == 0
    decreases z
  {
    if a < z {
      ColumnCountEmpty(column, c, a, z - 1);
    }
  }

  /**
   * Every contributor of a column lies in [min_data_index, max_data_index], the
   * range output_print walks, so the count of a column is the number of
   * indices in that range mapped to it.
   */
  lemma CountsOverDataRange(freqs: seq<real>, lo: nat, hi: nat, numPoints: nat, grouped: bool, c: nat)
    requires Configured(freqs, lo, hi, numPoints, grouped) && c < numPoints
    requires InRangeCount(freqs, lo, hi, |freqs|) > 0
    ensures var b := FinalBins(freqs, lo, hi, numPoints, grouped);
            b.counts[c] == ColumnCount(b.column, c, b.minIndex, b.maxIndex + 1)
  {
    var n := |freqs|;
    var b := FinalBins(freqs, lo, hi, numPoints, grouped);
    DataIndexRange(freqs, lo, hi, numPoints, grouped, n);
    CountIsColumnCount(freqs, lo, hi, numPoints, grouped, n, c);
    ColumnBounds(freqs, lo, hi, numPoints, grouped, n);
    ColumnCountSplit(b.column, c, 0, b.minIndex, n);
    ColumnCountSplit(b.column, c, b.minIndex, b.maxIndex + 1, n);
    ColumnCountEmpty(b.column, c, 0, b.minIndex);
    ColumnCountEmpty(b.column, c, b.maxIndex + 1, n);
  }

  /**
   * What output_print relies on, for ascending frequencies: the displayed
   * columns fit the allocation, every index of [min_data_index,
   * max_data_index] has a displayed column, the last displayed column has a
   * contributor, and each count is the number of indices of that range mapped
   * to its column.
   */
  lemma DisplayedBins(freqs: seq<real>, lo: nat, hi: nat, numPoints: nat, grouped: bool)
    requires Configured(freqs, lo, hi, numPoints, grouped) && Sorted(freqs)
    ensures var b := FinalBins(freqs, lo, hi, numPoints, grouped);
            var d := DisplayedPoints(b);
            && d <= numPoints
            && (d > 0 ==>
                  && b.minIndex <= b.maxIndex < |freqs|
                  && (forall k: nat :: b.minIndex <= k < b.maxIndex + 1 ==> k in b.column && b.column[k] < d)
                  && b.counts[d - 1] > 0)
            && (forall c :: 0 <= c < d ==> b.counts[c] == ColumnCount(b.column, c, b.minIndex, b.maxIndex + 1))
  {
    var n := |freqs|;
    var b := FinalBins(freqs, lo, hi, numPoints, grouped);
    var d := DisplayedPoints(b);
    DisplayedPointsValue(freqs, lo, hi, numPoints, grouped);
    if d > 0 {
      ColumnBounds(freqs, lo, hi, numPoints, grouped, n);
      assert forall k :: k in BinsUpTo(freqs, lo, hi, numPoints, grouped, n).column ==> k < n;
      DataIndexRange(freqs, lo, hi, numPoints, grouped, n);
      assert InRangeCount(freqs, lo, hi, n) > 0;
      var last := BinsUpTo(freqs, lo, hi, numPoints, grouped, n);
      assert last.maxIndex in last.column && last.minIndex in last.column;
      assert last.maxIndex < n;
      assert last.minIndex <= last.maxIndex;
      SortedKeptRangeContiguous(freqs, lo, hi, numPoints, grouped);
      SortedColumnsDisplayed(freqs, lo, hi, numPoints, grouped);
      forall c | 0 <= c < d
        ensures b.counts[c] == ColumnCount(b.column, c, b.minIndex, b.maxIndex + 1)
      {
        CountsOverDataRange(freqs, lo, hi, numPoints, grouped, c);
      }
    }
  }
}
