/**
 * What the frame functions of Render mean: each reducer against an
 * independent description of a column's contributions, the smoothing loop
 * against the values it leaves and the extremes it tracks, the adaptive
 * limits' order, and the quantisation buckets.
 */
module RenderProperties {
  import opened Wrappers
  import opened CTypes
  import opened BinMap
  import opened BinMapProperties
  import opened Glyphs
  import opened Render

  // ---------------------------------------------------------------- reducers

  /** m is the largest of 0 and the values of s. */
  ghost predicate MaxWithZero(m: real, s: seq<real>)
  {
    && m >= 0.0
    && (forall x :: x in s ==> x <= m)
    && (m == 0.0 || m in s)
  }

  /** With the max reducer a column ends at the largest of 0 and its contributions. */
  lemma {:induction false} MaxReducer(values: seq<real>, column: map<nat, nat>, numPoints: nat,
                                      minIndex: nat, i: nat, c: nat)
    requires minIndex <= i <= |values| && MappedBelow(column, minIndex, i, numPoints) && c < numPoints
    ensures MaxWithZero(AccUpTo(MaxGroupingFunc, values, column, numPoints, minIndex, i)[c],
                        Contributions(values, column, c, minIndex, i))
  {
    if i > minIndex {
      MaxReducer(values, column, numPoints, minIndex, i - 1, c);
      var s := Contributions(values, column, c, minIndex, i - 1);
      var acc := AccUpTo(MaxGroupingFunc, values, column, numPoints, minIndex, i - 1);
      var v := values[i - 1];
      if column[i - 1] == c {
        assert AccUpTo(MaxGroupingFunc, values, column, numPoints, minIndex, i)[c] == Max(acc[c], v);
        assert Contributions(values, column, c, minIndex, i) == s + [v];
        assert forall x :: x in s + [v] ==> x in s || x == v;
        assert acc[c] in s ==> acc[c] in s + [v];
      } else {
        assert AccUpTo(MaxGroupingFunc, values, column, numPoints, minIndex, i)[c] == acc[c];
        assert Contributions(values, column, c, minIndex, i) == s;
      }
    }
  }

  /** With the average reducer a column first holds the sum of its contributions. */
  lemma {:induction false} SumReducer(values: seq<real>, column: map<nat, nat>, numPoints: nat,
                                      minIndex: nat, i: nat, c: nat)
    requires minIndex <= i <= |values| && MappedBelow(column, minIndex, i, numPoints) && c < numPoints
    ensures AccUpTo(AvgGroupingFunc, values, column, numPoints, minIndex, i)[c]
         == SumReal(Contributions(values, column, c, minIndex, i))
  {
    if i > minIndex {
      SumReducer(values, column, numPoints, minIndex, i - 1, c);
      var s := Contributions(values, column, c, minIndex, i - 1);
      var acc := AccUpTo(AvgGroupingFunc, values, column, numPoints, minIndex, i - 1);
      var v := values[i - 1];
      if column[i - 1] == c {
        assert AccUpTo(AvgGroupingFunc, values, column, numPoints, minIndex, i)[c] == acc[c] + v;
        assert Contributions(values, column, c, minIndex, i) == s + [v];
        assert (s + [v])[..|s|] == s;
      } else {
        assert AccUpTo(AvgGroupingFunc, values, column, numPoints, minIndex, i)[c] == acc[c];
        assert Contributions(values, column, c, minIndex, i) == s;
      }
    }
  }

  /** The last value of a sequence, 0 for the empty one. */
  function LastOrZero(s: seq<real>): real
  {
    if s == [] then 0.0 else s[|s| - 1]
  }

  /** Without a reducer the last contribution wins, and a column nobody writes stays 0. */
  lemma {:induction false} LastWins(values: seq<real>, column: map<nat, nat>, numPoints: nat,
                                    minIndex: nat, i: nat, c: nat)
    requires minIndex <= i <= |values| && MappedBelow(column, minIndex, i, numPoints) && c < numPoints
    ensures AccUpTo(NoGroupingFunc, values, column, numPoints, minIndex, i)[c]
         == LastOrZero(Contributions(values, column, c, minIndex, i))
  {
    if i > minIndex {
      LastWins(values, column, numPoints, minIndex, i - 1, c);
    }
  }

  /** A column has as many contributions as data indices mapped to it. */
  lemma {:induction false} ContributionCount(values: seq<real>, column: map<nat, nat>, c: nat, a: nat, b: nat)
    requires a <= b <= |values| && forall k: nat :: a <= k < b ==> k in column
    ensures |Contributions(values, column, c, a, b)| == ColumnCount(column, c, a, b)
  {
    if b > a {
      ContributionCount(values, column, c, a, b - 1);
    }
  }

  /** The arithmetic mean of a sequence, 0 for the empty one. */
  function Mean(s: seq<real>): real
  {
    if s == [] then 0.0 else SumReal(s) / |s| as real
  }

  /**
   * With the average reducer and the factors 1/count, a populated column gets
   * the mean of its contributions and an empty one gets 0.
   */
  lemma AverageIsMean(values: seq<real>, column: map<nat, nat>, counts: seq<nat>, avgFactors: seq<real>,
                      numPoints: nat, minIndex: nat, maxIndex: nat, c: nat)
    requires minIndex <= maxIndex < |values| && MappedBelow(column, minIndex, maxIndex + 1, numPoints)
    requires numPoints <= |avgFactors| && numPoints <= |counts| && c < numPoints
    requires avgFactors[c] == AvgFactor(counts[c])
    requires counts[c] == ColumnCount(column, c, minIndex, maxIndex + 1)
    ensures |Contributions(values, column, c, minIndex, maxIndex + 1)| == counts[c]
    ensures Reduced(AvgGroupingFunc, values, column, avgFactors, numPoints, minIndex, maxIndex)[c]
         == Mean(Contributions(values, column, c, minIndex, maxIndex + 1))
  {
    var s := Contributions(values, column, c, minIndex, maxIndex + 1);
    ContributionCount(values, column, c, minIndex, maxIndex + 1);
    ScaledSum(values, column, avgFactors, numPoints, minIndex, maxIndex, c);
    MeanOfScaled(s, avgFactors[c]);
  }

  /** The sum of a sequence times the factor of its length is its mean. */
  lemma MeanOfScaled(s: seq<real>, factor: real)
    requires factor == AvgFactor(|s|)
    ensures SumReal(s) * factor == Mean(s)
  {
    TimesInverse(SumReal(s), |s|);
  }

  /** The average reducer leaves a column's sum times its factor. */
  lemma ScaledSum(values: seq<real>, column: map<nat, nat>, avgFactors: seq<real>,
                  numPoints: nat, minIndex: nat, maxIndex: nat, c: nat)
    requires minIndex <= maxIndex < |values| && MappedBelow(column, minIndex, maxIndex + 1, numPoints)
    requires numPoints <= |avgFactors| && c < numPoints
    ensures Reduced(AvgGroupingFunc, values, column, avgFactors, numPoints, minIndex, maxIndex)[c]
         == SumReal(Contributions(values, column, c, minIndex, maxIndex + 1)) * avgFactors[c]
  {
    SumReducer(values, column, numPoints, minIndex, maxIndex + 1, c);
  }

  /** Multiplying by the factor of a count divides by that count; the factor of 0 gives 0. */
  lemma TimesInverse(x: real, n: nat)
    ensures x * AvgFactor(n) == if n == 0 then 0.0 else x / n as real
  {
  }

  // ---------------------------------------------------------------- smoothing

  /** The smoothing loop's arguments, so that the lemmas below can be stated briefly. */
  ghost predicate SmoothArgs(prev: seq<real>, acc: seq<real>, counts: seq<nat>, i: nat)
  {
    i <= |acc| <= |prev| && |acc| <= |counts|
  }

  /** The buffer as the smoothing loop leaves it after the columns 0 .. i-1 (see SmoothedValues). */
  ghost predicate SmoothedBuffer(prev: seq<real>, acc: seq<real>, counts: seq<nat>,
                                 oldFactor: real, newFactor: real, i: nat, buf: seq<real>)
    requires SmoothArgs(prev, acc, counts, i) && |buf| == |prev|
  {
    && (forall j :: 0 <= j < i && counts[j] > 0 ==> buf[j] == Blend(prev[j], acc[j], oldFactor, newFactor))
    && (forall j :: 0 < j < i && counts[j] == 0 ==> buf[j] == buf[j - 1])
    && (0 < i && counts[0] == 0 ==> buf[0] == prev[0])
    && (forall j :: i <= j < |prev| ==> buf[j] == prev[j])
  }

  /**
   * What the smoothing loop leaves in the buffer: a populated column gets the
   * blend of its old value and its accumulated value, an unpopulated column
   * j > 0 copies the column before it (already updated), an unpopulated
   * column 0 and the columns not yet reached keep their old value.
   */
  lemma {:induction false} SmoothedValues(prev: seq<real>, acc: seq<real>, counts: seq<nat>,
                                          oldFactor: real, newFactor: real, i: nat)
    requires SmoothArgs(prev, acc, counts, i)
    ensures SmoothedBuffer(prev, acc, counts, oldFactor, newFactor, i,
                           SmoothUpTo(prev, acc, counts, oldFactor, newFactor, i).buf)
  {
    if i > 0 {
      SmoothedValues(prev, acc, counts, oldFactor, newFactor, i - 1);
    }
  }

  /** Every value is at least 0. */
  ghost predicate NonNegative(s: seq<real>)
  {
    forall j :: 0 <= j < |s| ==> s[j] >= 0.0
  }

  /** Smoothing keeps the buffer non-negative. */
  lemma {:induction false} SmoothedNonNegative(prev: seq<real>, acc: seq<real>, counts: seq<nat>,
                                               oldFactor: real, newFactor: real, i: nat)
    requires SmoothArgs(prev, acc, counts, i)
    requires NonNegative(prev)
    ensures NonNegative(SmoothUpTo(prev, acc, counts, oldFactor, newFactor, i).buf)
  {
    if i > 0 {
      SmoothedNonNegative(prev, acc, counts, oldFactor, newFactor, i - 1);
      var buf := SmoothUpTo(prev, acc, counts, oldFactor, newFactor, i - 1).buf;
      var j := i - 1;
      if counts[j] > 0 {
        var v := Blend(buf[j], acc[j], oldFactor, newFactor);
        assert SmoothUpTo(prev, acc, counts, oldFactor, newFactor, i).buf == buf[j := v];
      } else if j > 0 {
        assert SmoothUpTo(prev, acc, counts, oldFactor, newFactor, i).buf == buf[j := buf[j - 1]];
      }
    }
  }

  /** Some column below i receives a contribution this frame. */
  ghost predicate SomePopulated(counts: seq<nat>, i: nat)
    requires i <= |counts|
  {
    exists j :: 0 <= j < i && counts[j] > 0
  }

  /** local_min over the populated columns below i; None stands for INFINITY. */
  ghost predicate MinTracked(s: SmoothState, counts: seq<nat>, i: nat)
    requires i <= |s.buf| && i <= |counts|
  {
    && (s.localMin.None? <==> !SomePopulated(counts, i))
    && (s.localMin.Some? ==>
          && (forall j :: 0 <= j < i && counts[j] > 0 ==> s.localMin.value <= s.buf[j])
          && (exists j :: 0 <= j < i && counts[j] > 0 && s.localMin.value == s.buf[j]))
  }

  /** local_max: the largest of 0 and the new values of the populated columns below i. */
  ghost predicate MaxTracked(s: SmoothState, counts: seq<nat>, i: nat)
    requires i <= |s.buf| && i <= |counts|
  {
    && s.localMax >= 0.0
    && (forall j :: 0 <= j < i && counts[j] > 0 ==> s.buf[j] <= s.localMax)
    && (s.localMax == 0.0 || exists j :: 0 <= j < i && counts[j] > 0 && s.localMax == s.buf[j])
  }

  /**
   * local_min is the smallest of the new values of the populated columns, and
   * stays INFINITY when no column is populated.
   */
  lemma {:induction false} LocalMin(prev: seq<real>, acc: seq<real>, counts: seq<nat>,
                                    oldFactor: real, newFactor: real, i: nat)
    requires SmoothArgs(prev, acc, counts, i)
    ensures MinTracked(SmoothUpTo(prev, acc, counts, oldFactor, newFactor, i), counts, i)
  {
    if i > 0 {
      LocalMin(prev, acc, counts, oldFactor, newFactor, i - 1);
      var s0 := SmoothUpTo(prev, acc, counts, oldFactor, newFactor, i - 1);
      var s := SmoothUpTo(prev, acc, counts, oldFactor, newFactor, i);
      var j := i - 1;
      assert forall k :: 0 <= k < j ==> s.buf[k] == s0.buf[k];
      if counts[j] > 0 {
        assert SomePopulated(counts, i);
      } else if SomePopulated(counts, i) {
        var k :| 0 <= k < i && counts[k] > 0;
        assert SomePopulated(counts, i - 1);
      }
    }
  }

  /** local_max is the largest of 0 and the new values of the populated columns. */
  lemma {:induction false} LocalMax(prev: seq<real>, acc: seq<real>, counts: seq<nat>,
                                    oldFactor: real, newFactor: real, i: nat)
    requires SmoothArgs(prev, acc, counts, i)
    ensures MaxTracked(SmoothUpTo(prev, acc, counts, oldFactor, newFactor, i), counts, i)
  {
    if i > 0 {
      LocalMax(prev, acc, counts, oldFactor, newFactor, i - 1);
      var s0 := SmoothUpTo(prev, acc, counts, oldFactor, newFactor, i - 1);
      var s := SmoothUpTo(prev, acc, counts, oldFactor, newFactor, i);
      assert forall k :: 0 <= k < i - 1 ==> s.buf[k] == s0.buf[k];
    }
  }

  /** The new values are non-negative, so local_min is too, and it is at most local_max. */
  lemma LocalMinBelowMax(prev: seq<real>, acc: seq<real>, counts: seq<nat>,
                         oldFactor: real, newFactor: real, i: nat)
    requires SmoothArgs(prev, acc, counts, i)
    ensures var s := SmoothUpTo(prev, acc, counts, oldFactor, newFactor, i);
            s.localMin.Some? ==> 0.0 <= s.localMin.value <= s.localMax
  {
    var s := SmoothUpTo(prev, acc, counts, oldFactor, newFactor, i);
    LocalMin(prev, acc, counts, oldFactor, newFactor, i);
    LocalMax(prev, acc, counts, oldFactor, newFactor, i);
    SmoothedValues(prev, acc, counts, oldFactor, newFactor, i);
    if s.localMin.Some? {
      var j :| 0 <= j < i && counts[j] > 0 && s.localMin.value == s.buf[j];
      assert s.buf[j] == Blend(prev[j], acc[j], oldFactor, newFactor);
    }
  }

  /** Factors as output_set_smoothing_factors leaves them: in [0, 1], old = 1 - new. */
  ghost predicate FactorPair(oldFactor: real, newFactor: real)
  {
    0.0 <= newFactor <= 1.0 && oldFactor == 1.0 - newFactor
  }

  /**
   * Blending keeps the adaptive limits ordered and non-negative: from
   * 0 <= min <= max and 0 <= local_min <= local_max, the new limits again
   * satisfy 0 <= min <= max.
   */
  lemma LimitsStayOrdered(minLimit: real, maxLimit: real, localMin: real, localMax: real,
                          oldLimitFactor: real, newLimitFactor: real)
    requires 0.0 <= minLimit <= maxLimit && 0.0 <= localMin <= localMax
    requires 0.0 <= oldLimitFactor && 0.0 <= newLimitFactor
    ensures 0.0 <= BlendLimit(minLimit, localMin, oldLimitFactor, newLimitFactor)
                <= BlendLimit(maxLimit, localMax, oldLimitFactor, newLimitFactor)
  {
    ScaleNonNegative(minLimit, oldLimitFactor);
    ScaleMonotone(minLimit, maxLimit, oldLimitFactor);
    ScaleNonNegative(localMin, newLimitFactor);
    ScaleMonotone(localMin, localMax, newLimitFactor);
  }

  /** A product of non-negative reals is non-negative. */
  lemma ScaleNonNegative(a: real, f: real)
    requires a >= 0.0 && f >= 0.0
    ensures a * f >= 0.0
  {
  }

  /** Scaling by a non-negative factor keeps order. */
  lemma ScaleMonotone(a: real, b: real, f: real)
    requires a <= b && f >= 0.0
    ensures a * f <= b * f
  {
    assert b * f - a * f == (b - a) * f;
  }

  // ---------------------------------------------------------------- quantisation

  /**
   * The quantisation buckets: with x = level * lineal * levels, the sub-level
   * q satisfies q <= x < q + 1, except that everything below 1 maps to 0 and
   * everything from levels - 1 on maps to levels - 1.
   */
  lemma QuantiseBuckets(level: real, lineal: real, levels: nat)
    requires levels >= 1
    ensures var x := level * lineal * levels as real;
            var q := Quantise(level, lineal, levels);
            && (q > 0 ==> q as real <= x)
            && (q < levels - 1 ==> x < (q + 1) as real)
  {
  }

  /** A higher value never gets a lower sub-level. */
  lemma QuantiseMonotone(x1: real, x2: real, lineal: real, levels: nat)
    requires levels >= 1 && lineal >= 0.0 && x1 <= x2
    ensures Quantise(x1, lineal, levels) <= Quantise(x2, lineal, levels)
  {
    var y1, y2 := x1 * lineal * levels as real, x2 * lineal * levels as real;
    assert x1 * lineal <= x2 * lineal;
    assert y1 <= y2;
    assert Trunc(y1) <= Trunc(y2);
  }

  /** Two sub-columns pack as left * levels + right: the left level picks the row of the table. */
  lemma PackTwo(left: nat, right: nat, levels: nat)
    requires left < levels && right < levels
    ensures PackIndex([left, right], levels) == left * levels + right
  {
    assert [left, right][..1] == [left];
    assert [left][..0] == [];
  }

  // ---------------------------------------------------------------- the terminating NUL

  /**
   * output_print stores the NUL at the index of the last glyph it wrote, so
   * the line it returns lacks the glyph of the last group and is one
   * character shorter than the silence line of the same frame.
   */
  lemma NulOverwritesLastGlyph(src: seq<real>, numPoints: nat, sc: Scaling, a: Alphabet, text: seq<char>)
    requires numPoints <= |src| && 0 < numPoints < Uint32Modulus && PositiveFunction(sc.exp) && WellFormed(a)
    ensures var n := NumChars(numPoints, a.pointsPerChar);
            var full := GlyphLine(src, numPoints, sc, a);
            && 0 < n < Uint32Modulus
            && |full[..NulIndex(n)]| + 1 == |SilenceLine(text, n)|
            && full[..NulIndex(n)] + [GlyphAt(src, n - 1, numPoints, sc, a)] == full
  {
    var n := NumChars(numPoints, a.pointsPerChar);
    NumCharsAtMostPoints(numPoints, a.pointsPerChar);
    var full := GlyphLine(src, numPoints, sc, a);
    assert full[..n - 1] + [full[n - 1]] == full;
  }

  /** A frame of one column prints as the empty line, next to a one-character silence line. */
  lemma SingleColumnPrintsNothing(src: seq<real>, sc: Scaling, a: Alphabet, text: seq<char>)
    requires 1 <= |src| && PositiveFunction(sc.exp) && WellFormed(a)
    ensures var n := NumChars(1, a.pointsPerChar);
            && n == 1
            && GlyphLine(src, 1, sc, a)[..NulIndex(n)] == []
            && |SilenceLine(text, n)| == 1
  {
    NulOverwritesLastGlyph(src, 1, sc, a, text);
  }

  /**
   * With no columns (no frequency inside the window) no glyph is written and
   * the NUL goes to index 2^32 - 1, past the end of every line buffer the
   * context can allocate.
   */
  lemma EmptyFrameNulOutOfBounds(capacity: nat, pointsPerChar: nat)
    requires pointsPerChar >= 1 && capacity < Uint32Max
    ensures NumChars(0, pointsPerChar) == 0
    ensures NulIndex(NumChars(0, pointsPerChar)) >= capacity + 1
  {
  }
}
