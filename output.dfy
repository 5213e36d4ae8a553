/**
 * The renderer's context (struct output_context, src/output.c:64-96) and its
 * operations: output_init, the output_set_* setters, the silence buffer and
 * output_print. The buffers the C code allocates are arrays of the length the
 * caller asked for; the bin map and the per-column counts, which only
 * output_init writes, are constants.
 */
module Output {
  import opened Wrappers
  import opened Glyphs
  import opened CTypes
  import opened BinMap
  import opened BinMapProperties
  import opened Render
  import opened RenderProperties

  /** The charset output_set_charset leaves in place before the caller chooses one. */
  const DefaultCharset := Bars

  /** The factors output_init passes to output_set_smoothing_factors. */
  const DefaultFactor := 0.5

  /** Factors clamped into [0, 1] as output_set_smoothing_factors does (src/output.c:252-253). */
  function ClampUnit(x: real): (r: real)
    ensures 0.0 <= r <= 1.0
    ensures 0.0 <= x <= 1.0 ==> r == x
    ensures x < 0.0 ==> r == 0.0
    ensures x > 1.0 ==> r == 1.0
  {
    Max(Min(x, 1.0), 0.0)
  }

  /** A function that never decreases (log is one). */
  ghost predicate Increasing(f: real -> real)
  {
    forall x, y :: x <= y ==> f(x) <= f(y)
  }

  /** Every element mapped through f, as the log loop of src/output.c:121-124 leaves the array. */
  function MapAll(f: real -> real, s: seq<real>): (r: seq<real>)
    ensures |r| == |s| && forall k :: 0 <= k < |s| ==> r[k] == f(s[k])
  {
    seq(|s|, k requires 0 <= k < |s| => f(s[k]))
  }

  /** The values with f applied to the indices a .. b (the transform loop of src/output.c:283-285). */
  function MapRange(f: real -> real, s: seq<real>, a: nat, b: nat): (r: seq<real>)
    ensures |r| == |s|
    ensures forall k :: 0 <= k < |s| ==> r[k] == if a <= k <= b then f(s[k]) else s[k]
  {
    seq(|s|, k requires 0 <= k < |s| => if a <= k <= b then f(s[k]) else s[k])
  }

  /** A non-decreasing function keeps a sequence sorted. */
  lemma MapKeepsSorted(f: real -> real, s: seq<real>)
    requires Increasing(f) && Sorted(s)
    ensures Sorted(MapAll(f, s))
  {
    var r := MapAll(f, s);
    forall i, j | 0 <= i <= j < |r|
      ensures r[i] <= r[j]
    {
      assert s[i] <= s[j];
    }
  }

  /** The window bound output_init compares against: log(bound) truncated to unsigned under log grouping. */
  function WindowBound(bound: nat, g: Grouping, ln: real -> real): nat
    requires g == LogaritmicGrouping ==> 0.0 <= ln(bound as real)
  {
    if g == LogaritmicGrouping then ln(bound as real).Floor else bound
  }

  /** The frequencies the bin map is built from. */
  function GroupedFreqs(freqs: seq<real>, g: Grouping, ln: real -> real): (r: seq<real>)
    ensures |r| == |freqs|
  {
    if g == LogaritmicGrouping then MapAll(ln, freqs) else freqs
  }

  /** The number of columns the buffers are sized for: data_length without grouping. */
  function Capacity(requested: nat, g: Grouping, dataLength: nat): nat
  {
    if g == NoGrouping then dataLength else requested
  }

  /**
   * What output_init needs of its arguments: unsigned sizes, ascending
   * frequencies (the assumption of src/output.c:160), at least one column
   * when grouping, a truncated log window inside unsigned range, and no
   * 0/0 column (a kept frequency on an empty window).
   */
  ghost predicate InitArgs(freqs: seq<real>, minFreq: nat, maxFreq: nat, requested: nat,
                           group: Grouping, groupFunc: GroupingFunc, ln: real -> real)
  {
    var g := EffectiveGrouping(group, groupFunc);
    && |freqs| < Uint32Modulus && requested < Uint32Modulus
    && minFreq < Uint32Modulus && maxFreq < Uint32Modulus
    && Sorted(freqs)
    && (g == LogaritmicGrouping ==>
          && Increasing(ln)
          && 0.0 <= ln(minFreq as real) < Uint32Modulus as real
          && 0.0 <= ln(maxFreq as real) < Uint32Modulus as real)
    && (g != NoGrouping ==> requested > 0)
    && (g != NoGrouping && WindowBound(minFreq, g, ln) == WindowBound(maxFreq, g, ln) ==>
          forall k :: 0 <= k < |freqs| ==>
            !InRange(GroupedFreqs(freqs, g, ln)[k], WindowBound(minFreq, g, ln), WindowBound(maxFreq, g, ln)))
  }

  /** The string the silence line is built from: the provided one, or silence_str when it is NULL. */
  function SilenceSource(provided: Option<seq<char>>): seq<char>
  {
    if provided.Some? then provided.value else DefaultSilenceStr
  }

  /** The log loop of src/output.c:123-125: f on every element. */
  method ApplyAll(a: array<real>, f: real -> real)
    modifies a
    ensures a[..] == MapAll(f, old(a[..]))
  {
    for i := 0 to a.Length
      invariant forall k :: 0 <= k < i ==> a[k] == f(old(a[k]))
      invariant forall k :: i <= k < a.Length ==> a[k] == old(a[k])
    {
      a[i] := f(a[i]);
    }
  }

  /** The transform loop of src/output.c:283-285: f on the indices lo .. hi only. */
  method ApplyRange(a: array<real>, f: real -> real, lo: nat, hi: nat)
    requires lo <= hi < a.Length
    modifies a
    ensures a[..] == MapRange(f, old(a[..]), lo, hi)
  {
    for i := lo to hi + 1
      invariant forall k :: 0 <= k < a.Length ==> a[k] == if lo <= k < i then f(old(a[k])) else old(a[k])
    {
      a[i] := f(a[i]);
    }
  }

  /** The loop of src/output.c:179-185 over the per-column counts. */
  method AvgFactorsOf(counts: seq<nat>) returns (factors: seq<real>)
    ensures |factors| == |counts| && forall c :: 0 <= c < |counts| ==> factors[c] == AvgFactor(counts[c])
  {
    var a := new real[|counts|];
    for i := 0 to |counts|
      invariant forall c :: 0 <= c < i ==> a[c] == AvgFactor(counts[c])
    {
      if counts[i] > 0 {
        a[i] := 1.0 / counts[i] as real;
      } else {
        a[i] := 0.0;
      }
    }
    factors := a[..];
  }

  /**
   * The bin map facts output_print relies on: the displayed columns fit the
   * allocation, every index of [minIndex, maxIndex] has a displayed column,
   * the last displayed column has a contributor, and every count is the number
   * of indices of that range mapped to its column, with its average factor.
   */
  ghost predicate BinsUsable(column: map<nat, nat>, counts: seq<nat>, avgFactors: seq<real>,
                             minIndex: nat, maxIndex: nat, numPoints: nat, dataLength: nat)
  {
    && |avgFactors| == |counts| && numPoints <= |counts| && numPoints < Uint32Modulus
    && (numPoints > 0 ==>
          && minIndex <= maxIndex < dataLength
          && MappedBelow(column, minIndex, maxIndex + 1, numPoints)
          && counts[numPoints - 1] > 0)
    && (forall c :: 0 <= c < numPoints ==> counts[c] == ColumnCount(column, c, minIndex, maxIndex + 1))
    && (forall c :: 0 <= c < |counts| ==> avgFactors[c] == AvgFactor(counts[c]))
  }

  /** What InitArgs gives the bin map: a configuration BuildBins accepts, on ascending frequencies. */
  lemma InitConfigured(freqs: seq<real>, minFreq: nat, maxFreq: nat, requested: nat,
                       group: Grouping, groupFunc: GroupingFunc, ln: real -> real)
    requires InitArgs(freqs, minFreq, maxFreq, requested, group, groupFunc, ln)
    ensures var g := EffectiveGrouping(group, groupFunc);
            var f := GroupedFreqs(freqs, g, ln);
            && Configured(f, WindowBound(minFreq, g, ln), WindowBound(maxFreq, g, ln),
                          Capacity(requested, g, |freqs|), g != NoGrouping)
            && Sorted(f)
  {
    if EffectiveGrouping(group, groupFunc) == LogaritmicGrouping {
      MapKeepsSorted(ln, freqs);
    }
  }

  /**
   * The first half of output_init (src/output.c:116-185): the effective
   * grouping, the logarithm of the frequencies under logarithmic grouping,
   * the bin map loop and the average factors.
   */
  method BinFrequencies(freqs: array<real>, minFreq: nat, maxFreq: nat, requested: nat,
                        group: Grouping, groupFunc: GroupingFunc, ln: real -> real)
    returns (b: Bins, factors: seq<real>)
    requires InitArgs(freqs[..], minFreq, maxFreq, requested, group, groupFunc, ln)
    modifies freqs
    ensures var g := EffectiveGrouping(group, groupFunc);
            var lo, hi := WindowBound(minFreq, g, ln), WindowBound(maxFreq, g, ln);
            var np := Capacity(requested, g, freqs.Length);
            && freqs[..] == GroupedFreqs(old(freqs[..]), g, ln)
            && Configured(freqs[..], lo, hi, np, g != NoGrouping) && Sorted(freqs[..])
            && b == FinalBins(freqs[..], lo, hi, np, g != NoGrouping)
    ensures BinsUsable(b.column, b.counts, factors, b.minIndex, b.maxIndex, DisplayedPoints(b), freqs.Length)
  {
    var g := EffectiveGrouping(group, groupFunc);
    InitConfigured(freqs[..], minFreq, maxFreq, requested, group, groupFunc, ln);
    var lo, hi := WindowBound(minFreq, g, ln), WindowBound(maxFreq, g, ln);
    var np := Capacity(requested, g, freqs.Length);
    if g == LogaritmicGrouping {
      ApplyAll(freqs, ln);
    }
    var fs := freqs[..];
    b := BuildBins(fs, lo, hi, np, g != NoGrouping);
    factors := AvgFactorsOf(b.counts);
    UsableBins(fs, lo, hi, np, g != NoGrouping, factors);
  }

  /** The finished bins over ascending frequencies, with their average factors, are what output_print relies on. */
  lemma UsableBins(freqs: seq<real>, lo: nat, hi: nat, np: nat, grouped: bool, factors: seq<real>)
    requires Configured(freqs, lo, hi, np, grouped) && Sorted(freqs)
    requires var b := FinalBins(freqs, lo, hi, np, grouped);
             |factors| == |b.counts| && forall c :: 0 <= c < |b.counts| ==> factors[c] == AvgFactor(b.counts[c])
    ensures var b := FinalBins(freqs, lo, hi, np, grouped);
            BinsUsable(b.column, b.counts, factors, b.minIndex, b.maxIndex, DisplayedPoints(b), |freqs|)
  {
    DisplayedBins(freqs, lo, hi, np, grouped);
  }

  /**
   * The accumulation loops of output_print (src/output.c:288-320) on acc: zero
   * the numPoints columns, combine every value of [minIndex, maxIndex] into
   * its column, and for the average reducer scale each column by its factor.
   */
  method ReduceInto(acc: array<real>, values: array<real>, func: GroupingFunc, column: map<nat, nat>,
                    avgFactors: seq<real>, numPoints: nat, minIndex: nat, maxIndex: nat)
    requires acc != values && numPoints <= acc.Length && numPoints <= |avgFactors|
    requires minIndex <= maxIndex < values.Length && MappedBelow(column, minIndex, maxIndex + 1, numPoints)
    modifies acc
    ensures acc[..numPoints] == Reduced(func, values[..], column, avgFactors, numPoints, minIndex, maxIndex)
    ensures acc[numPoints..] == old(acc[numPoints..])
  {
    ZeroColumns(acc, numPoints);
    CombineInto(acc, values, func, column, numPoints, minIndex, maxIndex);
    if func == AvgGroupingFunc {
      ScaleColumns(acc, avgFactors, numPoints);
    }
  }

  /** The zeroing loop of src/output.c:289-291. */
  method ZeroColumns(acc: array<real>, numPoints: nat)
    requires numPoints <= acc.Length
    modifies acc
    ensures acc[..numPoints] == seq(numPoints, _ => 0.0)
    ensures acc[numPoints..] == old(acc[numPoints..])
  {
    for i := 0 to numPoints
      invariant forall c :: 0 <= c < i ==> acc[c] == 0.0
      invariant acc[numPoints..] == old(acc[numPoints..])
    {
      acc[i] := 0.0;
    }
  }

  /** The reducer loops of src/output.c:293-319: every value of [minIndex, maxIndex] into its column. */
  method CombineInto(acc: array<real>, values: array<real>, func: GroupingFunc, column: map<nat, nat>,
                     numPoints: nat, minIndex: nat, maxIndex: nat)
    requires acc != values && numPoints <= acc.Length
    requires minIndex <= maxIndex < values.Length && MappedBelow(column, minIndex, maxIndex + 1, numPoints)
    requires acc[..numPoints] == seq(numPoints, _ => 0.0)
    modifies acc
    ensures acc[..numPoints] == AccUpTo(func, values[..], column, numPoints, minIndex, maxIndex + 1)
    ensures acc[numPoints..] == old(acc[numPoints..])
  {
    var i := minIndex;
    while i <= maxIndex
      invariant minIndex <= i <= maxIndex + 1
      invariant acc[..numPoints] == AccUpTo(func, values[..], column, numPoints, minIndex, i)
      invariant acc[numPoints..] == old(acc[numPoints..])
    {
      var c := column[i];
      acc[c] := Combine(func, acc[c], values[i]);
      i := i + 1;
    }
  }

  /** The loop of src/output.c:309-311: every column times its average factor. */
  method ScaleColumns(acc: array<real>, avgFactors: seq<real>, numPoints: nat)
    requires numPoints <= acc.Length && numPoints <= |avgFactors|
    modifies acc
    ensures acc[..numPoints] == Scale(old(acc[..numPoints]), avgFactors)
    ensures acc[numPoints..] == old(acc[numPoints..])
  {
    ghost var sums := acc[..numPoints];
    for c := 0 to numPoints
      invariant forall k :: 0 <= k < c ==> acc[k] == sums[k] * avgFactors[k]
      invariant forall k :: c <= k < numPoints ==> acc[k] == sums[k]
      invariant acc[numPoints..] == old(acc[numPoints..])
    {
      acc[c] := acc[c] * avgFactors[c];
    }
    ghost var scaled := Scale(sums, avgFactors);
    assert forall k :: 0 <= k < numPoints ==> acc[..numPoints][k] == scaled[k];
  }

  /** The smoothing loop of src/output.c:329-338 on buf, reading acc and the counts. */
  method SmoothInto(buf: array<real>, acc: array<real>, counts: seq<nat>, oldFactor: real, newFactor: real,
                    numPoints: nat)
    returns (localMin: Option<real>, localMax: real)
    requires buf != acc && numPoints <= acc.Length && numPoints <= buf.Length && numPoints <= |counts|
    modifies buf
    ensures SmoothState(buf[..], localMin, localMax)
         == SmoothUpTo(old(buf[..]), acc[..numPoints], counts, oldFactor, newFactor, numPoints)
  {
    ghost var prev := buf[..];
    localMin, localMax := None, 0.0;
    var i := 0;
    while i < numPoints
      invariant 0 <= i <= numPoints
      invariant SmoothState(buf[..], localMin, localMax)
             == SmoothUpTo(prev, acc[..numPoints], counts, oldFactor, newFactor, i)
    {
      ghost var s := SmoothUpTo(prev, acc[..numPoints], counts, oldFactor, newFactor, i);
      assert acc[..numPoints][i] == acc[i] && buf[i] == s.buf[i];
      if counts[i] > 0 {
        var v := Blend(buf[i], acc[i], oldFactor, newFactor);
        localMin := Some(MinOpt(localMin, v));
        localMax := Max(localMax, v);
        buf[i] := v;
        assert buf[..] == s.buf[i := v];
      } else if i > 0 {
        buf[i] := buf[i - 1];
        assert buf[..] == s.buf[i := s.buf[i - 1]];
      }
      i := i + 1;
    }
  }

  /**
   * The inner glyph loop of src/output.c:362-378: the sub-levels of the
   * points i .. i + pointsPerChar - 1 packed in base levels.
   */
  method PackGroup(src: array<real>, i: nat, g: nat, numPoints: nat, sc: Scaling, a: Alphabet)
    returns (index: nat)
    requires numPoints <= src.Length && PositiveFunction(sc.exp) && WellFormed(a) && i == g * a.pointsPerChar
    ensures index == PackIndex(GroupLevels(src[..numPoints], g, numPoints, sc, a), a.levels)
  {
    ghost var ls := GroupLevels(src[..numPoints], g, numPoints, sc, a);
    var levels := a.levels;
    index := 0;
    for j := 0 to a.pointsPerChar
      invariant index == PackIndex(ls[..j], levels)
    {
      var p := i + j;
      ghost var points := src[..numPoints];
      var level := 0.0;
      if p < numPoints && sc.hi != sc.lo {
        assert points[p] == src[p];
        level := (src[p] - sc.lo) / (sc.hi - sc.lo);
      }
      assert level == Normalised(points, p, numPoints, sc.lo, sc.hi);
      level := Sigmoid(level, sc.sigmoid, sc.exp);
      assert p == g * a.pointsPerChar + j;
      var f := Quantise(level, sc.lineal, levels);
      assert f == ls[j];
      assert ls[..j + 1][..j] == ls[..j];
      assert index * levels + f == PackIndex(ls[..j + 1], levels);
      index := index * levels + f;
    }
    assert ls[..a.pointsPerChar] == ls;
  }

  /**
   * The outer glyph loop of src/output.c:360-380: one glyph per group of
   * pointsPerChar points, written at the pre-incremented wchar_index.
   */
  method GlyphsInto(line: array<char>, src: array<real>, numPoints: nat, sc: Scaling, a: Alphabet)
    returns (count: nat)
    requires numPoints <= src.Length && PositiveFunction(sc.exp) && WellFormed(a)
    requires NumChars(numPoints, a.pointsPerChar) < line.Length
    modifies line
    ensures count == NumChars(numPoints, a.pointsPerChar)
    ensures line[..count] == GlyphLine(src[..numPoints], numPoints, sc, a)
  {
    ghost var points := src[..numPoints];
    ghost var n := NumChars(numPoints, a.pointsPerChar);
    var ppc := a.pointsPerChar;
    var i, g := 0, 0;
    GlyphStarts(0, numPoints, ppc);
    while i < numPoints
      invariant g <= n && i == g * ppc
      invariant g < n <==> i < numPoints
      invariant forall k :: 0 <= k < g ==> line[k] == GlyphAt(points, k, numPoints, sc, a)
    {
      var index := PackGroup(src, i, g, numPoints, sc, a);
      line[g] := a.glyphs[index];
      assert (g + 1) * ppc == g * ppc + ppc;
      i, g := i + ppc, g + 1;
      GlyphStarts(g, numPoints, ppc);
    }
    count := g;
    assert line[..count] == GlyphLine(points, numPoints, sc, a);
  }

  class OutputContext {
    /** data_buffer_index_to_acc_buffer_index: the column of every kept data index. */
    const binMap: map<nat, nat>
    /** acc_buffer_data_count: the number of data indices per column. */
    const counts: seq<nat>
    /** acc_buffer_avg_factor: 1 / count, or 0 for an empty column. */
    const avgFactors: seq<real>
    const minDataIndex: nat
    const maxDataIndex: nat
    /** The number of displayed columns: the last assigned column + 1. */
    const numPoints: nat
    const dataLength: nat
    const absMin: real
    const absMax: real
    const groupFunc: GroupingFunc
    /** OUTPUT_LOGARITMIC_TRANSFORM in transform_flags. */
    const logTransform: bool
    /** log and exp, which the model takes as parameters. */
    const ln: real -> real
    const exp: real -> real

    const accBuffer: array<real>
    const smoothBuffer: array<real>
    const lineBuffer: array<char>
    const silenceBuffer: array<char>

    /** visualization_str, visualization_levels and visualization_points_per_char. */
    var alphabet: Alphabet
    var smoothing: Smoothing
    var newValueFactor: real
    var oldValueFactor: real
    var newLimitFactor: real
    var oldLimitFactor: real
    var minLimit: real
    var maxLimit: real
    var sigmoidFactor: real
    var linealFactor: real
    /** provided_silence_str; None is NULL. */
    var providedSilence: Option<seq<char>>

    /**
     * What output_init establishes once: the buffer sizes, the bin map of the
     * data indices min_data_index .. max_data_index onto the displayed columns,
     * the per-column counts and their factors. It reads only constants.
     */
    ghost predicate Binned()
    {
      && accBuffer.Length == smoothBuffer.Length == |counts|
      && lineBuffer.Length == silenceBuffer.Length == accBuffer.Length + 1
      && accBuffer != smoothBuffer && lineBuffer != silenceBuffer
      && BinsUsable(binMap, counts, avgFactors, minDataIndex, maxDataIndex, numPoints, dataLength)
      && PositiveFunction(exp)
    }

    /** The settings the setters keep in range. */
    ghost predicate Settings()
      reads this
    {
      && WellFormed(alphabet)
      && FactorPair(oldValueFactor, newValueFactor) && FactorPair(oldLimitFactor, newLimitFactor)
      && 0.0 <= minLimit <= maxLimit
      && NulFree(SilenceSource(providedSilence))
    }

    /** The smoothed values of the previous frame are never negative. */
    ghost predicate Smoothed()
      reads smoothBuffer
    {
      NonNegative(smoothBuffer[..])
    }

    /** The width of a line: ceil(num_points / points_per_char) characters. */
    function Width(): nat
      reads this
      requires alphabet.pointsPerChar >= 1
    {
      NumChars(numPoints, alphabet.pointsPerChar)
    }

    /** The silence buffer holds the silence line, NUL-terminated. */
    ghost predicate SilenceReady()
      reads this, silenceBuffer
      requires Binned() && Settings()
    {
      && Width() < silenceBuffer.Length
      && silenceBuffer[..Width()] == SilenceLine(SilenceSource(providedSilence), Width())
      && silenceBuffer[Width()] == '\0'
    }

    ghost predicate Valid()
      reads this, smoothBuffer, silenceBuffer
    {
      Binned() && Settings() && Smoothed() && SilenceReady()
    }

    /**
     * The compound literal of output_init and the setter calls that end it
     * (src/output.c:140-195): the context over finished bins, buffers sized
     * for the allocated columns, and the defaults of output_set_charset(Bars),
     * output_set_silence_str(NULL), output_set_smoothing(no smoothing),
     * output_set_smoothing_factors(0.5, 0.5) and
     * output_set_lineal_scale_factor_offset(0), with the silence line built
     * for them. The sigmoid factor is left 0 by the compound literal.
     */
    constructor Assemble(b: Bins, factors: seq<real>, capacity: nat, dataLength: nat, absMin: real, absMax: real,
                         groupFunc: GroupingFunc, logTransform: bool, ln: real -> real, exp: real -> real)
      requires |b.counts| == capacity
      requires BinsUsable(b.column, b.counts, factors, b.minIndex, b.maxIndex, DisplayedPoints(b), dataLength)
      requires PositiveFunction(exp)
      ensures Valid()
      ensures fresh(accBuffer) && fresh(smoothBuffer) && fresh(lineBuffer) && fresh(silenceBuffer)
      ensures accBuffer.Length == capacity
      ensures binMap == b.column && counts == b.counts && avgFactors == factors
      ensures minDataIndex == b.minIndex && maxDataIndex == b.maxIndex && numPoints == DisplayedPoints(b)
      ensures this.dataLength == dataLength && this.absMin == absMin && this.absMax == absMax
      ensures this.groupFunc == groupFunc && this.logTransform == logTransform && this.ln == ln && this.exp == exp
      ensures alphabet == AlphabetOf(DefaultCharset) && providedSilence == None && smoothing == NoSmooth
      ensures newValueFactor == oldValueFactor == newLimitFactor == oldLimitFactor == DefaultFactor
      ensures minLimit == 0.0 && maxLimit == 0.0 && linealFactor == 1.0 && sigmoidFactor == 0.0
    {
      binMap := b.column;
      counts := b.counts;
      avgFactors := factors;
      minDataIndex := b.minIndex;
      maxDataIndex := b.maxIndex;
      numPoints := DisplayedPoints(b);
      this.dataLength := dataLength;
      this.absMin := absMin;
      this.absMax := absMax;
      this.groupFunc := groupFunc;
      this.logTransform := logTransform;
      this.ln := ln;
      this.exp := exp;
      accBuffer := new real[capacity];
      smoothBuffer := new real[capacity](_ => 0.0);
      lineBuffer := new char[capacity + 1];
      silenceBuffer := new char[capacity + 1];
      alphabet := AlphabetOf(DefaultCharset);
      providedSilence := None;
      smoothing := NoSmooth;
      minLimit, maxLimit := 0.0, 0.0;
      newValueFactor, oldValueFactor := DefaultFactor, DefaultFactor;
      newLimitFactor, oldLimitFactor := DefaultFactor, DefaultFactor;
      linealFactor := 1.0;
      sigmoidFactor := 0.0;
      new;
      assert smoothBuffer[..] == seq(capacity, _ => 0.0);
      UpdateSilenceBuffer();
    }

    /** output_set_lineal_scale_factor_offset (src/output.c:200-202). */
    method SetLinealScaleFactorOffset(offset: real)
      requires Valid()
      modifies this`linealFactor
      ensures Valid() && linealFactor == 1.0 + offset
    {
      linealFactor := 1.0 + offset;
    }

    /** output_set_sigmoid_scale_factor (src/output.c:204-206). */
    method SetSigmoidScaleFactor(factor: real)
      requires Valid()
      modifies this`sigmoidFactor
      ensures Valid() && sigmoidFactor == factor
    {
      sigmoidFactor := factor;
    }

    /**
     * output_update_silence_buffer (src/output.c:208-217): NUL at the width,
     * wcsncpy of the source string (NUL-padded up to the width), then blanks
     * from the source's length up to the width.
     */
    method UpdateSilenceBuffer()
      requires Binned() && Settings()
      modifies silenceBuffer
      ensures SilenceReady()
    {
      var n := Width();
      NumCharsAtMostPoints(numPoints, alphabet.pointsPerChar);
      FillSilence(silenceBuffer, SilenceSource(providedSilence), n);
    }

    /** The three loops of output_update_silence_buffer on the buffer buf. */
    static method FillSilence(buf: array<char>, text: seq<char>, n: nat)
      requires n < buf.Length
      modifies buf
      ensures buf[..n] == SilenceLine(text, n) && buf[n] == '\0'
    {
      buf[n] := '\0';
      var i := 0;
      while i < n && i < |text|
        invariant 0 <= i <= n && i <= |text|
        invariant buf[n] == '\0'
        invariant forall k :: 0 <= k < i ==> buf[k] == text[k]
      {
        buf[i] := text[i];
        i := i + 1;
      }
      while i < n
        invariant 0 <= i <= n
        invariant buf[n] == '\0'
        invariant forall k :: 0 <= k < i ==> buf[k] == if k < |text| then text[k] else '\0'
      {
        buf[i] := '\0';
        i := i + 1;
      }
      i := |text|;
      while i < n
        invariant buf[n] == '\0'
        invariant forall k :: 0 <= k < n ==>
                    buf[k] == if k < |text| then text[k] else if k < i then ' ' else '\0'
      {
        buf[i] := ' ';
        i := i + 1;
      }
      assert buf[..n] == SilenceLine(text, n);
    }

    /** output_set_charset (src/output.c:219-239); the silence line is rebuilt for the new width. */
    method SetCharset(charset: Charset)
      requires Binned() && Settings() && Smoothed()
      modifies this`alphabet, silenceBuffer
      ensures Valid() && alphabet == AlphabetOf(charset)
    {
      alphabet := AlphabetOf(charset);
      UpdateSilenceBuffer();
    }

    /** output_set_silence_str (src/output.c:241-244); None restores silence_str. */
    method SetSilenceStr(text: Option<seq<char>>)
      requires Binned() && Settings() && Smoothed()
      requires NulFree(SilenceSource(text))
      modifies this`providedSilence, silenceBuffer
      ensures Valid() && providedSilence == text
    {
      providedSilence := text;
      UpdateSilenceBuffer();
    }

    /** output_set_smoothing (src/output.c:246-250): the adaptive limits restart at 0. */
    method SetSmoothing(s: Smoothing)
      requires Valid()
      modifies this`smoothing, this`minLimit, this`maxLimit
      ensures Valid() && smoothing == s && minLimit == 0.0 && maxLimit == 0.0
    {
      smoothing := s;
      maxLimit := 0.0;
      minLimit := 0.0;
    }

    /**
     * output_set_smoothing_factors (src/output.c:251-258): each new factor is
     * clamped into [0, 1] and its old factor is the complement, so each pair
     * sums to 1.
     */
    method SetSmoothingFactors(newValue: real, newLimit: real)
      requires Valid()
      modifies this`newValueFactor, this`oldValueFactor, this`newLimitFactor, this`oldLimitFactor
      ensures Valid()
      ensures newValueFactor == ClampUnit(newValue) && newLimitFactor == ClampUnit(newLimit)
      ensures oldValueFactor + newValueFactor == 1.0 && oldLimitFactor + newLimitFactor == 1.0
    {
      var nv := ClampUnit(newValue);
      var nl := ClampUnit(newLimit);
      oldLimitFactor := 1.0 - nl;
      oldValueFactor := 1.0 - nv;
      newLimitFactor := nl;
      newValueFactor := nv;
    }

    /** output_print_silence (src/output.c:272-274): the silence line, as wide as a frame line. */
    method PrintSilence() returns (line: seq<char>)
      requires Valid()
      ensures line == SilenceLine(SilenceSource(providedSilence), Width())
      ensures |line| == NumChars(numPoints, alphabet.pointsPerChar)
    {
      line := silenceBuffer[..Width()];
    }

    // ---------------------------------------------------------------- output_print

    /** The values after the transform loop of output_print (src/output.c:281-286). */
    ghost function Transformed(values: seq<real>): seq<real>
      reads this
      requires |values| == dataLength
    {
      if logTransform && numPoints > 0 then MapRange(ln, values, minDataIndex, maxDataIndex) else values
    }

    /** The accumulation buffer a frame computes from its values (src/output.c:288-320). */
    ghost function FrameAcc(values: seq<real>): (acc: seq<real>)
      reads this
      requires Binned() && numPoints > 0 && |values| == dataLength
      ensures |acc| == numPoints
    {
      Reduced(groupFunc, Transformed(values), binMap, avgFactors, numPoints, minDataIndex, maxDataIndex)
    }

    /**
     * What a frame leaves behind, given the values, the smoothed values and
     * the limits it started from: the transformed values, the reduced
     * accumulation buffer, and under exp2 smoothing the smoothing loop's buffer
     * and the blended limits (src/output.c:322-351); without smoothing the
     * smooth buffer and the limits are untouched.
     */
    ghost predicate FrameDone(values: array<real>, values0: seq<real>, smooth0: seq<real>, min0: real, max0: real)
      reads this, values, accBuffer, smoothBuffer
      requires Binned() && numPoints > 0 && |values0| == dataLength && |smooth0| == smoothBuffer.Length
    {
      && values[..] == Transformed(values0)
      && accBuffer[..numPoints] == FrameAcc(values0)
      && (smoothing == Exp2Smooth ==>
            var s := SmoothUpTo(smooth0, FrameAcc(values0), counts, oldValueFactor, newValueFactor, numPoints);
            && smoothBuffer[..] == s.buf && s.localMin.Some?
            && minLimit == BlendLimit(min0, s.localMin.value, oldLimitFactor, newLimitFactor)
            && maxLimit == BlendLimit(max0, s.localMax, oldLimitFactor, newLimitFactor))
      && (smoothing == NoSmooth ==> smoothBuffer[..] == smooth0 && minLimit == min0 && maxLimit == max0)
    }

    /** The buffer a frame is drawn from: smooth_buffer, or acc_buffer without smoothing. */
    function Source(): array<real>
      reads this
    {
      if smoothing == Exp2Smooth then smoothBuffer else accBuffer
    }

    /** The range a frame is scaled by: the adaptive limits, or abs_min and abs_max without smoothing. */
    function FrameScaling(): Scaling
      reads this
    {
      if smoothing == Exp2Smooth then Scaling(minLimit, maxLimit, sigmoidFactor, linealFactor, exp)
      else Scaling(absMin, absMax, sigmoidFactor, linealFactor, exp)
    }

    /** The full line of glyphs of the current buffers, one per pointsPerChar columns. */
    ghost function FrameLine(): (line: seq<char>)
      reads this, accBuffer, smoothBuffer
      requires Binned() && Settings()
      ensures |line| == Width()
    {
      GlyphLine(Source()[..numPoints], numPoints, FrameScaling(), alphabet)
    }

    /**
     * The accumulation part of output_print (src/output.c:288-320): zero the
     * displayed columns, combine every value of [min_data_index,
     * max_data_index] into its column with the reducer of group_func, and for
     * the average reducer scale every column by its factor.
     */
    method Accumulate(values: array<real>)
      requires Binned() && numPoints > 0 && values.Length == dataLength && values != accBuffer
      modifies accBuffer
      ensures accBuffer[..numPoints] == Reduced(groupFunc, values[..], binMap, avgFactors, numPoints, minDataIndex, maxDataIndex)
    {
      ReduceInto(accBuffer, values, groupFunc, binMap, avgFactors, numPoints, minDataIndex, maxDataIndex);
    }

    /**
     * The exp2 smoothing of output_print (src/output.c:325-345): the smoothing
     * loop over the displayed columns, then the adaptive limits blended with
     * this frame's local_min and local_max.
     */
    method SmoothFrame()
      requires Valid() && numPoints > 0 && smoothing == Exp2Smooth
      modifies smoothBuffer, this`minLimit, this`maxLimit
      ensures Valid()
      ensures var s := SmoothUpTo(old(smoothBuffer[..]), accBuffer[..numPoints], counts,
                                  oldValueFactor, newValueFactor, numPoints);
              && smoothBuffer[..] == s.buf && s.localMin.Some?
              && minLimit == BlendLimit(old(minLimit), s.localMin.value, oldLimitFactor, newLimitFactor)
              && maxLimit == BlendLimit(old(maxLimit), s.localMax, oldLimitFactor, newLimitFactor)
    {
      ghost var prev := smoothBuffer[..];
      ghost var acc := accBuffer[..numPoints];
      var localMin, localMax := SmoothInto(smoothBuffer, accBuffer, counts, oldValueFactor, newValueFactor, numPoints);
      LocalMin(prev, acc, counts, oldValueFactor, newValueFactor, numPoints);
      assert SomePopulated(counts, numPoints);
      LocalMinBelowMax(prev, acc, counts, oldValueFactor, newValueFactor, numPoints);
      SmoothedNonNegative(prev, acc, counts, oldValueFactor, newValueFactor, numPoints);
      LimitsStayOrdered(minLimit, maxLimit, localMin.value, localMax, oldLimitFactor, newLimitFactor);
      var lo := BlendLimit(minLimit, localMin.value, oldLimitFactor, newLimitFactor);
      var hi := BlendLimit(maxLimit, localMax, oldLimitFactor, newLimitFactor);
      minLimit := lo;
      maxLimit := hi;
    }

    /**
     * The glyph loops of output_print (src/output.c:358-380): for every group
     * of pointsPerChar points starting at point i, the level of each point
     * (0 past num_points), through the sigmoid when its factor is positive,
     * truncated and clamped, packed in base levels, and the glyph of the packed
     * index written at the next position of the line.
     */
    method FillLine(src: array<real>, sc: Scaling) returns (count: nat)
      requires Binned() && Settings() && numPoints <= src.Length && sc.exp == exp
      modifies lineBuffer
      ensures count == Width() && count < lineBuffer.Length
      ensures lineBuffer[..count] == GlyphLine(src[..numPoints], numPoints, sc, alphabet)
    {
      NumCharsAtMostPoints(numPoints, alphabet.pointsPerChar);
      count := GlyphsInto(lineBuffer, src, numPoints, sc, alphabet);
    }

    /**
     * One frame of output_print up to the glyph line: the transform loop, the
     * accumulation, the smoothing and the glyph loops, leaving count glyphs
     * in the line buffer.
     */
    method RenderFrame(values: array<real>) returns (count: nat)
      requires Valid() && numPoints > 0
      requires values.Length == dataLength && values != accBuffer && values != smoothBuffer
      modifies values, accBuffer, smoothBuffer, lineBuffer, this`minLimit, this`maxLimit
      ensures Valid()
      ensures FrameDone(values, old(values[..]), old(smoothBuffer[..]), old(minLimit), old(maxLimit))
      ensures count == Width() && count < lineBuffer.Length && lineBuffer[..count] == FrameLine()
    {
      ghost var values0 := values[..];
      if logTransform {
        ApplyRange(values, ln, minDataIndex, maxDataIndex);
      }
      assert values[..] == Transformed(values0);
      Accumulate(values);
      if smoothing == Exp2Smooth {
        SmoothFrame();
      }
      var lo, hi := absMin, absMax;
      var src := accBuffer;
      if smoothing == Exp2Smooth {
        lo, hi := minLimit, maxLimit;
        src := smoothBuffer;
      }
      count := FillLine(src, Scaling(lo, hi, sigmoidFactor, linealFactor, exp));
    }

    /**
     * output_print as written (src/output.c:276-383). The final NUL is stored
     * at wchar_index, the position of the last glyph, so the line returned
     * holds all glyphs but the last. A frame needs a displayed column:
     * with none, wchar_index stays (unsigned) -1 and the store is out of
     * bounds.
     */
    method Print(values: array<real>) returns (line: seq<char>)
      requires Valid() && numPoints > 0
      requires values.Length == dataLength && values != accBuffer && values != smoothBuffer
      modifies values, accBuffer, smoothBuffer, lineBuffer, this`minLimit, this`maxLimit
      ensures Valid()
      ensures FrameDone(values, old(values[..]), old(smoothBuffer[..]), old(minLimit), old(maxLimit))
      ensures line == FrameLine()[..Width() - 1]
      ensures |line| == NumChars(numPoints, alphabet.pointsPerChar) - 1
      ensures lineBuffer[..|line| + 1] == line + ['\0']
    {
      var count := RenderFrame(values);
      NumCharsAtMostPoints(numPoints, alphabet.pointsPerChar);
      var k := NulIndex(count);
      line := Terminate(k);
    }

    /**
     * output_print with the terminator placed after the last glyph, and an
     * empty line when no column is displayed: the line is as wide as the
     * silence line.
     */
    method PrintFull(values: array<real>) returns (line: seq<char>)
      requires Valid()
      requires values.Length == dataLength && values != accBuffer && values != smoothBuffer
      modifies values, accBuffer, smoothBuffer, lineBuffer, this`minLimit, this`maxLimit
      ensures Valid()
      ensures numPoints > 0 ==> FrameDone(values, old(values[..]), old(smoothBuffer[..]), old(minLimit), old(maxLimit))
      ensures numPoints > 0 ==> line == FrameLine()
      ensures numPoints == 0 ==> line == [] && values[..] == old(values[..])
      ensures |line| == NumChars(numPoints, alphabet.pointsPerChar)
      ensures lineBuffer[..|line| + 1] == line + ['\0']
    {
      if numPoints == 0 {
        line := Terminate(0);
        return;
      }
      var count := RenderFrame(values);
      line := Terminate(count);
    }

    /** Store the terminating NUL at k (src/output.c:381); the line is what precedes it. */
    method Terminate(k: nat) returns (line: seq<char>)
      requires k < lineBuffer.Length
      modifies lineBuffer
      ensures line == old(lineBuffer[..k]) && lineBuffer[..k + 1] == line + ['\0']
    {
      lineBuffer[k] := '\0';
      line := lineBuffer[..k];
      assert lineBuffer[..k + 1] == line + ['\0'];
    }
  }
  /**
   * output_init (src/output.c:99-197): the bins of BinFrequencies, abs_min
   * and abs_max through log under the logarithmic transform, and the context
   * Assemble builds over them; the displayed columns are target_acc_index + 1.
   */
  method Init(freqs: array<real>, minFreq: nat, maxFreq: nat, requested: nat, absMin: real, absMax: real,
              group: Grouping, groupFunc: GroupingFunc, logTransform: bool,
              ln: real -> real, exp: real -> real)
    returns (ctx: OutputContext)
    requires InitArgs(freqs[..], minFreq, maxFreq, requested, group, groupFunc, ln)
    requires PositiveFunction(exp)
    modifies freqs
    ensures fresh(ctx) && ctx.Valid()
    ensures fresh(ctx.accBuffer) && fresh(ctx.smoothBuffer) && fresh(ctx.lineBuffer) && fresh(ctx.silenceBuffer)
    ensures var g := EffectiveGrouping(group, groupFunc);
            && freqs[..] == GroupedFreqs(old(freqs[..]), g, ln)
            && ctx.accBuffer.Length == Capacity(requested, g, freqs.Length)
            && var b := FinalBins(freqs[..], WindowBound(minFreq, g, ln), WindowBound(maxFreq, g, ln),
                                  Capacity(requested, g, freqs.Length), g != NoGrouping);
               && ctx.binMap == b.column && ctx.counts == b.counts
               && ctx.minDataIndex == b.minIndex && ctx.maxDataIndex == b.maxIndex
               && ctx.numPoints == DisplayedPoints(b)
    ensures ctx.absMin == (if logTransform then ln(absMin) else absMin)
    ensures ctx.absMax == (if logTransform then ln(absMax) else absMax)
    ensures ctx.groupFunc == groupFunc && ctx.logTransform == logTransform && ctx.dataLength == freqs.Length
    ensures ctx.ln == ln && ctx.exp == exp
    ensures ctx.alphabet == AlphabetOf(DefaultCharset) && ctx.providedSilence == None && ctx.smoothing == NoSmooth
    ensures ctx.newValueFactor == ctx.oldValueFactor == ctx.newLimitFactor == ctx.oldLimitFactor == DefaultFactor
    ensures ctx.minLimit == 0.0 && ctx.maxLimit == 0.0 && ctx.linealFactor == 1.0 && ctx.sigmoidFactor == 0.0
  {
    var g := EffectiveGrouping(group, groupFunc);
    var b, factors := BinFrequencies(freqs, minFreq, maxFreq, requested, group, groupFunc, ln);
    var lowest, highest := absMin, absMax;
    if logTransform {
      highest := ln(absMax);
      lowest := ln(absMin);
    }
    ctx := new OutputContext.Assemble(b, factors, Capacity(requested, g, freqs.Length), freqs.Length,
                                      lowest, highest, groupFunc, logTransform, ln, exp);
  }
}
