/**
 * What one frame of output_print computes (src/output.c:276-383), as functions
 * of the frame's input and the context: the reducers that fill the
 * accumulation buffer, the exponential smoothing with adaptive limits, the
 * per-point level and its quantisation, and the glyph line. The methods of
 * Output.OutputContext are proved to produce exactly these values.
 */
module Render {
  import opened Wrappers
  import opened CTypes
  import opened BinMap
  import opened Glyphs
  import opened Arithmetic

  /** The max macro of src/output.c:34-37: a > b ? a : b. */
  function Max(a: real, b: real): (r: real)
    ensures r >= a && r >= b && (r == a || r == b)
  {
    if a > b then a else b
  }

  /** The min macro of src/output.c:39-42: a < b ? a : b. */
  function Min(a: real, b: real): (r: real)
    ensures r <= a && r <= b && (r == a || r == b)
  {
    if a < b then a else b
  }

  // ---------------------------------------------------------------- reduce

  /** Every data index of [a, b) has a column below numPoints. */
  ghost predicate MappedBelow(column: map<nat, nat>, a: nat, b: nat, numPoints: nat)
  {
    forall k: nat :: a <= k < b ==> k in column && column[k] < numPoints
  }

  /** One reducer step: the new value of a column given its value and a contribution. */
  function Combine(func: GroupingFunc, acc: real, v: real): real
  {
    match func
    case MaxGroupingFunc => Max(acc, v)
    case AvgGroupingFunc => acc + v
    case NoGroupingFunc => v
  }

  /**
   * The accumulation buffer after the zeroing loop and the reducer loop over
   * the data indices minIndex .. i-1 (src/output.c:281-320).
   */
  function AccUpTo(func: GroupingFunc, values: seq<real>, column: map<nat, nat>, numPoints: nat,
                   minIndex: nat, i: nat): (acc: seq<real>)
    requires minIndex <= i <= |values| && MappedBelow(column, minIndex, i, numPoints)
    ensures |acc| == numPoints
    decreases i
  {
    if i == minIndex then seq(numPoints, _ => 0.0)
    else
      var acc := AccUpTo(func, values, column, numPoints, minIndex, i - 1);
      var c := column[i - 1];
      acc[c := Combine(func, acc[c], values[i - 1])]
  }

  /** acc_buffer_avg_factor[c] (src/output.c:179-185). */
  function AvgFactor(count: nat): (f: real)
    ensures count > 0 ==> f * count as real == 1.0
    ensures count == 0 ==> f == 0.0
  {
    if count > 0 then 1.0 / count as real else 0.0
  }

  /** The reduced buffer: for the average reducer every column is scaled by its factor. */
  function Reduced(func: GroupingFunc, values: seq<real>, column: map<nat, nat>, avgFactors: seq<real>,
                   numPoints: nat, minIndex: nat, maxIndex: nat): (acc: seq<real>)
    requires minIndex <= maxIndex < |values| && MappedBelow(column, minIndex, maxIndex + 1, numPoints)
    requires numPoints <= |avgFactors|
    ensures |acc| == numPoints
  {
    var acc := AccUpTo(func, values, column, numPoints, minIndex, maxIndex + 1);
    if func == AvgGroupingFunc then Scale(acc, avgFactors) else acc
  }

  /** The loop of src/output.c:309-311: every column times its factor. */
  function Scale(acc: seq<real>, factors: seq<real>): (r: seq<real>)
    requires |acc| <= |factors|
    ensures |r| == |acc| && forall c :: 0 <= c < |acc| ==> r[c] == acc[c] * factors[c]
  {
    seq(|acc|, c requires 0 <= c < |acc| => acc[c] * factors[c])
  }

  /** The values the data indices of [a, b) contribute to column c, in index order. */
  function Contributions(values: seq<real>, column: map<nat, nat>, c: nat, a: nat, b: nat): (s: seq<real>)
    requires a <= b <= |values| && forall k: nat :: a <= k < b ==> k in column
    decreases b
  {
    if b == a then []
    else Contributions(values, column, c, a, b - 1) + (if column[b - 1] == c then [values[b - 1]] else [])
  }

  /** The sum of a sequence of reals. */
  function SumReal(s: seq<real>): real
  {
    if s == [] then 0.0 else SumReal(s[..|s| - 1]) + s[|s| - 1]
  }

  // ---------------------------------------------------------------- smooth

  /** OUTPUT_NO_SMOOTH, OUTPUT_EXP2_SMOOTH. */
  datatype Smoothing = NoSmooth | Exp2Smooth

  /**
   * The smoothing loop state (src/output.c:327-344): the smooth buffer, the
   * smallest new value (None while it is still INFINITY) and the largest one
   * (starting at 0).
   */
  datatype SmoothState = SmoothState(buf: seq<real>, localMin: Option<real>, localMax: real)

  /** The new smoothed value of a populated column. */
  function Blend(previous: real, acc: real, oldFactor: real, newFactor: real): (r: real)
    ensures r >= 0.0
  {
    Max(previous * oldFactor + acc * newFactor, 0.0)
  }

  /** Keeps the smaller of the running minimum and a new value; None is INFINITY. */
  function MinOpt(m: Option<real>, v: real): (r: real)
    ensures r <= v && (m.Some? ==> r <= m.value)
    ensures r == v || (m.Some? && r == m.value)
  {
    match m
    case None => v
    case Some(x) => Min(x, v)
  }

  /** The smoothing loop after the columns 0 .. i-1. */
  function SmoothUpTo(prev: seq<real>, acc: seq<real>, counts: seq<nat>, oldFactor: real, newFactor: real,
                      i: nat): (s: SmoothState)
    requires i <= |acc| <= |prev| && |acc| <= |counts|
    ensures |s.buf| == |prev|
    decreases i
  {
    if i == 0 then SmoothState(prev, None, 0.0)
    else
      var s := SmoothUpTo(prev, acc, counts, oldFactor, newFactor, i - 1);
      var j := i - 1;
      if counts[j] > 0 then
        var v := Blend(s.buf[j], acc[j], oldFactor, newFactor);
        SmoothState(s.buf[j := v], Some(MinOpt(s.localMin, v)), Max(s.localMax, v))
      else if j > 0 then
        SmoothState(s.buf[j := s.buf[j - 1]], s.localMin, s.localMax)
      else
        s
  }

  /** The new adaptive limit: the old one and this frame's extreme, in the limit factors' proportion. */
  function BlendLimit(limit: real, local: real, oldLimitFactor: real, newLimitFactor: real): real
  {
    limit * oldLimitFactor + local * newLimitFactor
  }

  // ---------------------------------------------------------------- scale and quantise

  /** exp, as a parameter of the model, is positive. */
  ghost predicate PositiveFunction(f: real -> real)
  {
    forall x :: f(x) > 0.0
  }

  /**
   * The normalised level of point p (src/output.c:364-367): (value - lo) /
   * (hi - lo) for a point below numPoints, 0 for the padding points of the
   * last glyph. The model takes it as 0 when the range is empty (hi == lo).
   */
  function Normalised(src: seq<real>, p: nat, numPoints: nat, lo: real, hi: real): real
    requires numPoints <= |src|
  {
    if p < numPoints && hi != lo then (src[p] - lo) / (hi - lo) else 0.0
  }

  /** The sigmoid of src/output.c:369-371, applied when its factor is positive. */
  function Sigmoid(level: real, sigmoid: real, exp: real -> real): real
    requires PositiveFunction(exp)
  {
    if sigmoid > 0.0 then 1.0 / (1.0 + exp(-sigmoid * (level - 0.5))) else level
  }

  /** The level of point p before quantisation. */
  function Level(src: seq<real>, p: nat, numPoints: nat, lo: real, hi: real, sigmoid: real,
                 exp: real -> real): real
    requires numPoints <= |src| && PositiveFunction(exp)
  {
    Sigmoid(Normalised(src, p, numPoints, lo, hi), sigmoid, exp)
  }

  /** C's conversion of a double to int: truncation toward zero. */
  function Trunc(x: real): (t: int)
    ensures x >= 0.0 ==> t == x.Floor
    ensures x < 0.0 ==> t <= 0
  {
    if x >= 0.0 then x.Floor else -((-x).Floor)
  }

  /** The sub-level of a point: (level * lineal) * levels truncated, clamped to [0, levels-1]. */
  function Quantise(level: real, lineal: real, levels: nat): (q: nat)
    requires levels >= 1
    ensures q < levels
  {
    var f := Trunc(level * lineal * levels as real);
    var f := if f > 0 then f else 0;
    if f < levels - 1 then f else levels - 1
  }

  /** The number of characters of a line: ceil(numPoints / pointsPerChar). */
  function NumChars(numPoints: nat, pointsPerChar: nat): (n: nat)
    requires pointsPerChar >= 1
    ensures n * pointsPerChar >= numPoints
    ensures n > 0 ==> (n - 1) * pointsPerChar < numPoints
  {
    (numPoints + pointsPerChar - 1) / pointsPerChar
  }

  /**
   * Where output_print stores the terminating NUL after writing count glyphs:
   * the unsigned wchar_index starts at -1 and is pre-incremented once per
   * glyph, so it ends at count - 1 modulo 2^32.
   */
  function NulIndex(count: nat): (k: nat)
    requires count < Uint32Modulus
    ensures k < Uint32Modulus
    ensures count > 0 ==> k == count - 1
    ensures count == 0 ==> k == Uint32Max
  {
    (count + Uint32Max) % Uint32Modulus
  }


  /** A line is never wider than the number of points it shows. */
  lemma NumCharsAtMostPoints(numPoints: nat, pointsPerChar: nat)
    requires pointsPerChar >= 1
    ensures NumChars(numPoints, pointsPerChar) <= numPoints
  {
    var n := NumChars(numPoints, pointsPerChar);
    MultiplyAtLeast(n as int - 1, numPoints, pointsPerChar);
  }

  /** The frame's rendering parameters, read from the context by output_print. */
  datatype Scaling = Scaling(lo: real, hi: real, sigmoid: real, lineal: real, exp: real -> real)

  /** Whether an alphabet's table holds every packed index. */
  ghost predicate WellFormed(a: Alphabet)
  {
    a.levels >= 1 && a.pointsPerChar >= 1 && Pow(a.levels, a.pointsPerChar) <= |a.glyphs|
  }

  /** The sub-level of point p. */
  function PointLevel(src: seq<real>, p: nat, numPoints: nat, sc: Scaling, a: Alphabet): (q: nat)
    requires numPoints <= |src| && PositiveFunction(sc.exp) && a.levels >= 1
    ensures q < a.levels
  {
    Quantise(Level(src, p, numPoints, sc.lo, sc.hi, sc.sigmoid, sc.exp), sc.lineal, a.levels)
  }

  /** The sub-levels of glyph g: the points g*ppc .. g*ppc + ppc - 1. */
  function GroupLevels(src: seq<real>, g: nat, numPoints: nat, sc: Scaling, a: Alphabet): (ls: seq<nat>)
    requires numPoints <= |src| && PositiveFunction(sc.exp) && a.levels >= 1
    ensures |ls| == a.pointsPerChar && LevelsBelow(ls, a.levels)
    ensures forall j :: 0 <= j < |ls| ==> ls[j] == PointLevel(src, g * a.pointsPerChar + j, numPoints, sc, a)
  {
    var ls := seq<nat>(a.pointsPerChar, j requires 0 <= j < a.pointsPerChar =>
      PointLevel(src, g * a.pointsPerChar + j, numPoints, sc, a));
    forall j | 0 <= j < |ls|
      ensures ls[j] < a.levels
    {
      assert ls[j] == PointLevel(src, g * a.pointsPerChar + j, numPoints, sc, a);
    }
    ls
  }

  /** Glyph g of the line. */
  function GlyphAt(src: seq<real>, g: nat, numPoints: nat, sc: Scaling, a: Alphabet): (ch: char)
    requires numPoints <= |src| && PositiveFunction(sc.exp) && WellFormed(a)
    ensures ch in a.glyphs
  {
    GlyphOf(a, GroupLevels(src, g, numPoints, sc, a))
  }

  /** One glyph per group of pointsPerChar points, ceil(numPoints / pointsPerChar) glyphs. */
  function GlyphLine(src: seq<real>, numPoints: nat, sc: Scaling, a: Alphabet): (line: seq<char>)
    requires numPoints <= |src| && PositiveFunction(sc.exp) && WellFormed(a)
    ensures |line| == NumChars(numPoints, a.pointsPerChar)
    ensures forall g :: 0 <= g < |line| ==> line[g] == GlyphAt(src, g, numPoints, sc, a)
  {
    seq(NumChars(numPoints, a.pointsPerChar), g requires 0 <= g => GlyphAt(src, g, numPoints, sc, a))
  }


  /**
   * The glyph loop of output_print starts glyph g at point g * pointsPerChar,
   * and it does so exactly for the NumChars glyphs of the line.
   */
  lemma GlyphStarts(g: nat, numPoints: nat, pointsPerChar: nat)
    requires pointsPerChar >= 1
    ensures g * pointsPerChar < numPoints <==> g < NumChars(numPoints, pointsPerChar)
  {
    var n := NumChars(numPoints, pointsPerChar);
    if g < n {
      MultiplyMonotone(g, n - 1, pointsPerChar);
    } else {
      MultiplyMonotone(n, g, pointsPerChar);
    }
  }

  // ---------------------------------------------------------------- silence line

  /**
   * The silence line of output_update_silence_buffer (src/output.c:208-217):
   * wcsncpy copies at most numChars characters of the source string, and the
   * positions from the source's length up to numChars become blanks.
   */
  function SilenceLine(text: seq<char>, numChars: nat): (line: seq<char>)
    ensures |line| == numChars
    ensures forall k :: 0 <= k < numChars ==> line[k] == if k < |text| then text[k] else ' '
  {
    if |text| >= numChars then text[..numChars] else text + seq(numChars - |text|, _ => ' ')
  }
}
