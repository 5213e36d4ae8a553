/**
 * The frequency of each FFT output bin, built by main before it calls
 * output_init (src/main.c:292-301): bin i of an n-sample window at the
 * sample rate r lies at i * (r / n). With a non-negative rate the axis
 * ascends from 0, which is what the bin map assumes of its frequencies.
 */
module FrequencyAxis {
  import opened BinMap

  /** n_out_values (src/main.c:292): a real FFT of n samples has n / 2 + 1 bins. */
  function BinCount(nSamples: nat): nat
  {
    nSamples / 2 + 1
  }

  /** step_freq (src/main.c:296): the spacing of the bins. */
  function StepFreq(sampleRate: int, nSamples: nat): real
    requires nSamples > 0
  {
    sampleRate as real / nSamples as real
  }

  /** The axis as a sequence: bin i at i times the spacing. */
  function AxisValues(sampleRate: int, nSamples: nat): (axis: seq<real>)
    requires nSamples > 0
    ensures |axis| == BinCount(nSamples)
  {
    seq(BinCount(nSamples), i => StepFreq(sampleRate, nSamples) * i as real)
  }

  /**
   * The loop of src/main.c:299-301 filling graph_freq. The window size must
   * be positive: with n == 0 the step divides by zero.
   */
  method FrequencyAxisOf(sampleRate: int, nSamples: nat) returns (freq: array<real>)
    requires nSamples > 0
    ensures fresh(freq)
    ensures freq[..] == AxisValues(sampleRate, nSamples)
  {
    var step := StepFreq(sampleRate, nSamples);
    var count := BinCount(nSamples);
    ghost var axis := AxisValues(sampleRate, nSamples);
    freq := new real[count];
    for i := 0 to count
      invariant forall j :: 0 <= j < i ==> freq[j] == axis[j]
    {
      freq[i] := step * i as real;
      assert freq[i] == axis[i];
    }
    assert freq[..] == axis;
  }

  /** A larger multiple of a non-negative step is at least as large. */
  lemma StepMonotone(step: real, i: nat, j: nat)
    requires step >= 0.0 && i <= j
    ensures step * i as real <= step * j as real
  {
    assert step * j as real == step * i as real + step * (j - i) as real;
  }

  /** Bin i of at most n / 2 lies at or below the Nyquist frequency. */
  lemma BelowNyquist(rate: real, n: real, i: real)
    requires rate >= 0.0 && n > 0.0 && 0.0 <= i && 2.0 * i <= n
    ensures 0.0 <= (rate / n) * i <= rate / 2.0
  {
    var step := rate / n;
    assert step >= 0.0;
    assert step * n == rate;
    assert step * (2.0 * i) <= step * n;
    assert 2.0 * (step * i) == step * (2.0 * i);
  }

  /**
   * With a non-negative sample rate the axis is ascending, starts at 0 and
   * stays within the Nyquist frequency r / 2, so it meets the ordering that
   * output_init assumes (src/output.c:160).
   */
  lemma AxisAscending(sampleRate: int, nSamples: nat)
    requires nSamples > 0 && sampleRate >= 0
    ensures var axis := AxisValues(sampleRate, nSamples);
            Sorted(axis) && axis[0] == 0.0
            && forall i :: 0 <= i < |axis| ==> 0.0 <= axis[i] <= sampleRate as real / 2.0
  {
    var axis := AxisValues(sampleRate, nSamples);
    var step := StepFreq(sampleRate, nSamples);
    forall i, j | 0 <= i <= j < |axis|
      ensures axis[i] <= axis[j]
    {
      StepMonotone(step, i, j);
    }
    forall i | 0 <= i < |axis|
      ensures 0.0 <= axis[i] <= sampleRate as real / 2.0
    {
      StepMonotone(step, 0, i);
      BelowNyquist(sampleRate as real, nSamples as real, i as real);
    }
  }

  /** A negative sample rate gives a descending axis, which breaks that ordering. */
  lemma NegativeRateDescends(sampleRate: int, nSamples: nat)
    requires nSamples > 1 && sampleRate < 0
    ensures !Sorted(AxisValues(sampleRate, nSamples))
  {
    var axis := AxisValues(sampleRate, nSamples);
    assert axis[1] == StepFreq(sampleRate, nSamples) < 0.0 == axis[0];
  }
}
