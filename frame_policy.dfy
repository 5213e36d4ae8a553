/**
 * The silence rule of the frame callback process_data_from_pa
 * (src/main.c:130-182): how long the input has been silent decides whether a
 * frame shows the spectrum, an all-zero graph or the silence line, and
 * whether the reader is asked to sleep. The FFT and the printing are not
 * part of this model; the time since the previous frame is a parameter.
 */
module FramePolicy {
  import opened CTypes

  /** What a frame puts on the terminal. */
  datatype Shown =
    | SilenceLine   // output_print_silence
    | EmptyGraph    // output_print of the all-zero graph
    | Graph         // output_print of the spectrum

  /** One answer: the silence counter afterwards, the returned sleep request, what is shown. */
  datatype Decision = Decision(time: real, wait: nat, shown: Shown)

  /** One call of the callback: the window's silence flag and the elapsed milliseconds. */
  datatype Input = Input(silence: bool, elapsed: real)

  /**
   * The rule of src/main.c:137-152, from the counter before the call. A
   * silent frame past the threshold shows the silence line and asks for the
   * sleep time without touching the counter; an earlier silent frame adds the
   * elapsed time and shows the empty graph; sound resets the counter.
   */
  function Decide(time: real, input: Input, waitMs: nat, sleepMs: nat): (d: Decision)
  {
    if input.silence then
      if time > waitMs as real then Decision(time, sleepMs, SilenceLine)
      else Decision(time + input.elapsed, 0, EmptyGraph)
    else Decision(0.0, 0, Graph)
  }

  /** The counter after a sequence of answers that started from time. */
  function After(time: real, answers: seq<Decision>): real
  {
    if answers == [] then time else answers[|answers| - 1].time
  }

  /** The answers of successive calls, starting from the counter time. */
  function Answers(time: real, inputs: seq<Input>, waitMs: nat, sleepMs: nat): (ds: seq<Decision>)
    ensures |ds| == |inputs|
  {
    if inputs == [] then []
    else
      var ds := Answers(time, inputs[..|inputs| - 1], waitMs, sleepMs);
      ds + [Decide(After(time, ds), inputs[|inputs| - 1], waitMs, sleepMs)]
  }

  /** The answers to a prefix of the calls are a prefix of the answers. */
  lemma {:induction false} AnswersPrefix(time: real, inputs: seq<Input>, m: nat, waitMs: nat, sleepMs: nat)
    requires m <= |inputs|
    ensures Answers(time, inputs[..m], waitMs, sleepMs) == Answers(time, inputs, waitMs, sleepMs)[..m]
  {
    if m < |inputs| {
      var p := inputs[..|inputs| - 1];
      assert inputs[..m] == p[..m];
      AnswersPrefix(time, p, m, waitMs, sleepMs);
    } else {
      assert inputs[..m] == inputs;
    }
  }

  /** The k-th answer is the rule applied to the counter left by the calls before it. */
  lemma AnswerAt(time: real, inputs: seq<Input>, k: nat, waitMs: nat, sleepMs: nat)
    requires k < |inputs|
    ensures var ds := Answers(time, inputs, waitMs, sleepMs);
            ds[k] == Decide(After(time, ds[..k]), inputs[k], waitMs, sleepMs)
  {
    var ds := Answers(time, inputs, waitMs, sleepMs);
    AnswersPrefix(time, inputs, k + 1, waitMs, sleepMs);
    AnswersPrefix(time, inputs, k, waitMs, sleepMs);
    assert inputs[..k + 1][..k] == inputs[..k];
    assert ds[..k + 1][..k] == ds[..k];
  }

  /** Sound always shows the spectrum, asks for no sleep and resets the counter to 0. */
  lemma SoundResets(time: real, inputs: seq<Input>, k: nat, waitMs: nat, sleepMs: nat)
    requires k < |inputs| && !inputs[k].silence
    ensures Answers(time, inputs, waitMs, sleepMs)[k] == Decision(0.0, 0, Graph)
  {
    AnswerAt(time, inputs, k, waitMs, sleepMs);
  }

  /** The silent call right after a sound call shows the empty graph and does not sleep. */
  lemma SilenceAfterSoundIsAwake(time: real, inputs: seq<Input>, k: nat, waitMs: nat, sleepMs: nat)
    requires k + 1 < |inputs| && !inputs[k].silence && inputs[k + 1].silence
    ensures var d := Answers(time, inputs, waitMs, sleepMs)[k + 1];
            d.wait == 0 && d.shown == EmptyGraph && d.time == inputs[k + 1].elapsed
  {
    var ds := Answers(time, inputs, waitMs, sleepMs);
    SoundResets(time, inputs, k, waitMs, sleepMs);
    AnswerAt(time, inputs, k + 1, waitMs, sleepMs);
    assert After(time, ds[..k + 1]) == 0.0;
  }

  /**
   * Once the counter is past the threshold, every further silent call shows
   * the silence line and asks for the sleep time, and the counter stays put.
   */
  lemma {:induction false} StaysAsleep(time: real, inputs: seq<Input>, waitMs: nat, sleepMs: nat)
    requires time > waitMs as real
    requires forall k :: 0 <= k < |inputs| ==> inputs[k].silence
    ensures forall k :: 0 <= k < |inputs| ==>
              Answers(time, inputs, waitMs, sleepMs)[k] == Decision(time, sleepMs, SilenceLine)
  {
    if inputs != [] {
      var p := inputs[..|inputs| - 1];
      StaysAsleep(time, p, waitMs, sleepMs);
      var ds := Answers(time, p, waitMs, sleepMs);
      assert After(time, ds) == time;
    }
  }

  /**
   * While silent calls keep arriving at least e milliseconds apart, the
   * counter either has passed the threshold or has grown by at least e per
   * call.
   */
  lemma {:induction false} SilenceAccumulates(time: real, inputs: seq<Input>, e: real, waitMs: nat, sleepMs: nat)
    requires forall k :: 0 <= k < |inputs| ==> inputs[k].silence && inputs[k].elapsed >= e
    ensures var t := After(time, Answers(time, inputs, waitMs, sleepMs));
            t > waitMs as real || t >= time + |inputs| as real * e
  {
    if inputs != [] {
      var p := inputs[..|inputs| - 1];
      SilenceAccumulates(time, p, e, waitMs, sleepMs);
      assert |inputs| as real * e == |p| as real * e + e;
    }
  }

  /** Enough silent calls, e milliseconds apart, bring the counter past the threshold. */
  lemma FallsAsleep(time: real, inputs: seq<Input>, e: real, waitMs: nat, sleepMs: nat)
    requires time >= 0.0
    requires forall k :: 0 <= k < |inputs| ==> inputs[k].silence && inputs[k].elapsed >= e
    requires |inputs| as real * e > waitMs as real
    ensures After(time, Answers(time, inputs, waitMs, sleepMs)) > waitMs as real
  {
    SilenceAccumulates(time, inputs, e, waitMs, sleepMs);
  }

  /** The fields of cb_info_t (src/main.c:113-128) that the silence rule uses. */
  class CallbackInfo {
    var timeWithoutSound: real
    const noSoundWaitTimeMs: Uint32
    const noSoundSleepTimeMs: Uint32

    /**
     * The initialiser at src/main.c:336-351: the counter starts at 0 and the
     * two int options are stored as unsigned int, modulo 2^32.
     */
    constructor (waitMs: int, sleepMs: int)
      ensures timeWithoutSound == 0.0
      ensures noSoundWaitTimeMs == waitMs % Uint32Modulus && noSoundSleepTimeMs == sleepMs % Uint32Modulus
    {
      timeWithoutSound := 0.0;
      noSoundWaitTimeMs := waitMs % Uint32Modulus;
      noSoundSleepTimeMs := sleepMs % Uint32Modulus;
    }

    /** process_data_from_pa (src/main.c:130-182) without the FFT and the printing. */
    method ProcessData(silence: bool, elapsed: real) returns (wait: nat, shown: Shown)
      modifies this`timeWithoutSound
      ensures Decision(timeWithoutSound, wait, shown)
              == Decide(old(timeWithoutSound), Input(silence, elapsed), noSoundWaitTimeMs, noSoundSleepTimeMs)
    {
      if silence {
        if timeWithoutSound > noSoundWaitTimeMs as real {
          return noSoundSleepTimeMs, SilenceLine;
        }
        timeWithoutSound := timeWithoutSound + elapsed;
        return 0, EmptyGraph;
      }
      timeWithoutSound := 0.0;
      return 0, Graph;
    }
  }
}
