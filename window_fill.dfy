/**
 * The sample-window filler of pa_stream_read_cb
 * (src/pulseaudio_follow_sink.c:119-154): int16 samples are copied one by one
 * into a window of n_samples doubles; a full window goes to the frame
 * callback with the flag "every sample in it was 0", and the window starts
 * again from position 0. When the callback answers a non-zero wait, the
 * filler sleeps, flushes the stream and abandons the rest of the batch.
 */
module WindowFill {
  import opened CTypes
  import opened PaTrace
  import opened Arithmetic

  /** A full window as the frame callback sees it. */
  datatype Frame = Frame(window: seq<real>, silent: bool)

  /**
   * The filler's state after some samples of a batch: the window, the
   * write index, the silence flag, the frames delivered in this batch and the
   * wait the last of them answered when it stopped the batch (0 while the
   * batch goes on).
   */
  datatype Fill = Fill(buf: seq<real>, w: nat, silent: bool, frames: seq<Frame>, wait: nat)

  /** The state at the start of a batch. */
  function Start(buf: seq<real>, w: nat, silent: bool): (f: Fill)
    ensures f.frames == [] && f.wait == 0
  {
    Fill(buf, w, silent, [], 0)
  }

  /** Whether every value of a window prefix is 0. */
  ghost predicate Quiet(s: seq<real>)
  {
    forall p :: 0 <= p < |s| ==> s[p] == 0.0
  }

  /** Store one sample at the write index (the inner loop body of src/pulseaudio_follow_sink.c:136-139). */
  function Written(f: Fill, x: Int16): (g: Fill)
    requires f.w < |f.buf|
    ensures |g.buf| == |f.buf| && g.w == f.w + 1
  {
    Fill(f.buf[f.w := x as real], f.w + 1, f.silent && x == 0, f.frames, f.wait)
  }

  /**
   * Deliver a full window (src/pulseaudio_follow_sink.c:141-150): the k-th
   * callback of the batch answers waits(k); the window restarts at 0 with the
   * silence flag set. A window that is not full is left alone.
   */
  function Emit(f: Fill, waits: nat -> nat): (g: Fill)
    requires f.w <= |f.buf|
    ensures |g.buf| == |f.buf| && (g.w < |g.buf| || f.w == |f.buf| == 0)
  {
    if f.w == |f.buf| then Fill(f.buf, 0, true, f.frames + [Frame(f.buf, f.silent)], waits(|f.frames|))
    else f
  }

  /** The filler after the first i samples of a batch: one sample at a time, nothing once stopped. */
  function Feed(f0: Fill, samples: seq<Int16>, i: nat, waits: nat -> nat): (f: Fill)
    requires f0.w < |f0.buf| && i <= |samples|
    ensures |f.buf| == |f0.buf| && f.w < |f.buf|
    decreases i
  {
    if i == 0 then f0
    else
      var f := Feed(f0, samples, i - 1, waits);
      if f.wait != 0 then f else Emit(Written(f, samples[i - 1]), waits)
  }

  /** The frame callbacks of a batch, in order. */
  function Deliveries(frames: seq<Frame>): (es: seq<Effect>)
    ensures |es| == |frames|
    ensures forall k :: 0 <= k < |frames| ==> es[k] == Deliver(frames[k].window, frames[k].silent)
  {
    if frames == [] then []
    else Deliveries(frames[..|frames| - 1]) + [Deliver(frames[|frames| - 1].window, frames[|frames| - 1].silent)]
  }

  /** What a batch hands to PulseAudio and the frame callback: the deliveries, then a sleep and a flush if it stopped. */
  function BatchEffects(f: Fill, s: StreamId): seq<Effect>
  {
    Deliveries(f.frames) + if f.wait != 0 then [Sleep(f.wait / 1000), Flush(s)] else []
  }

  /** The windows of a sequence of frames, one after the other. */
  function Windows(frames: seq<Frame>): seq<real>
  {
    if frames == [] then [] else Windows(frames[..|frames| - 1]) + frames[|frames| - 1].window
  }

  /** Samples as the doubles the window holds. */
  function Reals(samples: seq<Int16>): (r: seq<real>)
    ensures |r| == |samples|
    ensures forall k :: 0 <= k < |samples| ==> r[k] == samples[k] as real
  {
    seq(|samples|, k requires 0 <= k < |samples| => samples[k] as real)
  }

  // ---------------------------------------------------------------- properties of Feed

  /** Once a callback has asked to wait, the rest of the batch changes nothing. */
  lemma {:induction false} FeedStopped(f0: Fill, samples: seq<Int16>, i: nat, j: nat, waits: nat -> nat)
    requires f0.w < |f0.buf| && i <= j <= |samples|
    requires Feed(f0, samples, i, waits).wait != 0
    ensures Feed(f0, samples, j, waits) == Feed(f0, samples, i, waits)
    decreases j
  {
    if j > i {
      FeedStopped(f0, samples, i, j - 1, waits);
    }
  }

  /** The invariant of the filler: every window has n values and the silence flags describe their windows. */
  ghost predicate Described(f: Fill)
  {
    && f.w <= |f.buf|
    && (f.silent <==> Quiet(f.buf[..f.w]))
    && (forall k :: 0 <= k < |f.frames| ==> |f.frames[k].window| == |f.buf|)
    && (forall k :: 0 <= k < |f.frames| ==> (f.frames[k].silent <==> Quiet(f.frames[k].window)))
  }

  /** A prefix stays quiet with one more value exactly when that value is 0. */
  lemma QuietAppend(s: seq<real>, v: real)
    ensures Quiet(s + [v]) <==> Quiet(s) && v == 0.0
  {
    if Quiet(s + [v]) {
      assert (s + [v])[|s|] == v;
      forall p | 0 <= p < |s|
        ensures s[p] == 0.0
      {
        assert (s + [v])[p] == s[p];
      }
    }
  }

  /** Storing a sample keeps the silence flag equal to "every stored value is 0". */
  lemma WrittenDescribed(f: Fill, x: Int16)
    requires f.w < |f.buf| && Described(f)
    ensures Described(Written(f, x))
  {
    var g := Written(f, x);
    assert g.buf[..g.w] == f.buf[..f.w] + [x as real];
    QuietAppend(f.buf[..f.w], x as real);
  }

  /** Delivering a full window hands over a flag that describes it and restarts with an empty quiet part. */
  lemma EmitDescribed(g: Fill, waits: nat -> nat)
    requires Described(g)
    ensures Described(Emit(g, waits))
  {
    if g.w == |g.buf| {
      assert g.buf[..g.w] == g.buf;
      var h := Emit(g, waits);
      assert h.buf[..h.w] == [];
      assert h.frames[|h.frames| - 1] == Frame(g.buf, g.silent);
    }
  }

  /**
   * The silence flag handed to output_cb is true exactly when every value of
   * the window is 0, provided the flag described the part of the window filled
   * before the batch; the flag kept for the next batch describes the new part.
   */
  lemma {:induction false} FeedDescribed(f0: Fill, samples: seq<Int16>, i: nat, waits: nat -> nat)
    requires f0.w < |f0.buf| && i <= |samples| && Described(f0)
    ensures Described(Feed(f0, samples, i, waits))
    decreases i
  {
    if i > 0 {
      var f := Feed(f0, samples, i - 1, waits);
      FeedDescribed(f0, samples, i - 1, waits);
      if f.wait == 0 {
        WrittenDescribed(f, samples[i - 1]);
        EmitDescribed(Written(f, samples[i - 1]), waits);
      }
    }
  }

  /** A batch that started in the filler's state at some write index. */
  ghost predicate Fresh(f0: Fill)
  {
    f0.frames == [] && f0.wait == 0 && f0.w < |f0.buf|
  }

  /** The windows of the frames delivered so far have n values each. */
  lemma {:induction false} WindowsLength(frames: seq<Frame>, n: nat)
    requires forall k :: 0 <= k < |frames| ==> |frames[k].window| == n
    ensures |Windows(frames)| == |frames| * n
  {
    if frames != [] {
      WindowsLength(frames[..|frames| - 1], n);
      assert |frames| * n == (|frames| - 1) * n + n;
    }
  }

  /**
   * No sample is lost or duplicated: the delivered windows, followed by the
   * part of the window filled so far, are the part of the window filled before
   * the batch followed by the samples read, up to the point where a callback
   * stopped the batch, and exactly those samples while it has not stopped.
   */
  lemma {:induction false} FeedInOrder(f0: Fill, samples: seq<Int16>, i: nat, waits: nat -> nat)
    requires Fresh(f0) && i <= |samples|
    ensures InOrder(Feed(f0, samples, i, waits), f0.buf[..f0.w] + Reals(samples[..i]), |f0.buf|)
    decreases i
  {
    if i == 0 {
      assert Reals(samples[..0]) == [];
      assert f0.buf[..f0.w] + Reals(samples[..0]) == f0.buf[..f0.w];
    } else {
      FeedInOrder(f0, samples, i - 1, waits);
      var before := f0.buf[..f0.w] + Reals(samples[..i - 1]);
      assert f0.buf[..f0.w] + Reals(samples[..i]) == before + [samples[i - 1] as real];
      InOrderStep(Feed(f0, samples, i - 1, waits), samples[i - 1], before, waits);
    }
  }

  /** What FeedInOrder states about one state of the filler and the values it was given. */
  ghost predicate InOrder(f: Fill, given: seq<real>, n: nat)
  {
    && f.w <= |f.buf| == n
    && Windows(f.frames) + f.buf[..f.w] <= given
    && (f.wait == 0 ==> Windows(f.frames) + f.buf[..f.w] == given)
    && (f.wait != 0 ==> f.w == 0)
    && (forall k :: 0 <= k < |f.frames| ==> |f.frames[k].window| == n)
  }

  /** One step of Feed keeps InOrder. */
  lemma InOrderStep(f: Fill, x: Int16, given: seq<real>, waits: nat -> nat)
    requires f.w < |f.buf| && InOrder(f, given, |f.buf|)
    ensures InOrder(if f.wait != 0 then f else Emit(Written(f, x), waits), given + [x as real], |f.buf|)
  {
    var stream := given + [x as real];
    if f.wait == 0 {
      var g := Written(f, x);
      assert g.buf[..g.w] == f.buf[..f.w] + [x as real];
      assert Windows(g.frames) + g.buf[..g.w] == stream;
      if g.w == |g.buf| {
        var h := Emit(g, waits);
        assert h.frames[..|h.frames| - 1] == g.frames;
        assert g.buf[..g.w] == g.buf;
        assert h.buf[..h.w] == [];
        assert Windows(h.frames) + h.buf[..h.w] == Windows(g.frames) + g.buf;
      }
    } else {
      assert given <= stream;
    }
  }

  /**
   * With no wait requested, a batch of L samples starting at write index w
   * makes exactly (w + L) / n callbacks and leaves the write index at
   * (w + L) % n.
   */
  lemma FeedCounts(f0: Fill, samples: seq<Int16>, waits: nat -> nat)
    requires Fresh(f0) && forall k :: waits(k) == 0
    ensures var f := Feed(f0, samples, |samples|, waits);
            var n := |f0.buf|;
            && f.wait == 0
            && |f.frames| == (f0.w + |samples|) / n
            && f.w == (f0.w + |samples|) % n
  {
    var f := Feed(f0, samples, |samples|, waits);
    var n := |f0.buf|;
    FeedInOrder(f0, samples, |samples|, waits);
    FeedAnswers(f0, samples, |samples|, waits);
    WindowsLength(f.frames, n);
    assert |f0.buf[..f0.w] + Reals(samples[..|samples|])| == f0.w + |samples|;
    assert |Windows(f.frames) + f.buf[..f.w]| == |f.frames| * n + f.w;
    DivModOf(f0.w + |samples|, n, |f.frames|, f.w);
  }

  /**
   * The batch goes on while the callbacks answer 0: every frame but the last
   * answered 0, and the batch's wait is the last frame's answer.
   */
  lemma {:induction false} FeedAnswers(f0: Fill, samples: seq<Int16>, i: nat, waits: nat -> nat)
    requires Fresh(f0) && i <= |samples|
    ensures var f := Feed(f0, samples, i, waits);
            && (forall k :: 0 <= k < |f.frames| - 1 ==> waits(k) == 0)
            && f.wait == (if f.frames == [] then 0 else waits(|f.frames| - 1))
    decreases i
  {
    if i > 0 {
      FeedAnswers(f0, samples, i - 1, waits);
    }
  }

  /** A wait k from the callback is slept as k / 1000 whole seconds before the stream is flushed. */
  lemma StopEffects(f: Fill, s: StreamId)
    requires f.wait != 0
    ensures var es := BatchEffects(f, s);
            && |es| == |f.frames| + 2
            && es[|es| - 2] == Sleep(f.wait / 1000) && es[|es| - 1] == Flush(s)
  {
  }

  /** A batch only calls the frame callback, sleep and a flush: it keeps the live streams. */
  lemma BatchKeepsStreams(f: Fill, s: StreamId)
    ensures forall k :: 0 <= k < |BatchEffects(f, s)| ==> KeepsStreams(BatchEffects(f, s)[k])
  {
    var es := BatchEffects(f, s);
    forall k | 0 <= k < |es|
      ensures KeepsStreams(es[k])
    {
      if k < |f.frames| {
        assert es[k] == Deliveries(f.frames)[k];
      }
    }
  }

  /** The filler after storing the samples xs from its write index on, before any delivery. */
  function Run(f: Fill, xs: seq<Int16>): (g: Fill)
    requires f.w + |xs| <= |f.buf|
    ensures |g.buf| == |f.buf| && g.w == f.w + |xs| && g.frames == f.frames && g.wait == f.wait
    decreases |xs|
  {
    if xs == [] then f else Written(Run(f, xs[..|xs| - 1]), xs[|xs| - 1])
  }

  /**
   * Storing count samples in a row that fit in the window, then delivering the
   * window if it is full, is what Feed does with them one at a time.
   */
  lemma {:induction false} FeedRun(f0: Fill, samples: seq<Int16>, i: nat, count: nat, waits: nat -> nat)
    requires f0.w < |f0.buf| && i + count <= |samples|
    requires Feed(f0, samples, i, waits).wait == 0
    requires Feed(f0, samples, i, waits).w + count <= |f0.buf|
    ensures Feed(f0, samples, i + count, waits) == Emit(Run(Feed(f0, samples, i, waits), samples[i..i + count]), waits)
    decreases count
  {
    var f := Feed(f0, samples, i, waits);
    if count == 0 {
      assert samples[i..i] == [];
    } else {
      var ys := samples[i..i + count - 1];
      FeedRun(f0, samples, i, count - 1, waits);
      assert Feed(f0, samples, i + count - 1, waits) == Run(f, ys);
      assert samples[i..i + count][..count - 1] == ys;
    }
  }

  // ---------------------------------------------------------------- the loop

  /** The for loop of src/pulseaudio_follow_sink.c:136-139: count samples from samples[i] on, stored from w0 on. */
  method CopySamples(buf: array<real>, w0: nat, silent0: bool, samples: seq<Int16>, i0: nat, count: nat,
                     ghost frames: seq<Frame>)
    returns (w: nat, silent: bool)
    requires w0 + count <= buf.Length && i0 + count <= |samples|
    modifies buf
    ensures Fill(buf[..], w, silent, frames, 0) == Run(Fill(old(buf[..]), w0, silent0, frames, 0), samples[i0..i0 + count])
  {
    ghost var f0 := Fill(buf[..], w0, silent0, frames, 0);
    w, silent := w0, silent0;
    var i := i0;
    var limit := w0 + count;
    while w < limit
      invariant w0 <= w <= limit && i == i0 + (w - w0)
      invariant Fill(buf[..], w, silent, frames, 0) == Run(f0, samples[i0..i])
    {
      ghost var before := Fill(buf[..], w, silent, frames, 0);
      buf[w] := samples[i] as real;
      silent := silent && samples[i] == 0;
      assert buf[..] == before.buf[w := samples[i] as real];
      assert samples[i0..i + 1][..i - i0] == samples[i0..i];
      i, w := i + 1, w + 1;
    }
  }

  /**
   * One round of the while loop up to the delivery test
   * (src/pulseaudio_follow_sink.c:128-139): the samples that still fit in the
   * window are stored; the remaining length drops to 0 when all of them fit.
   */
  method CopyRound(buf: array<real>, w0: nat, silent0: bool, samples: seq<Int16>, i0: nat, length0: nat,
                   ghost f0: Fill, ghost frames: seq<Frame>, waits: nat -> nat)
    returns (w: nat, silent: bool, i: nat, length: nat)
    requires f0.w < |f0.buf| && i0 + length0 == |samples| && w0 < buf.Length && length0 > 0
    requires Fill(buf[..], w0, silent0, frames, 0) == Feed(f0, samples, i0, waits)
    modifies buf
    ensures i0 < i && i + length == |samples| && w <= buf.Length && (w < buf.Length ==> length == 0)
    ensures Feed(f0, samples, i, waits) == Emit(Fill(buf[..], w, silent, frames, 0), waits)
  {
    var n := buf.Length;
    var limit := n;
    length := length0;
    if limit > w0 + length {
      limit := w0 + length;
      length := 0;
    } else {
      length := length - (n - w0);
    }
    var count := limit - w0;
    w, silent := CopySamples(buf, w0, silent0, samples, i0, count, frames);
    FeedRun(f0, samples, i0, count, waits);
    i := i0 + count;
  }

  /**
   * The while loop of src/pulseaudio_follow_sink.c:127-154 over a window of
   * buf.Length samples, starting at write index w0 with silence flag silent0.
   * The k-th callback of the batch answers waits(k).
   */
  method FillWindow(buf: array<real>, w0: nat, silent0: bool, samples: seq<Int16>, waits: nat -> nat, s: StreamId)
    returns (w: nat, silent: bool, wait: nat, out: seq<Effect>)
    requires w0 < buf.Length
    modifies buf
    ensures var f := Feed(Start(old(buf[..]), w0, silent0), samples, |samples|, waits);
            && buf[..] == f.buf && w == f.w && silent == f.silent && wait == f.wait
            && out == BatchEffects(f, s)
  {
    ghost var f0 := Start(buf[..], w0, silent0);
    var n := buf.Length;
    w, silent, wait, out := w0, silent0, 0, [];
    ghost var frames: seq<Frame> := [];
    var length: nat := |samples|;
    var i: nat := 0;
    var k: nat := 0;
    while length > 0
      invariant i + length == |samples| && w < n && k == |frames|
      invariant Fill(buf[..], w, silent, frames, 0) == Feed(f0, samples, i, waits)
      invariant out == Deliveries(frames) && wait == 0
      decreases length
    {
      w, silent, i, length := CopyRound(buf, w, silent, samples, i, length, f0, frames, waits);
      ghost var run := Fill(buf[..], w, silent, frames, 0);
      ghost var next := Feed(f0, samples, i, waits);
      if w == n {
        var answer := waits(k);
        out := out + [Deliver(buf[..], silent)];
        ghost var prev := frames;
        frames := prev + [Frame(buf[..], silent)];
        assert frames[..|frames| - 1] == prev;
        k := k + 1;
        w, silent := 0, true;
        assert next == Fill(buf[..], w, silent, frames, answer);
        if answer != 0 {
          wait := answer;
          FeedStopped(f0, samples, i, |samples|, waits);
          out := out + [Sleep(answer / 1000), Flush(s)];
          ghost var f := Fill(buf[..], w, silent, frames, wait);
          assert f == next;
          assert f == Feed(f0, samples, |samples|, waits);
          assert out == BatchEffects(f, s);
          return;
        }
      } else {
        assert length == 0 && next == run;
        break;
      }
    }
    ghost var f := Fill(buf[..], w, silent, frames, wait);
    assert f == Feed(f0, samples, i, waits);
    assert i == |samples|;
    assert out == BatchEffects(f, s);
  }
}
