/**
 * The follow-sink capture state machine of src/pulseaudio_follow_sink.c:
 * the state_t record as a class whose PulseAudio callbacks and control-loop
 * step update it. Every PulseAudio call is appended to the trace `effects`;
 * what a call returns (a peek failure, a failed disconnect, the state of the
 * sink-list operation, the frame callback's answer) is an argument of the
 * method making it.
 */
module FollowSink {
  import opened Wrappers
  import opened CTypes
  import opened PaTrace
  import opened WindowFill

  /** PA_INVALID_INDEX, (uint32_t) -1. */
  const InvalidIndex: Uint32 := 0xFFFF_FFFF
  /** The size of monitor_source_name. */
  const NameSize: nat := 256
  /** PA_SUBSCRIPTION_EVENT_FACILITY_MASK and PA_SUBSCRIPTION_EVENT_SINK. */
  const FacilityMask: bv32 := 0x000F
  const SinkFacility: bv32 := 0x0000

  /** pa_sink_state_t: only PA_SINK_RUNNING matters here. */
  datatype SinkState = SinkRunning | SinkIdle | SinkSuspended | SinkInvalidState
  /** pa_stream_state_t. */
  datatype StreamState = StreamUnconnected | StreamCreating | StreamReady | StreamFailed | StreamTerminated
  /** pa_context_state_t. */
  datatype ContextState =
    | ContextUnconnected | ContextConnecting | ContextAuthorizing | ContextSettingName
    | ContextReady | ContextFailed | ContextTerminated

  /** The fields of pa_sink_info the sink-list callback reads; the name is a C string without its NUL. */
  datatype SinkInfo = SinkInfo(index: Uint32, state: SinkState, monitorSourceName: seq<char>)

  /**
   * What pa_stream_peek hands back: a failure, a hole (data is NULL), or data
   * whose whole int16 samples (length / 2 of them) are `samples`, with
   * `aligned` telling whether the data pointer is 2-byte aligned.
   */
  datatype Peek = PeekFailed | PeekHole | PeekData(samples: seq<Int16>, aligned: bool)

  /** strncpy(dst, src, size): the characters of src, then NULs up to size. */
  function Padded(src: seq<char>, size: nat): (r: seq<char>)
    ensures |r| == size
    ensures forall k :: 0 <= k < size ==> r[k] == if k < |src| then src[k] else '\0'
  {
    seq(size, k requires 0 <= k < size => if k < |src| then src[k] else '\0')
  }

  /** The C string held by a buffer: the characters before its first NUL. */
  function CString(buf: seq<char>): (s: seq<char>)
    ensures NulFree(s) && s <= buf
    ensures |s| < |buf| ==> buf[|s|] == '\0'
  {
    if buf == [] || buf[0] == '\0' then [] else [buf[0]] + CString(buf[1..])
  }

  /** The name the sink-list callback keeps: at most 255 characters of the monitor source name. */
  function Kept(name: seq<char>): (r: seq<char>)
    ensures r <= name && |r| < NameSize
    ensures |name| < NameSize ==> r == name
  {
    if |name| < NameSize then name else name[..NameSize - 1]
  }

  /** A C string of fewer than size characters, padded, reads back as itself. */
  lemma {:induction false} PaddedReadsBack(src: seq<char>, size: nat)
    requires NulFree(src) && |src| < size
    ensures CString(Padded(src, size)) == src
  {
    if src != [] {
      PaddedReadsBack(src[1..], size - 1);
      assert Padded(src, size)[1..] == Padded(src[1..], size - 1);
    }
  }

  /**
   * strncpy into the 256-byte buffer leaves a NUL in its last byte exactly
   * when the name has at most 255 characters; overwriting that byte with a NUL
   * keeps the first 255 characters.
   */
  lemma StoredName(name: seq<char>)
    requires NulFree(name)
    ensures Padded(name, NameSize)[NameSize - 1] == '\0' <==> |name| < NameSize
    ensures |name| >= NameSize ==> Padded(name, NameSize)[NameSize - 1 := '\0'] == Padded(Kept(name), NameSize)
    ensures CString(Padded(Kept(name), NameSize)) == Kept(name)
  {
    if |name| >= NameSize {
      assert Padded(name, NameSize)[NameSize - 1] == name[NameSize - 1];
    }
    PaddedReadsBack(Kept(name), NameSize);
  }

  /** strncpy(dst, src, dst.Length). */
  method StrNCopy(dst: array<char>, src: seq<char>)
    modifies dst
    ensures dst[..] == Padded(src, dst.Length)
  {
    for k := 0 to dst.Length
      invariant forall j :: 0 <= j < k ==> dst[j] == if j < |src| then src[j] else '\0'
    {
      dst[k] := if k < |src| then src[k] else '\0';
    }
  }

  /** The calls the control loop makes about its sink-list operation (src/pulseaudio_follow_sink.c:257-262). */
  function OperationEffects(found: bool, operation: bool, operationRunning: bool): seq<Effect>
  {
    if !found && !operation then [ListSinks]
    else if operation && !operationRunning then [ReleaseOperation]
    else []
  }

  /**
   * The calls of a reopen (src/pulseaudio_follow_sink.c:270-290): disconnect
   * and release the old stream, quitting if the disconnect fails; then make
   * the new stream and connect it to the monitor source, quitting if it cannot
   * be made.
   */
  function ReopenEffects(stream: Option<StreamId>, disconnectOk: bool, createOk: bool, id: StreamId,
                         source: seq<char>): seq<Effect>
  {
    if stream.Some? && !disconnectOk then [Disconnect(stream.value), Quit(0)]
    else
      (if stream.Some? then [Disconnect(stream.value), Release(stream.value)] else [])
      + (if createOk then [NewStream(id), ConnectRecord(id, source)] else [NewStreamFailed, Quit(0)])
  }

  /** A reopen leaves the new stream as the only live one, or none if it could not be made. */
  lemma ReopenLive(t: seq<Effect>, stream: Option<StreamId>, createOk: bool, id: StreamId, source: seq<char>)
    requires LiveStreams(t) == Held(stream)
    ensures LiveStreams(t + ReopenEffects(stream, true, createOk, id, source))
         == if createOk then {id} else {}
  {
    var released := t + if stream.Some? then [Disconnect(stream.value), Release(stream.value)] else [];
    if stream.Some? {
      ReleaseOnly(t, stream.value);
    }
    if stream.None? {
      assert released == t;
    }
    if createOk {
      LiveAfterOne(released, NewStream(id));
      LiveAfterOne(released + [NewStream(id)], ConnectRecord(id, source));
      assert released + [NewStream(id)] + [ConnectRecord(id, source)] == released + [NewStream(id), ConnectRecord(id, source)];
    } else {
      LiveAfterKeeping(released, [NewStreamFailed, Quit(0)]);
    }
    assert t + ReopenEffects(stream, true, createOk, id, source)
        == released + if createOk then [NewStream(id), ConnectRecord(id, source)] else [NewStreamFailed, Quit(0)];
  }

  /** state_t together with the control loop's pa_operation and a source of fresh stream handles. */
  class State {
    /** n_samples and output_buffer, set once after reset_state. */
    const nSamples: nat
    const outputBuffer: array<real>
    /** monitor_source_name[256]. */
    const monitorName: array<char>

    var runningIndex: Uint32
    var found: bool
    var contextReady: bool
    var currentSourceIndex: Uint32
    /** state_t.stream; None is NULL. */
    var stream: Option<StreamId>
    var writeIndex: nat
    var bufferSilence: bool
    var flushInProgress: bool
    /** The pa_operation local of the control loop: whether it is non-NULL. */
    var operation: bool
    /** The handle the next pa_stream_new returns. */
    var nextStream: StreamId
    /** Every PulseAudio call made so far, in order. */
    var effects: seq<Effect>

    /**
     * Between callbacks: the write index is inside the window, the silence
     * flag says whether the part filled so far is all zeros, the name buffer
     * is terminated, and the only live stream is the one state_t points to.
     */
    ghost predicate Valid()
      reads this, outputBuffer, monitorName
    {
      && outputBuffer.Length == nSamples > 0
      && monitorName.Length == NameSize && monitorName[NameSize - 1] == '\0'
      && writeIndex < nSamples
      && (bufferSilence <==> Quiet(outputBuffer[..writeIndex]))
      && LiveStreams(effects) == Held(stream)
    }

    /**
     * reset_state (src/pulseaudio_follow_sink.c:56-76) followed by the
     * settings of pa_set_up_read_callback (lines 228-233).
     */
    constructor (n: nat, buffer: array<real>)
      requires buffer.Length == n > 0
      ensures Valid() && fresh(monitorName)
      ensures nSamples == n && outputBuffer == buffer
      ensures monitorName[0] == '\0' && CString(monitorName[..]) == []
      ensures runningIndex == 0 && !found && !contextReady && currentSourceIndex == InvalidIndex
      ensures stream == None && writeIndex == 0 && bufferSilence && !flushInProgress
      ensures !operation && effects == []
    {
      nSamples := n;
      outputBuffer := buffer;
      var name := new char[NameSize];
      name[0] := '\0';
      name[NameSize - 1] := '\0';
      monitorName := name;
      runningIndex := 0;
      found := false;
      contextReady := false;
      currentSourceIndex := InvalidIndex;
      stream := None;
      writeIndex := 0;
      bufferSilence := true;
      flushInProgress := false;
      operation := false;
      nextStream := 0;
      effects := [];
      new;
      assert outputBuffer[..0] == [];
    }

    /** pa_stream_flush_cb (src/pulseaudio_follow_sink.c:87-91): the flush is over. */
    method OnFlushComplete()
      requires Valid()
      modifies this`flushInProgress
      ensures Valid() && !flushInProgress
    {
      flushInProgress := false;
    }

    /**
     * pa_stream_state_cb (src/pulseaudio_follow_sink.c:92-105): a FAILED or
     * TERMINATED current stream is disconnected, released and forgotten.
     */
    method OnStreamState(s: StreamId, st: StreamState)
      requires Valid()
      modifies this`stream, this`effects
      ensures Valid()
      ensures (st.StreamFailed? || st.StreamTerminated?) && old(stream) == Some(s) ==>
                stream == None && effects == old(effects) + [Disconnect(s), Release(s)]
      ensures !((st.StreamFailed? || st.StreamTerminated?) && old(stream) == Some(s)) ==>
                stream == old(stream) && effects == old(effects)
    {
      if (st.StreamFailed? || st.StreamTerminated?) && stream == Some(s) {
        ReleaseOnly(effects, s);
        effects := effects + [Disconnect(s), Release(s)];
        stream := None;
      }
    }

    /** Whether a peeked batch is copied: data present, aligned, and no flush under way (line 119-120). */
    static predicate Copies(peek: Peek, flushing: bool)
    {
      peek.PeekData? && peek.aligned && !flushing
    }

    /**
     * pa_stream_read_cb (src/pulseaudio_follow_sink.c:106-160) on stream s
     * with `length` readable bytes. A peek failure forgets the sink and the
     * stream's source; otherwise the batch is copied into the window when
     * Copies holds, and the fragment is dropped. The k-th frame callback of the
     * batch answers waits(k).
     */
    method OnRead(s: StreamId, length: nat, peek: Peek, waits: nat -> nat)
      requires Valid()
      modifies this`found, this`currentSourceIndex, this`writeIndex, this`bufferSilence,
               this`flushInProgress, this`effects, outputBuffer
      ensures Valid()
      ensures length == 0 ==> unchanged(this) && unchanged(outputBuffer)
      ensures length > 0 && peek.PeekFailed? ==>
                && !found && currentSourceIndex == InvalidIndex
                && writeIndex == old(writeIndex) && bufferSilence == old(bufferSilence)
                && flushInProgress == old(flushInProgress) && effects == old(effects)
                && unchanged(outputBuffer)
      ensures length > 0 && !peek.PeekFailed? ==> found == old(found) && currentSourceIndex == old(currentSourceIndex)
      ensures length > 0 && !peek.PeekFailed? && !Copies(peek, old(flushInProgress)) ==>
                && writeIndex == old(writeIndex) && bufferSilence == old(bufferSilence)
                && flushInProgress == old(flushInProgress) && effects == old(effects) + [Drop(s)]
                && unchanged(outputBuffer)
      ensures length > 0 && Copies(peek, old(flushInProgress)) ==>
                var f := Feed(Start(old(outputBuffer[..]), old(writeIndex), old(bufferSilence)),
                              peek.samples, |peek.samples|, waits);
                && outputBuffer[..] == f.buf && writeIndex == f.w && bufferSilence == f.silent
                && flushInProgress == (f.wait != 0)
                && effects == old(effects) + BatchEffects(f, s) + [Drop(s)]
    {
      if length == 0 {
        return;
      }
      if peek.PeekFailed? {
        found := false;
        currentSourceIndex := InvalidIndex;
        return;
      }
      if Copies(peek, flushInProgress) {
        CopyBatch(s, peek.samples, waits);
      }
      LiveAfterOne(effects, Drop(s));
      effects := effects + [Drop(s)];
    }

    /**
     * The copy of one peeked batch into the window (src/pulseaudio_follow_sink.c:121-154):
     * the filler's new state is stored back, and a batch stopped by a wait
     * leaves a flush under way.
     */
    method CopyBatch(s: StreamId, samples: seq<Int16>, waits: nat -> nat)
      requires Valid()
      modifies this`writeIndex, this`bufferSilence, this`flushInProgress, this`effects, outputBuffer
      ensures Valid()
      ensures var f := Feed(Start(old(outputBuffer[..]), old(writeIndex), old(bufferSilence)), samples, |samples|, waits);
              && outputBuffer[..] == f.buf && writeIndex == f.w && bufferSilence == f.silent
              && flushInProgress == (f.wait != 0 || old(flushInProgress))
              && effects == old(effects) + BatchEffects(f, s)
    {
      ghost var f0 := Start(outputBuffer[..], writeIndex, bufferSilence);
      ghost var f := Feed(f0, samples, |samples|, waits);
      FeedDescribed(f0, samples, |samples|, waits);
      var w, silent, wait, out := FillWindow(outputBuffer, writeIndex, bufferSilence, samples, waits, s);
      writeIndex, bufferSilence := w, silent;
      if wait != 0 {
        flushInProgress := true;
      }
      BatchKeepsStreams(f, s);
      LiveAfterKeeping(effects, out);
      effects := effects + out;
    }

    /**
     * pa_event_cb (src/pulseaudio_follow_sink.c:163-182): an event of the
     * sink facility about the running sink makes the control loop look for
     * sinks again; any other event changes nothing.
     */
    method OnSinkEvent(t: bv32, sinkIndex: Uint32)
      requires Valid()
      modifies this`found
      ensures Valid()
      ensures found == (old(found) && !(t & FacilityMask == SinkFacility && runningIndex == sinkIndex))
    {
      if t & FacilityMask == SinkFacility && found && runningIndex == sinkIndex {
        found := false;
      }
    }

    /** pa_context_subscribe_completed_cb (src/pulseaudio_follow_sink.c:184-190): quit when subscribing failed. */
    method OnSubscribeCompleted(success: bool)
      requires Valid()
      modifies this`effects
      ensures Valid()
      ensures effects == old(effects) + if success then [] else [Quit(0)]
    {
      if !success {
        LiveAfterOne(effects, Quit(0));
        effects := effects + [Quit(0)];
      }
    }

    /**
     * pa_context_state_cb (src/pulseaudio_follow_sink.c:192-208): quit on a
     * failed or terminated context, subscribe to sink events once it is ready.
     */
    method OnContextState(st: ContextState)
      requires Valid()
      modifies this`contextReady, this`effects
      ensures Valid()
      ensures st.ContextFailed? || st.ContextTerminated? ==> effects == old(effects) + [Quit(0)] && contextReady == old(contextReady)
      ensures st.ContextReady? ==> effects == old(effects) + [Subscribe] && contextReady
      ensures !(st.ContextFailed? || st.ContextTerminated? || st.ContextReady?) ==> unchanged(this)
    {
      if st.ContextFailed? || st.ContextTerminated? {
        LiveAfterOne(effects, Quit(0));
        effects := effects + [Quit(0)];
      } else if st.ContextReady? {
        LiveAfterOne(effects, Subscribe);
        effects := effects + [Subscribe];
        contextReady := true;
      }
    }

    /**
     * pa_context_sink_list_cb (src/pulseaudio_follow_sink.c:210-223): for a
     * running sink the monitor source name is copied into the 256-byte buffer;
     * a name of at most 255 characters makes that sink the one to follow, a
     * longer one is kept truncated to 255 characters and changes nothing else.
     * The callback reads the sink info whenever eol <= 0.
     */
    method OnSinkInfo(eol: int, info: Option<SinkInfo>)
      requires Valid()
      requires eol <= 0 ==> info.Some? && NulFree(info.value.monitorSourceName)
      modifies this`runningIndex, this`found, monitorName
      ensures Valid()
      ensures eol <= 0 && info.value.state.SinkRunning? ==>
                var name := info.value.monitorSourceName;
                && monitorName[..] == Padded(Kept(name), NameSize)
                && CString(monitorName[..]) == Kept(name)
                && (|name| < NameSize ==> runningIndex == info.value.index && found)
                && (|name| >= NameSize ==> runningIndex == old(runningIndex) && found == old(found))
      ensures !(eol <= 0 && info.value.state.SinkRunning?) ==> unchanged(this) && unchanged(monitorName)
    {
      if eol <= 0 && info.value.state.SinkRunning? {
        var name := info.value.monitorSourceName;
        StrNCopy(monitorName, name);
        StoredName(name);
        if monitorName[NameSize - 1] == '\0' {
          runningIndex := info.value.index;
          found := true;
        } else {
          monitorName[NameSize - 1] := '\0';
        }
      }
    }

    /**
     * The sink-list part of the control loop (src/pulseaudio_follow_sink.c:257-262):
     * start listing sinks when no sink is known and no listing is under way;
     * otherwise release a listing that is no longer running.
     */
    method ManageOperation(operationRunning: bool)
      requires Valid()
      modifies this`operation, this`effects
      ensures Valid()
      ensures operation == (if !found && !old(operation) then true
                            else if old(operation) && !operationRunning then false
                            else old(operation))
      ensures effects == old(effects) + OperationEffects(found, old(operation), operationRunning)
    {
      var op := OperationEffects(found, operation, operationRunning);
      LiveAfterKeeping(effects, op);
      if !found && !operation {
        operation := true;
      } else if operation && !operationRunning {
        operation := false;
      }
      effects := effects + op;
    }

    /**
     * The reopen of the control loop (src/pulseaudio_follow_sink.c:264-294),
     * for a known sink whose index is not the stream's source: the old stream
     * is disconnected and released before a new one is made, and the stream's
     * source becomes the running sink. A failed disconnect quits and keeps
     * the old stream and source.
     */
    method Reopen(disconnectOk: bool, createOk: bool)
      requires Valid() && found && currentSourceIndex != runningIndex
      modifies this`stream, this`currentSourceIndex, this`nextStream, this`effects
      ensures Valid()
      ensures effects == old(effects) + ReopenEffects(old(stream), disconnectOk, createOk, old(nextStream),
                                                      CString(monitorName[..]))
      ensures old(stream).Some? && !disconnectOk ==>
                stream == old(stream) && currentSourceIndex == old(currentSourceIndex)
      ensures old(stream).None? || disconnectOk ==>
                && currentSourceIndex == runningIndex
                && stream == (if createOk then Some(old(nextStream)) else None)
      ensures nextStream == old(nextStream) + (if (old(stream).None? || disconnectOk) && createOk then 1 else 0)
    {
      var source := CString(monitorName[..]);
      if stream.Some? && !disconnectOk {
        LiveAfterKeeping(effects, [Disconnect(stream.value), Quit(0)]);
        effects := effects + [Disconnect(stream.value), Quit(0)];
        return;
      }
      ReopenLive(effects, stream, createOk, nextStream, source);
      ghost var t := effects;
      if stream.Some? {
        effects := effects + [Disconnect(stream.value), Release(stream.value)];
        stream := None;
      }
      if !createOk {
        effects := effects + [NewStreamFailed, Quit(0)];
      } else {
        stream := Some(nextStream);
        effects := effects + [NewStream(nextStream), ConnectRecord(nextStream, source)];
        nextStream := nextStream + 1;
      }
      assert effects == t + ReopenEffects(old(stream), disconnectOk, createOk, old(nextStream), source);
      currentSourceIndex := runningIndex;
    }

    /**
     * One pass of the control loop of pa_set_up_read_callback
     * (src/pulseaudio_follow_sink.c:256-294): nothing until the context is
     * ready; then the sink-list part, and a reopen when a sink is known whose
     * index is not the stream's source. Re-finding the sink the stream already
     * records does not reopen.
     */
    method ControlStep(operationRunning: bool, disconnectOk: bool, createOk: bool)
      requires Valid()
      modifies this`operation, this`stream, this`currentSourceIndex, this`nextStream, this`effects
      ensures Valid()
      ensures !contextReady ==> unchanged(this)
      ensures contextReady ==>
                operation == (if !found && !old(operation) then true
                              else if old(operation) && !operationRunning then false
                              else old(operation))
      ensures contextReady && !(found && old(currentSourceIndex) != runningIndex) ==>
                && stream == old(stream) && currentSourceIndex == old(currentSourceIndex)
                && nextStream == old(nextStream)
                && effects == old(effects) + OperationEffects(found, old(operation), operationRunning)
      ensures contextReady && found && old(currentSourceIndex) != runningIndex ==>
                && effects == old(effects) + OperationEffects(found, old(operation), operationRunning)
                              + ReopenEffects(old(stream), disconnectOk, createOk, old(nextStream), CString(monitorName[..]))
                && (old(stream).Some? && !disconnectOk ==>
                      stream == old(stream) && currentSourceIndex == old(currentSourceIndex))
                && (old(stream).None? || disconnectOk ==>
                      && currentSourceIndex == runningIndex
                      && stream == (if createOk then Some(old(nextStream)) else None))
                && nextStream == old(nextStream) + (if (old(stream).None? || disconnectOk) && createOk then 1 else 0)
    {
      if !contextReady {
        return;
      }
      ManageOperation(operationRunning);
      if found && currentSourceIndex != runningIndex {
        Reopen(disconnectOk, createOk);
      }
    }

    /** After the control loop (src/pulseaudio_follow_sink.c:298-302): release the stream, leaving none live. */
    method Shutdown()
      requires Valid()
      modifies this`stream, this`effects
      ensures Valid() && stream == None && LiveStreams(effects) == {}
      ensures old(stream).Some? ==> effects == old(effects) + [Disconnect(old(stream).value), Release(old(stream).value)]
      ensures old(stream).None? ==> effects == old(effects)
    {
      if stream.Some? {
        ReleaseOnly(effects, stream.value);
        effects := effects + [Disconnect(stream.value), Release(stream.value)];
        stream := None;
      }
    }
  }
}
