/**
 * The PulseAudio calls that src/pulseaudio_follow_sink.c makes, recorded as
 * a trace. A stream handle is a number; what a call returns is an argument
 * of the model's method that makes the call.
 */
module PaTrace {
  import opened Wrappers

  /** A pa_stream* made by pa_stream_new. */
  type StreamId = nat

  /** One call into PulseAudio, the frame callback, or sleep(3). */
  datatype Effect =
    | ListSinks                                   // pa_context_get_sink_info_list
    | ReleaseOperation                            // pa_operation_unref
    | NewStream(id: StreamId)                     // pa_stream_new and both set_*_callback
    | NewStreamFailed                             // pa_stream_new returned NULL
    | ConnectRecord(id: StreamId, source: seq<char>)  // pa_stream_connect_record
    | Disconnect(id: StreamId)                    // pa_stream_disconnect
    | Release(id: StreamId)                       // pa_stream_unref
    | Deliver(window: seq<real>, silent: bool)    // output_cb on a full window
    | Sleep(seconds: nat)                         // sleep(wait_time_ms / 1000)
    | Flush(id: StreamId)                         // pa_stream_flush
    | Drop(id: StreamId)                          // pa_stream_drop
    | Subscribe                                   // set_subscribe_callback and pa_context_subscribe
    | Quit(code: int)                             // quit(): mainloop_api->quit

  /** Whether an effect neither makes nor releases a stream. */
  predicate KeepsStreams(e: Effect)
  {
    !e.NewStream? && !e.Release?
  }

  /** The streams the trace made and has not yet released. */
  ghost function LiveStreams(t: seq<Effect>): set<StreamId>
  {
    if t == [] then {}
    else
      var live, e := LiveStreams(t[..|t| - 1]), t[|t| - 1];
      if e.NewStream? then live + {e.id}
      else if e.Release? then live - {e.id}
      else live
  }

  /** The set holding the context's current stream, if it has one. */
  function Held(stream: Option<StreamId>): (s: set<StreamId>)
    ensures stream.None? <==> s == {}
    ensures forall id :: id in s <==> stream == Some(id)
  {
    if stream.Some? then {stream.value} else {}
  }

  /** Appending calls that neither make nor release a stream keeps the live streams. */
  lemma {:induction false} LiveAfterKeeping(t: seq<Effect>, u: seq<Effect>)
    requires forall k :: 0 <= k < |u| ==> KeepsStreams(u[k])
    ensures LiveStreams(t + u) == LiveStreams(t)
  {
    if u == [] {
      assert t + u == t;
    } else {
      var v, e := u[..|u| - 1], u[|u| - 1];
      LiveAfterKeeping(t, v);
      assert t + u == (t + v) + [e];
      LiveAfterOne(t + v, e);
    }
  }

  /** Appending one call: a made stream becomes live, a released one stops being live. */
  lemma LiveAfterOne(t: seq<Effect>, e: Effect)
    ensures e.NewStream? ==> LiveStreams(t + [e]) == LiveStreams(t) + {e.id}
    ensures e.Release? ==> LiveStreams(t + [e]) == LiveStreams(t) - {e.id}
    ensures KeepsStreams(e) ==> LiveStreams(t + [e]) == LiveStreams(t)
  {
    assert (t + [e])[..|t + [e]| - 1] == t;
  }

  /** The trace of Shutdown-style release: disconnecting and unreferencing the only stream leaves none. */
  lemma ReleaseOnly(t: seq<Effect>, id: StreamId)
    requires LiveStreams(t) == {id}
    ensures LiveStreams(t + [Disconnect(id), Release(id)]) == {}
  {
    LiveAfterOne(t, Disconnect(id));
    LiveAfterOne(t + [Disconnect(id)], Release(id));
    assert t + [Disconnect(id)] + [Release(id)] == t + [Disconnect(id), Release(id)];
  }
}
