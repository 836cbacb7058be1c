/** The playout engine: one session per playing track, keyed by its
    playlist track id, with start, throttled update and end telemetry. The
    audio stream itself is outside the model; `Start`, `Callback` and
    `Finish` are the three points at which `_play` and its stream callback
    touch the engine's state. Clock readings and the transport's success
    are parameters. */
module Engine {

  import opened Wrappers
  import opened Catalog
  import opened Telemetry

  /** The name of the envelope key that holds the event name. */
  const EventKey: string := "event"

  datatype StartOutcome = Started | StartKeyError
  datatype CallbackOutcome = PaContinue | CallbackKeyError
  datatype FinishOutcome = Finished(removed: bool) | EndKeyError

  /** The per-track order of a message log, given how many times each
      track id has had a start emitted, is still open, or has had its end
      emitted: for every id played once, a start and updates, followed by
      one end once it has ended. */
  ghost predicate Ordered(log: seq<Message>, starts: multiset<string>, open: multiset<string>, ended: multiset<string>)
  {
    && open + ended <= starts
    && (forall id {:trigger Events(log, id)} :: starts[id] == 0 ==> Events(log, id) == [])
    && (forall id {:trigger Events(log, id)} :: starts[id] == 1 && ended[id] == 0 ==> OpenRun(Events(log, id)))
    && (forall id {:trigger Events(log, id)} :: starts[id] == 1 && ended[id] == 1 ==> ClosedRun(Events(log, id)))
  }

  /** Appending a message about one track leaves every other track's
      events as they were. */
  lemma OthersUnchanged(log: seq<Message>, m: Message)
    ensures forall other :: other != PayloadTrackId(m.data) ==> Events(log + [m], other) == Events(log, other)
    ensures Events(log + [m], PayloadTrackId(m.data)) == Events(log, PayloadTrackId(m.data)) + [m.event]
  {
    forall other ensures Events(log + [m], other) == Events(log, other) + (if PayloadTrackId(m.data) == other then [m.event] else []) {
      EventsAppend(log, m, other);
    }
  }

  /** A start opens a stream for its track. */
  lemma OrderedAfterStart(log: seq<Message>, starts: multiset<string>, open: multiset<string>, ended: multiset<string>, m: Message, id: string)
    requires Ordered(log, starts, open, ended) && m.event == StreamStart && PayloadTrackId(m.data) == id
    ensures Ordered(log + [m], starts + multiset{id}, open + multiset{id}, ended)
  {
    OthersUnchanged(log, m);
  }

  /** An update for an open stream keeps the order. */
  lemma OrderedAfterUpdate(log: seq<Message>, starts: multiset<string>, open: multiset<string>, ended: multiset<string>, m: Message, id: string)
    requires Ordered(log, starts, open, ended) && m.event == StreamUpdate && PayloadTrackId(m.data) == id && open[id] > 0
    ensures Ordered(log + [m], starts, open, ended)
  {
    OthersUnchanged(log, m);
    if starts[id] == 1 {
      RunsExtend(Events(log, id));
    }
  }

  /** The end of an open stream closes its track's run. */
  lemma OrderedAfterEnd(log: seq<Message>, starts: multiset<string>, open: multiset<string>, ended: multiset<string>, m: Message, id: string)
    requires Ordered(log, starts, open, ended) && m.event == StreamEnd && PayloadTrackId(m.data) == id && open[id] > 0
    ensures Ordered(log + [m], starts, open - multiset{id}, ended + multiset{id})
  {
    OthersUnchanged(log, m);
    if starts[id] == 1 {
      RunsExtend(Events(log, id));
    }
  }

  /** A stream that stops without its end being sent leaves the order as
      it was. */
  lemma OrderedAfterAbort(log: seq<Message>, starts: multiset<string>, open: multiset<string>, ended: multiset<string>, id: string)
    requires Ordered(log, starts, open, ended)
    ensures Ordered(log, starts, open - multiset{id}, ended)
  {
  }

  /** The per-track order over replays. A track id is `overlapped` once it
      has been started again while its previous stream was still open; for
      every other id at most one stream is open, its events are a history
      of plays, and while a stream is open the last of them is not an end. */
  ghost predicate Replayed(log: seq<Message>, open: multiset<string>, overlapped: set<string>)
  {
    forall id {:trigger Events(log, id)} :: id !in overlapped ==>
      && open[id] <= 1
      && Plays(Events(log, id))
      && (open[id] == 1 ==> Events(log, id) != [] && Events(log, id)[|Events(log, id)| - 1] != StreamEnd)
  }

  /** A start begins a new play, or marks the id overlapped when its
      previous stream is still open. */
  lemma ReplayedAfterStart(log: seq<Message>, open: multiset<string>, overlapped: set<string>, m: Message, id: string)
    requires Replayed(log, open, overlapped) && m.event == StreamStart && PayloadTrackId(m.data) == id
    ensures Replayed(log + [m], open + multiset{id}, if open[id] > 0 then overlapped + {id} else overlapped)
  {
    OthersUnchanged(log, m);
    assert StreamStart[7] != StreamEnd[7];
    if id !in overlapped {
      PlaysSnoc(Events(log, id), StreamStart);
    }
  }

  /** An update for an open stream extends the current play. */
  lemma ReplayedAfterUpdate(log: seq<Message>, open: multiset<string>, overlapped: set<string>, m: Message, id: string)
    requires Replayed(log, open, overlapped) && m.event == StreamUpdate && PayloadTrackId(m.data) == id && open[id] > 0
    ensures Replayed(log + [m], open, overlapped)
  {
    OthersUnchanged(log, m);
    assert StreamUpdate[7] != StreamEnd[7];
    if id !in overlapped {
      PlaysSnoc(Events(log, id), StreamUpdate);
    }
  }

  /** The end of an open stream closes the current play. */
  lemma ReplayedAfterEnd(log: seq<Message>, open: multiset<string>, overlapped: set<string>, m: Message, id: string)
    requires Replayed(log, open, overlapped) && m.event == StreamEnd && PayloadTrackId(m.data) == id && open[id] > 0
    ensures Replayed(log + [m], open - multiset{id}, overlapped)
  {
    OthersUnchanged(log, m);
    if id !in overlapped {
      PlaysSnoc(Events(log, id), StreamEnd);
    }
  }

  /** A stream that stops without its end leaves the history as it was. */
  lemma ReplayedAfterAbort(log: seq<Message>, open: multiset<string>, overlapped: set<string>, id: string)
    requires Replayed(log, open, overlapped)
    ensures Replayed(log, open - multiset{id}, overlapped)
  {
  }

  class Ape {
    /** The device table, index to name, read once at start-up. */
    const devices: map<int, string>
    /** The `playing` table, track id to session. */
    var playing: map<string, Session>
    /** Messages the transport accepted. */
    var sent: seq<Message>
    /** Every message `emit_message` built, in order, whether or not the
        transport accepted it. */
    ghost var log: seq<Message>
    /** Per track id: start events emitted, streams still open, end events
        emitted. */
    ghost var starts: multiset<string>
    ghost var open: multiset<string>
    ghost var ended: multiset<string>
    /** Track ids started again while their stream was still open. */
    ghost var overlapped: set<string>

    /** For every track id played once, its events so far are a start and
        updates, followed by one end once it has ended; for every id never
        started over an open stream, a history of plays. */
    ghost predicate Valid()
      reads this`log, this`starts, this`open, this`ended, this`overlapped
    {
      Ordered(log, starts, open, ended) && Replayed(log, open, overlapped)
    }

    constructor(devices: map<int, string>)
      ensures Valid()
      ensures this.devices == devices && playing == map[] && sent == [] && log == []
    {
      this.devices := devices;
      playing := map[];
      sent := [];
      log := [];
      starts, open, ended := multiset{}, multiset{}, multiset{};
      overlapped := {};
      new;
      forall id | starts[id] == 0 ensures Events(log, id) == [] {
      }
    }

    /** `emit_message`: wrap and send; a failing send is logged and
        swallowed, so the caller never sees it. */
    method EmitMessage(event: string, data: Payload, now: int, transportOk: bool)
      modifies this`log, this`sent
      ensures log == old(log) + [Wrap(now, EventKey, event, data)]
      ensures sent == old(sent) + (if transportOk then [Wrap(now, EventKey, event, data)] else [])
    {
      var m := Wrap(now, EventKey, event, data);
      log := log + [m];
      if transportOk {
        sent := sent + [m];
      }
    }

    /** `emit_track_start`; the device lookup raises before anything is sent
        when the chosen device is not in the table. */
    method EmitTrackStart(track: Track, output: Option<int>, now: int, transportOk: bool) returns (ok: bool)
      modifies this`log, this`sent
      ensures ok <==> DeviceField(devices, output).Some?
      ensures ok ==> log == old(log) + [Wrap(now, EventKey, StreamStart, StartPayload(track, DeviceField(devices, output).value))]
      ensures !ok ==> log == old(log) && sent == old(sent)
      ensures ok ==> sent == old(sent) + (if transportOk then [log[|log| - 1]] else [])
    {
      var device := DeviceField(devices, output);
      if device.None? {
        return false;
      }
      EmitMessage(StreamStart, StartPayload(track, device.value), now, transportOk);
      return true;
    }

    /** `emit_track_update`. */
    method EmitTrackUpdate(track: Track, output: Option<int>, status: int, now: int, transportOk: bool) returns (ok: bool)
      modifies this`log, this`sent
      ensures ok <==> DeviceField(devices, output).Some?
      ensures ok ==> log == old(log) + [Wrap(now, EventKey, StreamUpdate, UpdatePayload(track, DeviceField(devices, output).value, status))]
      ensures !ok ==> log == old(log) && sent == old(sent)
      ensures ok ==> sent == old(sent) + (if transportOk then [log[|log| - 1]] else [])
    {
      var device := DeviceField(devices, output);
      if device.None? {
        return false;
      }
      EmitMessage(StreamUpdate, UpdatePayload(track, device.value, status), now, transportOk);
      return true;
    }

    /** `emit_track_end`. */
    method EmitTrackEnd(track: Track, output: Option<int>, now: int, transportOk: bool) returns (ok: bool)
      modifies this`log, this`sent
      ensures ok <==> DeviceField(devices, output).Some?
      ensures ok ==> log == old(log) + [Wrap(now, EventKey, StreamEnd, EndPayload(track, DeviceField(devices, output).value))]
      ensures !ok ==> log == old(log) && sent == old(sent)
      ensures ok ==> sent == old(sent) + (if transportOk then [log[|log| - 1]] else [])
    {
      var device := DeviceField(devices, output);
      if device.None? {
        return false;
      }
      EmitMessage(StreamEnd, EndPayload(track, device.value), now, transportOk);
      return true;
    }

    /** The first part of `_play`: register the session with
        `last_track_update` set to now, then emit the start. The session is
        registered even when the start raises; the stream is then never
        opened. */
    method Start(track: Track, output: Option<int>, now: int, transportOk: bool) returns (r: StartOutcome)
      requires Valid()
      modifies this`playing, this`log, this`sent, this`starts, this`open, this`overlapped
      ensures Valid()
      ensures playing == old(playing)[TrackIdOf(track) := Session(track, now)]
      ensures r == Started <==> DeviceField(devices, output).Some?
      ensures r == Started ==>
        && log == old(log) + [Wrap(now, EventKey, StreamStart, StartPayload(track, DeviceField(devices, output).value))]
        && sent == old(sent) + (if transportOk then [log[|log| - 1]] else [])
        && open == old(open) + multiset{TrackIdOf(track)}
        && overlapped == old(overlapped) + (if old(open)[TrackIdOf(track)] > 0 then {TrackIdOf(track)} else {})
      ensures r == StartKeyError ==>
        log == old(log) && sent == old(sent) && open == old(open) && overlapped == old(overlapped)
    {
      var id := TrackIdOf(track);
      playing := playing[id := Session(track, now)];
      var ok := EmitTrackStart(track, output, now, transportOk);
      if !ok {
        return StartKeyError;
      }
      OpenStream(old(log), id);
      return Started;
    }

    /** The bookkeeping of a start just appended to the log: the stream
        opens, and the id is overlapped if its stream was open already. */
    ghost method OpenStream(log0: seq<Message>, id: string)
      requires Ordered(log0, starts, open, ended) && Replayed(log0, open, overlapped)
      requires |log| > 0 && log == log0 + [log[|log| - 1]]
      requires log[|log| - 1].event == StreamStart && PayloadTrackId(log[|log| - 1].data) == id
      modifies this`starts, this`open, this`overlapped
      ensures Valid()
      ensures starts == old(starts) + multiset{id} && open == old(open) + multiset{id}
      ensures overlapped == old(overlapped) + (if old(open)[id] > 0 then {id} else {})
    {
      OrderedAfterStart(log0, starts, open, ended, log[|log| - 1], id);
      ReplayedAfterStart(log0, open, overlapped, log[|log| - 1], id);
      if open[id] > 0 {
        overlapped := overlapped + {id};
      }
      starts := starts + multiset{id};
      open := open + multiset{id};
    }

    /** The stream callback: emit an update, and move `last_track_update`
        to now, exactly when at least 100 ms have passed since the last one.
        Looking up a session that is no longer in the table, or a device
        missing from the device table, raises. */
    method Callback(track: Track, output: Option<int>, status: int, now: int, transportOk: bool)
      returns (r: CallbackOutcome)
      requires Valid() && open[TrackIdOf(track)] > 0
      modifies this`playing, this`log, this`sent
      ensures Valid()
      ensures TrackIdOf(track) !in old(playing) ==>
        r == CallbackKeyError && playing == old(playing) && log == old(log) && sent == old(sent)
      ensures TrackIdOf(track) in old(playing) && !UpdateDue(now, old(playing)[TrackIdOf(track)].lastTrackUpdate) ==>
        r == PaContinue && playing == old(playing) && log == old(log) && sent == old(sent)
      ensures TrackIdOf(track) in old(playing) && UpdateDue(now, old(playing)[TrackIdOf(track)].lastTrackUpdate) ==>
        && (r == PaContinue <==> DeviceField(devices, output).Some?)
        && (r == PaContinue ==>
              && playing == old(playing)[TrackIdOf(track) := old(playing)[TrackIdOf(track)].(lastTrackUpdate := now)]
              && log == old(log) + [Wrap(now, EventKey, StreamUpdate, UpdatePayload(track, DeviceField(devices, output).value, status))]
              && sent == old(sent) + (if transportOk then [log[|log| - 1]] else []))
        && (r == CallbackKeyError ==> playing == old(playing) && log == old(log) && sent == old(sent))
    {
      var id := TrackIdOf(track);
      if id !in playing {
        return CallbackKeyError;
      }
      var last := playing[id].lastTrackUpdate;
      if !UpdateDue(now, last) {
        return PaContinue;
      }
      var ok := EmitTrackUpdate(track, output, status, now, transportOk);
      if !ok {
        return CallbackKeyError;
      }
      OrderedAfterUpdate(old(log), starts, open, ended, log[|log| - 1], id);
      ReplayedAfterUpdate(old(log), open, overlapped, log[|log| - 1], id);
      playing := playing[id := playing[id].(lastTrackUpdate := now)];
      return PaContinue;
    }

    /** Drop a session; a missing key is logged, not raised. */
    method RemoveSession(id: string) returns (removed: bool)
      modifies this`playing
      ensures removed <==> id in old(playing)
      ensures playing == old(playing) - {id}
    {
      removed := id in playing;
      playing := playing - {id};
    }

    /** A stream whose end could not be emitted is closed all the same. */
    ghost method AbortStream(id: string)
      requires Valid()
      modifies this`open
      ensures Valid() && open == old(open) - multiset{id}
    {
      OrderedAfterAbort(log, starts, open, ended, id);
      ReplayedAfterAbort(log, open, overlapped, id);
      open := open - multiset{id};
    }

    /** Emitting the end closes the stream, whether or not the end could be
        sent; the run of events for the track is closed exactly when it was. */
    method CloseStream(track: Track, output: Option<int>, now: int, transportOk: bool) returns (ok: bool)
      requires Valid() && open[TrackIdOf(track)] > 0
      modifies this`log, this`sent, this`open, this`ended
      ensures Valid()
      ensures open == old(open) - multiset{TrackIdOf(track)}
      ensures ok <==> DeviceField(devices, output).Some?
      ensures !ok ==> log == old(log) && sent == old(sent)
      ensures ok ==>
        && log == old(log) + [Wrap(now, EventKey, StreamEnd, EndPayload(track, DeviceField(devices, output).value))]
        && sent == old(sent) + (if transportOk then [log[|log| - 1]] else [])
    {
      var id := TrackIdOf(track);
      ghost var log0 := log;
      ok := EmitTrackEnd(track, output, now, transportOk);
      if !ok {
        AbortStream(id);
        return;
      }
      ghost var m := Wrap(now, EventKey, StreamEnd, EndPayload(track, DeviceField(devices, output).value));
      OrderedAfterEnd(log0, starts, open, ended, m, id);
      ReplayedAfterEnd(log0, open, overlapped, m, id);
      open := open - multiset{id};
      ended := ended + multiset{id};
    }

    /** The tail of `_play` once the stream has stopped: emit the end, then
        drop the session. A device missing from the table raises before the
        end is sent and the session stays registered. */
    method Finish(track: Track, output: Option<int>, now: int, transportOk: bool) returns (r: FinishOutcome)
      requires Valid() && open[TrackIdOf(track)] > 0
      modifies this`playing, this`log, this`sent, this`open, this`ended
      ensures Valid()
      ensures open == old(open) - multiset{TrackIdOf(track)}
      ensures r == EndKeyError <==> DeviceField(devices, output).None?
      ensures r == EndKeyError ==> playing == old(playing) && log == old(log) && sent == old(sent)
      ensures r.Finished? ==>
        && log == old(log) + [Wrap(now, EventKey, StreamEnd, EndPayload(track, DeviceField(devices, output).value))]
        && sent == old(sent) + (if transportOk then [log[|log| - 1]] else [])
        && playing == old(playing) - {TrackIdOf(track)}
        && (r.removed <==> TrackIdOf(track) in old(playing))
    {
      var ok := CloseStream(track, output, now, transportOk);
      if !ok {
        return EndKeyError;
      }
      var removed := RemoveSession(TrackIdOf(track));
      return Finished(removed);
    }
  }

  /** For a track id that was played at most once, the messages built for
      it are a start, then updates, then at most one end, which comes last. */
  lemma EventOrder(a: Ape, id: string)
    requires a.Valid() && a.starts[id] <= 1
    ensures StartUpdatesEnd(Events(a.log, id))
    ensures StreamEnd in Events(a.log, id) ==> Events(a.log, id)[|Events(a.log, id)| - 1] == StreamEnd
  {
    var e := Events(a.log, id);
    if a.starts[id] == 1 && a.ended[id] == 0 {
      assert StreamStart[7] != StreamEnd[7] && StreamUpdate[7] != StreamEnd[7];
      assert forall k :: 0 <= k < |e| ==> e[k] != StreamEnd;
    }
  }

  /** For a track id replayed any number of times, as long as it was never
      started over its own open stream, the messages built for it are
      plays one after another: a start first, updates only inside a play,
      each end directly closing a play, and nothing but a new start after
      an end. While its stream is open the last event is not an end. */
  lemma ReplayOrder(a: Ape, id: string)
    requires a.Valid() && id !in a.overlapped
    ensures Plays(Events(a.log, id))
    ensures a.open[id] <= 1
    ensures a.open[id] == 1 ==> Events(a.log, id) != [] && Events(a.log, id)[|Events(a.log, id)| - 1] != StreamEnd
  {
  }
}
