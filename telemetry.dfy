/** The telemetry contract shared by both playout engines: the `device`
    field, the message payloads and envelope, the per-track session record,
    and the 100 ms throttle on position updates. */
module Telemetry {

  import opened Wrappers
  import opened Catalog

  const ServiceId: string := "azplay-ape"
  const MinWsMsgIntervalMs: int := 100

  const StreamStart: string := "stream.start"
  const StreamUpdate: string := "stream.update"
  const StreamEnd: string := "stream.end"

  /** The `device` object of a message. */
  datatype DeviceInfo = DeviceInfo(index: Option<int>, name: Option<string>)

  /** The `data` of a message. The floating-point `buffer_latency` and
      `track_elapsed` of an update are not carried. */
  datatype Payload =
    | StartData(playlistTrackId: string, cutInfo: Track, device: DeviceInfo)
    | UpdateData(playlistTrackId: string, cutId: int, device: DeviceInfo, status: int)
    | EndData(playlistTrackId: string, cutInfo: Track, device: DeviceInfo)

  /** The envelope handed to the websocket client. `eventKey` is the name
      of the key under which the event name is stored. */
  datatype Message = Message(timestamp: int, origin: string, eventKey: string, event: string, data: Payload)

  /** One entry of the `playing` table: the cut data and `last_track_update`. */
  datatype Session = Session(track: Track, lastTrackUpdate: int)

  function TrackIdOf(t: Track): string
  {
    t.playlist.trackId
  }

  /** The `device` field: index and name both `None` when no output device
      was chosen, otherwise the index and its name in the device table; an
      index missing from the table raises `KeyError` (`None` here). */
  function DeviceField(devices: map<int, string>, output: Option<int>): (r: Option<DeviceInfo>)
    ensures r.None? <==> output.Some? && output.value !in devices
    ensures r.Some? ==> r.value.index == output
    ensures r.Some? ==> (r.value.name.None? <==> output.None?)
    ensures r.Some? && output.Some? ==> r.value.name == Some(devices[output.value])
  {
    match output
    case None => Some(DeviceInfo(None, None))
    case Some(i) => if i in devices then Some(DeviceInfo(output, Some(devices[i]))) else None
  }

  /** `emit_message`'s envelope: timestamp, origin `azplay-ape`, the event
      name under `eventKey`, and the data. */
  function Wrap(timestamp: int, eventKey: string, event: string, data: Payload): (m: Message)
    ensures m.origin == ServiceId && m.timestamp == timestamp && m.event == event && m.data == data
    ensures m.eventKey == eventKey
  {
    Message(timestamp, ServiceId, eventKey, event, data)
  }

  /** The track a message is about. */
  function PayloadTrackId(p: Payload): string
  {
    match p
    case StartData(id, _, _) => id
    case UpdateData(id, _, _, _) => id
    case EndData(id, _, _) => id
  }

  /** The start payload names the track and carries the whole cut data. */
  function StartPayload(t: Track, device: DeviceInfo): (p: Payload)
    ensures PayloadTrackId(p) == TrackIdOf(t) && p.StartData? && p.cutInfo == t && p.device == device
  {
    StartData(TrackIdOf(t), t, device)
  }

  /** The update payload names the track and its cut number. */
  function UpdatePayload(t: Track, device: DeviceInfo, status: int): (p: Payload)
    ensures PayloadTrackId(p) == TrackIdOf(t) && p.UpdateData? && p.cutId == t.cut.cut
    ensures p.device == device && p.status == status
  {
    UpdateData(TrackIdOf(t), t.cut.cut, device, status)
  }

  /** The end payload names the track and carries the whole cut data. */
  function EndPayload(t: Track, device: DeviceInfo): (p: Payload)
    ensures PayloadTrackId(p) == TrackIdOf(t) && p.EndData? && p.cutInfo == t && p.device == device
  {
    EndData(TrackIdOf(t), t, device)
  }

  /** The envelope loses nothing: two envelopes are equal exactly when
      their four fields are, and the messages that are envelopes of some
      fields are exactly those whose origin is this service. */
  lemma WrapExact(m: Message, t1: int, k1: string, e1: string, d1: Payload, t2: int, k2: string, e2: string, d2: Payload)
    ensures Wrap(t1, k1, e1, d1) == Wrap(t2, k2, e2, d2) <==> t1 == t2 && k1 == k2 && e1 == e2 && d1 == d2
    ensures (exists t, k, e, d :: Wrap(t, k, e, d) == m) <==> m.origin == ServiceId
  {
    if m.origin == ServiceId {
      assert Wrap(m.timestamp, m.eventKey, m.event, m.data) == m;
    }
  }

  /** What a subscriber can tell from a payload: every payload names its
      track; start and end payloads determine the cut data and the device
      and are never confused with each other or with an update; an update
      determines only the track id, the cut number, the device and the
      status, so two tracks that share both id and cut number give the
      same update. */
  lemma PayloadsDistinguish(t1: Track, d1: DeviceInfo, s1: int, t2: Track, d2: DeviceInfo, s2: int)
    ensures PayloadTrackId(StartPayload(t1, d1)) == PayloadTrackId(UpdatePayload(t1, d1, s1)) == PayloadTrackId(EndPayload(t1, d1)) == TrackIdOf(t1)
    ensures StartPayload(t1, d1) == StartPayload(t2, d2) <==> t1 == t2 && d1 == d2
    ensures EndPayload(t1, d1) == EndPayload(t2, d2) <==> t1 == t2 && d1 == d2
    ensures UpdatePayload(t1, d1, s1) == UpdatePayload(t2, d2, s2) <==>
      TrackIdOf(t1) == TrackIdOf(t2) && t1.cut.cut == t2.cut.cut && d1 == d2 && s1 == s2
    ensures StartPayload(t1, d1) != EndPayload(t2, d2)
    ensures StartPayload(t1, d1) != UpdatePayload(t2, d2, s2) && EndPayload(t1, d1) != UpdatePayload(t2, d2, s2)
  {
  }

  /** The event names, in order, of the messages about track `id`. */
  function Events(log: seq<Message>, id: string): seq<string>
  {
    if log == [] then []
    else
      Events(log[..|log| - 1], id)
        + (if PayloadTrackId(log[|log| - 1].data) == id then [log[|log| - 1].event] else [])
  }

  lemma EventsAppend(log: seq<Message>, m: Message, id: string)
    ensures Events(log + [m], id) == Events(log, id) + (if PayloadTrackId(m.data) == id then [m.event] else [])
  {
    assert (log + [m])[..|log|] == log;
  }

  /** A start followed only by updates: a track whose stream is still open. */
  ghost predicate OpenRun(e: seq<string>)
  {
    |e| >= 1 && e[0] == StreamStart && forall k :: 1 <= k < |e| ==> e[k] == StreamUpdate
  }

  /** A start, updates, then one end: a finished track. */
  ghost predicate ClosedRun(e: seq<string>)
  {
    && |e| >= 2 && e[0] == StreamStart && e[|e| - 1] == StreamEnd
    && forall k :: 1 <= k < |e| - 1 ==> e[k] == StreamUpdate
  }

  /** The order a subscriber may rely on for one track: nothing, or a start,
      then updates, and an end only as the very last event. */
  ghost predicate StartUpdatesEnd(e: seq<string>)
  {
    e == [] || OpenRun(e) || ClosedRun(e)
  }

  /** An update keeps an open run open; an end closes it, after which only
      the closed run remains. */
  lemma {:induction false} RunsExtend(e: seq<string>)
    requires OpenRun(e)
    ensures OpenRun(e + [StreamUpdate]) && ClosedRun(e + [StreamEnd])
    ensures StartUpdatesEnd(e + [StreamUpdate]) && StartUpdatesEnd(e + [StreamEnd])
    ensures !OpenRun(e + [StreamEnd])
  {
    var u, d := e + [StreamUpdate], e + [StreamEnd];
    assert forall k :: 1 <= k < |e| ==> u[k] == e[k] && d[k] == e[k];
    assert d[|d| - 1] == StreamEnd != StreamUpdate;
  }

  /** The order of a track's events over any number of plays: only the
      three stream events, a start first, and after an end nothing but the
      next play's start. */
  ghost predicate Plays(e: seq<string>)
  {
    && (forall k :: 0 <= k < |e| ==> e[k] == StreamStart || e[k] == StreamUpdate || e[k] == StreamEnd)
    && (e != [] ==> e[0] == StreamStart)
    && (forall k :: 0 < k < |e| && e[k - 1] == StreamEnd ==> e[k] == StreamStart)
  }

  /** A start may always follow; an update or an end only a history that is
      neither empty nor just ended. */
  lemma PlaysSnoc(e: seq<string>, x: string)
    requires Plays(e) && (x == StreamStart || x == StreamUpdate || x == StreamEnd)
    requires x != StreamStart ==> e != [] && e[|e| - 1] != StreamEnd
    ensures Plays(e + [x])
  {
    var f := e + [x];
    assert forall k :: 0 <= k < |e| ==> f[k] == e[k];
  }

  /** The throttle: an update is due once at least 100 ms have passed since
      the last start or update of the track. */
  predicate UpdateDue(now: int, last: int)
  {
    now - last >= MinWsMsgIntervalMs
  }

  /** The clock readings, among a run of callbacks at `times`, at which an
      update goes out, when the track's last update (or start) was at `last`. */
  function Emitted(last: int, times: seq<int>): seq<int>
    decreases |times|
  {
    if times == [] then []
    else if UpdateDue(times[0], last) then [times[0]] + Emitted(times[0], times[1..])
    else Emitted(last, times[1..])
  }

  /** Whatever the clock does, every update comes at least 100 ms after the
      start, consecutive updates are at least 100 ms apart, and each update
      time is one of the callback times. */
  lemma {:induction false} EmittedSpacing(last: int, times: seq<int>)
    decreases |times|
    ensures forall k :: 0 <= k < |Emitted(last, times)| ==> Emitted(last, times)[k] >= last + MinWsMsgIntervalMs
    ensures forall k :: 0 < k < |Emitted(last, times)| ==>
      Emitted(last, times)[k] - Emitted(last, times)[k - 1] >= MinWsMsgIntervalMs
    ensures forall k :: 0 <= k < |Emitted(last, times)| ==> Emitted(last, times)[k] in times
  {
    if times != [] {
      var e := Emitted(last, times);
      if UpdateDue(times[0], last) {
        EmittedSpacing(times[0], times[1..]);
        var rest := Emitted(times[0], times[1..]);
        assert e == [times[0]] + rest;
        forall k | 0 < k < |e| ensures e[k] - e[k - 1] >= MinWsMsgIntervalMs {
          if k > 1 {
            assert e[k] == rest[k - 1] && e[k - 1] == rest[k - 2];
          } else {
            assert e[k] == rest[0];
          }
        }
        forall k | 0 <= k < |e| ensures e[k] in times {
          if k > 0 {
            assert e[k] == rest[k - 1];
            assert rest[k - 1] in times[1..];
          }
        }
      } else {
        EmittedSpacing(last, times[1..]);
        forall k | 0 <= k < |e| ensures e[k] in times {
          assert e[k] in times[1..];
        }
      }
    }
  }

  /** With a clock that never goes backwards, no callback less than 100 ms
      after the start emits anything. */
  lemma {:induction false} NoEarlyUpdate(last: int, times: seq<int>)
    requires forall k :: 0 <= k < |times| ==> times[k] < last + MinWsMsgIntervalMs
    ensures Emitted(last, times) == []
    decreases |times|
  {
    if times != [] {
      NoEarlyUpdate(last, times[1..]);
    }
  }
}
