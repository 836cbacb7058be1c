/** The older playout engine, kept beside the current one: the same
    session table and throttle, but the envelope names the event under
    `message`, a failing send propagates to the caller, and no end event
    exists. Also its built-in two-cut demonstration. */
module LegacyApe {

  import opened Wrappers
  import opened Catalog
  import opened Telemetry

  const EventKey: string := "message"

  datatype StartOutcome = Started | StartKeyError | StartSendError
  datatype CallbackOutcome = PaContinue | CallbackKeyError | CallbackSendError

  /** The order of a message log in this version: for every track id
      started once, a start followed only by updates; for every track id
      however often it was started, a history of plays that begins with a
      start and holds no end; no end, ever. */
  ghost predicate StartsThenUpdates(log: seq<Message>, starts: multiset<string>, open: multiset<string>)
  {
    && open <= starts
    && (forall k :: 0 <= k < |log| ==> log[k].event != StreamEnd && log[k].eventKey == EventKey)
    && (forall id {:trigger Events(log, id)} :: starts[id] == 0 ==> Events(log, id) == [])
    && (forall id {:trigger Events(log, id)} :: starts[id] == 1 ==> OpenRun(Events(log, id)))
    && (forall id {:trigger Events(log, id)} ::
          && Plays(Events(log, id)) && StreamEnd !in Events(log, id)
          && (starts[id] > 0 ==> Events(log, id) != []))
  }

  /** A start (sent or not) begins its track's run. */
  lemma AfterStart(log: seq<Message>, starts: multiset<string>, open: multiset<string>, m: Message, id: string, streamOpen: bool)
    requires StartsThenUpdates(log, starts, open) && m.event == StreamStart && m.eventKey == EventKey
    requires PayloadTrackId(m.data) == id
    ensures StartsThenUpdates(log + [m], starts + multiset{id}, (if streamOpen then open + multiset{id} else open))
  {
    assert StreamStart[7] != StreamEnd[7];
    OthersEvents(log, m);
    PlaysSnoc(Events(log, id), StreamStart);
  }

  /** An update for a track with an open stream keeps the order. */
  lemma AfterUpdate(log: seq<Message>, starts: multiset<string>, open: multiset<string>, m: Message)
    requires StartsThenUpdates(log, starts, open) && m.event == StreamUpdate && m.eventKey == EventKey
    requires open[PayloadTrackId(m.data)] > 0
    ensures StartsThenUpdates(log + [m], starts, open)
  {
    assert StreamUpdate[7] != StreamEnd[7];
    var id := PayloadTrackId(m.data);
    OthersEvents(log, m);
    if starts[id] == 1 {
      RunsExtend(Events(log, id));
    }
    var e := Events(log, id);
    assert e[|e| - 1] in e;
    PlaysSnoc(e, StreamUpdate);
  }

  lemma OthersEvents(log: seq<Message>, m: Message)
    ensures forall other :: other != PayloadTrackId(m.data) ==> Events(log + [m], other) == Events(log, other)
    ensures Events(log + [m], PayloadTrackId(m.data)) == Events(log, PayloadTrackId(m.data)) + [m.event]
  {
    forall other ensures Events(log + [m], other) == Events(log, other) + (if PayloadTrackId(m.data) == other then [m.event] else []) {
      EventsAppend(log, m, other);
    }
  }

  class Ape {
    const devices: map<int, string>
    var playing: map<string, Session>
    /** Messages the transport accepted. */
    var sent: seq<Message>
    /** Every message handed to the transport, accepted or not. */
    ghost var log: seq<Message>
    ghost var starts: multiset<string>
    ghost var open: multiset<string>

    ghost predicate Valid()
      reads this`log, this`starts, this`open
    {
      StartsThenUpdates(log, starts, open)
    }

    constructor(devices: map<int, string>)
      ensures Valid()
      ensures this.devices == devices && playing == map[] && sent == [] && log == []
    {
      this.devices := devices;
      playing := map[];
      sent := [];
      log := [];
      starts, open := multiset{}, multiset{};
    }

    /** `emit_message`: wrap and send; a failing send is not caught, so
        `ok` is false and the caller's code after the send does not run. */
    method EmitMessage(event: string, data: Payload, now: int, transportOk: bool) returns (ok: bool)
      modifies this`log, this`sent
      ensures ok == transportOk
      ensures log == old(log) + [Wrap(now, EventKey, event, data)]
      ensures sent == old(sent) + (if transportOk then [Wrap(now, EventKey, event, data)] else [])
    {
      var m := Wrap(now, EventKey, event, data);
      log := log + [m];
      if transportOk {
        sent := sent + [m];
      }
      return transportOk;
    }

    /** `_play` up to the stream open: register the session with
        `last_track_update` set to now, then emit the start. The stream is
        opened only when the start went out. */
    method Start(track: Track, output: Option<int>, now: int, transportOk: bool) returns (r: StartOutcome)
      requires Valid()
      modifies this`playing, this`log, this`sent, this`starts, this`open
      ensures Valid()
      ensures playing == old(playing)[TrackIdOf(track) := Session(track, now)]
      ensures r == StartKeyError <==> DeviceField(devices, output).None?
      ensures r == StartKeyError ==> log == old(log) && sent == old(sent) && open == old(open)
      ensures r != StartKeyError ==>
        log == old(log) + [Wrap(now, EventKey, StreamStart, StartPayload(track, DeviceField(devices, output).value))]
      ensures r != StartKeyError ==> (r == Started <==> transportOk)
      ensures r == Started ==> open == old(open) + multiset{TrackIdOf(track)} && sent == old(sent) + [log[|log| - 1]]
      ensures r == StartSendError ==> open == old(open) && sent == old(sent)
    {
      playing := playing[TrackIdOf(track) := Session(track, now)];
      var device := DeviceField(devices, output);
      if device.None? {
        return StartKeyError;
      }
      var ok := EmitStart(track, device.value, now, transportOk);
      r := if ok then Started else StartSendError;
    }

    /** The start emission of `_play`: the stream counts as started whether
        or not the send goes through, and as open only when it does. */
    method EmitStart(track: Track, device: DeviceInfo, now: int, transportOk: bool) returns (ok: bool)
      requires Valid()
      modifies this`log, this`sent, this`starts, this`open
      ensures Valid()
      ensures ok == transportOk
      ensures log == old(log) + [Wrap(now, EventKey, StreamStart, StartPayload(track, device))]
      ensures ok ==> open == old(open) + multiset{TrackIdOf(track)} && sent == old(sent) + [log[|log| - 1]]
      ensures !ok ==> open == old(open) && sent == old(sent)
    {
      var id := TrackIdOf(track);
      ghost var log0 := log;
      ok := EmitMessage(StreamStart, StartPayload(track, device), now, transportOk);
      AfterStart(log0, starts, open, log[|log| - 1], id, ok);
      starts := starts + multiset{id};
      if ok {
        open := open + multiset{id};
      }
    }

    /** The stream callback, with the same throttle as the current engine;
        `last_track_update` moves only once the update has been sent. */
    method Callback(track: Track, output: Option<int>, status: int, now: int, transportOk: bool)
      returns (r: CallbackOutcome)
      requires Valid() && open[TrackIdOf(track)] > 0
      modifies this`playing, this`log, this`sent
      ensures Valid()
      ensures TrackIdOf(track) !in old(playing) ==>
        r == CallbackKeyError && playing == old(playing) && log == old(log) && sent == old(sent)
      ensures TrackIdOf(track) in old(playing) && !UpdateDue(now, old(playing)[TrackIdOf(track)].lastTrackUpdate) ==>
        r == PaContinue && playing == old(playing) && log == old(log) && sent == old(sent)
      ensures TrackIdOf(track) in old(playing) && UpdateDue(now, old(playing)[TrackIdOf(track)].lastTrackUpdate) ==>
        && (r == CallbackKeyError <==> DeviceField(devices, output).None?)
        && (r == CallbackKeyError ==> playing == old(playing) && log == old(log) && sent == old(sent))
        && (r != CallbackKeyError ==>
              && log == old(log) + [Wrap(now, EventKey, StreamUpdate, UpdatePayload(track, DeviceField(devices, output).value, status))]
              && (r == PaContinue <==> transportOk))
        && (r == PaContinue ==>
              && playing == old(playing)[TrackIdOf(track) := old(playing)[TrackIdOf(track)].(lastTrackUpdate := now)]
              && sent == old(sent) + [log[|log| - 1]])
        && (r == CallbackSendError ==> playing == old(playing) && sent == old(sent))
    {
      var id := TrackIdOf(track);
      if id !in playing {
        return CallbackKeyError;
      }
      var last := playing[id].lastTrackUpdate;
      if !UpdateDue(now, last) {
        return PaContinue;
      }
      var device := DeviceField(devices, output);
      if device.None? {
        return CallbackKeyError;
      }
      var ok := EmitMessage(StreamUpdate, UpdatePayload(track, device.value, status), now, transportOk);
      AfterUpdate(old(log), starts, open, log[|log| - 1]);
      if !ok {
        return CallbackSendError;
      }
      playing := playing[id := playing[id].(lastTrackUpdate := now)];
      return PaContinue;
    }

    /** After the stream closes: drop the session (a missing key is logged,
        not raised). Nothing is emitted. */
    method Finish(track: Track) returns (removed: bool)
      requires Valid() && open[TrackIdOf(track)] > 0
      modifies this`playing, this`open
      ensures Valid()
      ensures open == old(open) - multiset{TrackIdOf(track)}
      ensures removed <==> TrackIdOf(track) in old(playing)
      ensures playing == old(playing) - {TrackIdOf(track)}
    {
      var id := TrackIdOf(track);
      removed := id in playing;
      playing := playing - {id};
      open := open - multiset{id};
    }
  }

  /** This version never emits an end event, and every envelope uses the
      `message` key. */
  lemma NoEndEvent(a: Ape, id: string)
    requires a.Valid()
    ensures StreamEnd !in Events(a.log, id)
    ensures forall k :: 0 <= k < |a.log| ==> a.log[k].eventKey == EventKey
  {
    NoEndIn(a.log, id);
  }

  /** However often a track id is replayed, its messages begin with a
      start and hold only starts and updates. */
  lemma ReplayOrder(a: Ape, id: string)
    requires a.Valid()
    ensures Plays(Events(a.log, id)) && StreamEnd !in Events(a.log, id)
    ensures Events(a.log, id) == [] <==> a.starts[id] == 0
    ensures forall k :: 0 <= k < |Events(a.log, id)| ==> Events(a.log, id)[k] in {StreamStart, StreamUpdate}
  {
  }

  lemma {:induction false} NoEndIn(log: seq<Message>, id: string)
    requires forall k :: 0 <= k < |log| ==> log[k].event != StreamEnd
    ensures StreamEnd !in Events(log, id)
  {
    if log != [] {
      NoEndIn(log[..|log| - 1], id);
    }
  }

  // The demonstration's two cut records (`CUT_DATA`).

  const DemoTimers: Timers := Timers(0, 60000, 0, 0, 52000, 60000)
  const DemoCut: Cut := Cut("MUSIC", 100000, 60000, Meta("", "Cantina Band", "60 Second Song"), DemoTimers,
                            false, Links("./audio/CantinaBand60.wav", None), Some("cyan"))
  /** Both records spell the end-of-file key `eod_code`; nothing reads it. */
  const CutData0: Track := Track(DemoCut, PlaylistInfo("7f4ec6eb-cdec-4b00-a2d0-570e03eb7d35", 0, EofNumber(2)))
  const CutData1: Track := Track(DemoCut, PlaylistInfo("7f4ec6eb-cdec-4b00-a2d0-570e03eb7d36", 0, EofNumber(2)))

  /** The `__main__` demonstration with no output device chosen: play the
      first record, wait 52 s, play the second, wait 72 s. The waits are
      returned in milliseconds; callbacks during the waits are not part of
      the demonstration. Both records carry cut 100000 but distinct track
      ids, so both sessions stand side by side, and the first wait is the
      first cut's segue point. */
  method Demo(devices: map<int, string>, t0: int, transportOk: bool) returns (a: Ape, waits: seq<int>)
    ensures a.Valid()
    ensures CutData0.cut.cut == CutData1.cut.cut && TrackIdOf(CutData0) != TrackIdOf(CutData1)
    ensures waits == [CutData0.cut.timers.segueBegin, 72000]
    ensures a.playing == map[TrackIdOf(CutData0) := Session(CutData0, t0),
                             TrackIdOf(CutData1) := Session(CutData1, t0 + waits[0])]
    ensures |a.log| == 2 && a.log[0].event == StreamStart && a.log[1].event == StreamStart
    ensures transportOk ==> a.sent == a.log
  {
    a := new Ape(devices);
    var r0 := a.Start(CutData0, None, t0, transportOk);
    waits := [52000];
    var r1 := a.Start(CutData1, None, t0 + 52000, transportOk);
    waits := waits + [72000];
  }
}
