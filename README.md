# AZPlayer playout core in Dafny

AZPlayer is a broadcast-style audio playout system. It plays a playlist of
pre-recorded cuts with broadcast timing rules: a segue point, an intro ramp,
and topplay overlap. It feeds decoded audio through a bounded buffer to a
real-time callback, and reports start, update and end telemetry for every
track to a websocket subscriber. This project models the sequential logic of
that system and proves properties about it:

- `jplayer.dfy` (`JackPlayer`): the JACK file player. The bounded queue is a
  class over a ring-buffer array. The output ports are an `array2`. The
  `process` callback, `stop_callback`, pre-fill, top-up, end-of-file marker,
  port registration and auto-patching are methods.
- `telemetry.dfy` (`Telemetry`): the message envelope, the three payloads,
  the `device` field, the per-track event projection of a log, and the
  100 ms update throttle.
- `engine.dfy` (`Engine`): the current playout engine. The class holds the
  `playing` table. A ghost log of every message built shows the
  start / update* / end order per track, for a first play and over any
  number of replays of a track not started again over its own open stream.
- `ape.dfy` (`LegacyApe`): the older engine. Its envelope key is `message`,
  send failures propagate, and it has no end event. Also its built-in
  two-cut demonstration.
- `playlist_lines.dfy` (`PlaylistLines`): parsing a playlist line into its
  cut id and `eof_code`, and keeping the lines whose cut is in the
  catalogue.
- `ape_playlist.dfy` (`ApePlaylist`): the engine's test playlist. It builds
  the playlist with the catalogue's shared mutable cut records modelled
  explicitly, then plays one pass.
- `pacing.dfy` (`Pacing`): the wait after each start (segue point, or
  topplay stall), one pass of waits, and the endless replay.
- `player.dfy` (`Player`): the terminal player. It covers the playlist
  build and its exit guard, the wrap-around display window, the table with
  its air-time counter and colour fallback, and one play pass.
- `cutlistgen.dfy` (`CutListGen`): building cut records from spreadsheet
  rows, and the `cuts.json` record.
- `routes.dfy` (`Routes`): the upload extension check, the role check, and
  the two guarded deletions of the web application.
- `catalog.dfy`, `pytext.dfy`, `wrappers.dfy`: the cut record, the Python
  string operations the code relies on (`split`, `strip`, `join`, `lower`,
  `rsplit`, `str(int)`), and `Option`/`Result`.

Clock readings, track ids from `uuid4`, whether the websocket transport
accepts a message, the device table, the physical JACK ports and the
decoded blocks are all parameters. Each `sleep` becomes a returned delay in
milliseconds.

Where the design documentation and the code differ, the model follows the
code:

- A mono cut is not duplicated onto a stereo device by channel count. The
  code connects one port to two targets only when the player has exactly
  one output port (`scripts/jplayer.py:116-119`), and `__init__` always
  registers two (`PatchPlanShape`).
- A topplay cut in last place does not wrap to entry 0. `playlist[i+1]`
  raises `IndexError`, which ends the pass (outcome `NextMissing`).

## Model

| member | source | states |
|---|---|---|
| PyText.StripSpec | src/ape/playlist_test.py:87 | `strip()` removes exactly the leading and trailing whitespace: the result is a trimmed middle slice of the input |
| PyText.Split | src/ape/playlist_test.py:85 | `split(' ')` gives at least one piece, and no piece contains the separator |
| PyText.JoinSplit | src/ape/playlist_test.py:85 | joining the pieces of `split(sep)` with `sep` gives back the line |
| PyText.SplitJoin | src/ape/playlist_test.py:85 | splitting separator-free fields joined by `sep` gives back the fields |
| PyText.StripNewline | src/ape/playlist_test.py:45 | a trimmed word followed by the newline `readlines` keeps strips back to the word |
| PyText.LowerNormalizes | src/core/azplay/routes.py:18 | after `lower()` no ASCII capital is left, and lowering again changes nothing |
| PyText.LowerIgnoresCase | src/core/azplay/routes.py:18 | two extensions lower to the same string exactly when they differ at most in the case of ASCII letters, so `MP3`, `Mp3` and `mp3` are one extension |
| PyText.RSplitOnce | src/core/azplay/routes.py:18 | `rsplit(sep, 1)` gives one piece iff `sep` is absent; otherwise two pieces joined by `sep` give the input, with no `sep` in the second |
| PyText.NatToStringInjective | scripts/jplayer.py:100 | distinct numbers print as distinct decimal strings |
| Telemetry.DeviceField | src/ape/engine.py:94-97 | the lookup fails (`KeyError`) exactly when a device index is given that is not in the table; otherwise the index is carried, and the name is `None` iff no device was given, else the table's name |
| Telemetry.WrapExact | src/ape/engine.py:77-83 | two envelopes are equal exactly when timestamp, event key, event and data are; the envelopes are exactly the messages with origin `azplay-ape` |
| Telemetry.PayloadsDistinguish | src/ape/engine.py:89-125 | all three payloads name the entry's track id; a start or end payload determines the cut data and the device, and start, update and end payloads never coincide; an update determines only track id, cut number, device and status |
| Telemetry.PlaysSnoc | src/ape/engine.py:139-182 | a start may follow any history of plays; an update or an end keeps it one only after a start or update |
| Telemetry.RunsExtend | src/ape/engine.py:154-176 | after a start and updates, an update keeps the run open and an end closes it; both stay in start / update* / end order, and nothing but an end makes it closed |
| Telemetry.EmittedSpacing | src/ape/engine.py:151-157 | whatever the clock does, every emitted update is at least 100 ms after the start time, consecutive updates are at least 100 ms apart, and each one is a callback's clock reading |
| Telemetry.NoEarlyUpdate | src/ape/engine.py:154 | no callback within 100 ms of the last update emits one |
| Engine.OrderedAfterStart | src/ape/engine.py:140-145 | a start message opens a stream for its track and keeps every track's order |
| Engine.OrderedAfterUpdate | src/ape/engine.py:154-157 | an update for an open stream keeps every track's order |
| Engine.OrderedAfterEnd | src/ape/engine.py:175-176 | the end of an open stream closes its run and keeps every track's order |
| Engine.OrderedAfterAbort | src/ape/engine.py:175-176 | a stream closed without its end being emitted keeps every track's order |
| Engine.Ape.constructor | src/ape/engine.py:34-43 | empty `playing` table, nothing sent, the given device table |
| Engine.Ape.EmitMessage | src/ape/engine.py:75-87 | the envelope is built and logged; it is sent only when the transport accepts it, and a failure is swallowed |
| Engine.Ape.EmitTrackStart | src/ape/engine.py:89-99 | succeeds iff the device lookup does; then exactly the start envelope is logged (and sent if accepted); on failure nothing is logged or sent |
| Engine.Ape.EmitTrackUpdate | src/ape/engine.py:101-113 | as above for the update envelope |
| Engine.Ape.EmitTrackEnd | src/ape/engine.py:115-125 | as above for the end envelope |
| Engine.Ape.Start | src/ape/engine.py:139-145 | the session is stored under the track id with `last_track_update` = now before the start is emitted; started iff the device lookup succeeds, and then the stream is open, the start is the last message built, it is sent iff the transport accepts it, and the id counts as overlapped iff its stream was already open; a device `KeyError` builds and sends nothing |
| Engine.Ape.Callback | src/ape/engine.py:147-160 | a missing session raises `KeyError`; otherwise an update is due iff now − last ≥ 100; a due update is built, sent iff the transport accepts it, and moves `last_track_update` to now unless the device lookup raises; every path that raises or is not due builds and sends nothing; other sessions are untouched, and the result is `paContinue` |
| Engine.Ape.RemoveSession | src/ape/engine.py:177-182 | only the track id is removed; a missing key is reported, not raised |
| Engine.Ape.AbortStream | src/ape/engine.py:175-176 | the stream counts as closed even when its end cannot be emitted, and the order invariant holds |
| Engine.Ape.CloseStream | src/ape/engine.py:175-176 | the stream closes; the end envelope is built iff the device lookup succeeds, and then sent iff the transport accepts it; otherwise nothing is built or sent |
| Engine.Ape.Finish | src/ape/engine.py:175-183 | after the stream closes: the end is built (and sent iff the transport accepts it), then the session is removed; a device `KeyError` ends `_play` before the removal, with nothing built or sent |
| Engine.EventOrder | src/ape/engine.py:139-182 | for a track played once, the messages built for it are a start, then updates, then at most one end, and an end is last |
| Engine.ReplayedAfterStart | src/ape/engine.py:139-145 | a start keeps the replay order, and marks the id overlapped exactly when its previous stream is still open |
| Engine.ReplayedAfterUpdate | src/ape/engine.py:151-157 | an update for an open stream keeps the replay order |
| Engine.ReplayedAfterEnd | src/ape/engine.py:175-176 | the end of an open stream keeps the replay order and closes the stream |
| Engine.ReplayedAfterAbort | src/ape/engine.py:175-176 | a stream closed without its end keeps the replay order |
| Engine.ReplayOrder | src/ape/engine.py:139-182 | for a track replayed any number of times but never started over its own open stream, the messages built for it are plays one after another: a start first, after an end only a new start; at most one stream is open, and while it is, the last event is not an end |
| LegacyApe.AfterStart | src/ape/ape.py:189-194 | a start message, sent or not, begins its track's run and keeps the order |
| LegacyApe.AfterUpdate | src/ape/ape.py:203-206 | an update for an open stream keeps the order |
| LegacyApe.OthersEvents | src/ape/ape.py:139-148 | appending a message changes only its own track's event sequence |
| LegacyApe.Ape.constructor | src/ape/ape.py:100-107 | empty `playing` table, nothing sent, the given device table |
| LegacyApe.Ape.EmitMessage | src/ape/ape.py:139-148 | the envelope uses key `message`; a failed send propagates to the caller (`ok` is the transport's answer) |
| LegacyApe.Ape.Start | src/ape/ape.py:188-194 | the session is stored with now before the start; a device `KeyError` logs nothing; otherwise started iff the send succeeds, and a send failure leaves no open stream |
| LegacyApe.Ape.EmitStart | src/ape/ape.py:150-160 | the start envelope is logged; the stream opens and the message is sent iff the transport accepts it |
| LegacyApe.Ape.Callback | src/ape/ape.py:196-209 | the same throttle as the current engine; a due update is logged, and a failed send propagates to the caller; `last_track_update` moves to now and the update joins the sent messages only when the send succeeds; a missing session or device builds and sends nothing |
| LegacyApe.Ape.Finish | src/ape/ape.py:224-231 | after the stream closes only the track id is removed, a missing key is reported, and no end event exists |
| LegacyApe.ReplayOrder | src/ape/ape.py:184-209 | however often a track is replayed, its messages begin with a start and hold only starts and updates, and there are none iff it was never started |
| LegacyApe.NoEndEvent | src/ape/ape.py:184-231 | this version never emits `stream.end`, and every envelope uses the `message` key |
| LegacyApe.Demo | src/ape/ape.py:234-241 | the two demo entries share cut 100000 but have distinct track ids, so both sessions are in `playing`; the first wait equals the first cut's segue point (52000 ms); two starts are logged |
| PlaylistLines.ParseFields | src/ape/playlist_test.py:85-95 | for space-free fields joined by single spaces: the cut id is the stripped first field; `eof_code` is the stripped second field iff there are at least four fields, else 2 |
| PlaylistLines.ParseFullLine | src/ape/playlist_test.py:84-92 | a full `id eof event time` line yields its id and its `eof` text |
| PlaylistLines.ParseBareLine | src/ape/playlist_test.py:93-95 | a line holding only an id yields that id and the default `eof_code` 2 |
| PlaylistLines.KeptLines | src/ape/playlist_test.py:97-112 | the kept lines are no more than the file's lines, and each names a catalogue cut |
| PlaylistLines.KeptAppend | src/ape/playlist_test.py:84-115 | keeping works line by line: two pieces of a file keep their kept lines, in order |
| PlaylistLines.KeptStep | src/ape/playlist_test.py:97-112 | one more line adds itself exactly when its cut id is known |
| PlaylistLines.KeptAllKnown | src/ape/playlist_test.py:97-104 | when every id is known, every line is kept |
| ApePlaylist.KeptKnown | src/ape/playlist_test.py:97-104 | every kept line names a known cut and has a track id |
| ApePlaylist.Entries | src/ape/playlist_test.py:99-104 | the intended playlist: one entry per kept line |
| ApePlaylist.EntriesIndexed | src/ape/playlist_test.py:82-106 | entry k has the cut of kept line k, index k and its line's `eof_code`; distinct ids give distinct entries' track ids |
| ApePlaylist.AsWritten | src/ape/playlist_test.py:98-104 | one entry per kept line, as the shared records make it |
| ApePlaylist.AsWrittenWithoutRepeats | src/ape/playlist_test.py:98-104 | the code's playlist has the intended cuts, and equals the intended playlist when no cut repeats |
| ApePlaylist.RepeatedCutShared | src/ape/playlist_test.py:98-103 | a cut listed twice: both entries carry the second track id and index 1, where the intended playlist has 0 then 1 |
| ApePlaylist.RepeatedCutLines | src/ape/playlist_test.py:84-106 | a file listing a bare id twice keeps both lines |
| ApePlaylist.AttachStep | src/ape/playlist_test.py:98-106 | attaching the record for a newly kept line keeps every shared record equal to the last write |
| ApePlaylist.ProgressStep | src/ape/playlist_test.py:84-115 | one line of the loop keeps the loop state: known lines attach and extend, unknown ones change nothing |
| ApePlaylist.AttachedPlaylist | src/ape/playlist_test.py:98-104 | once all lines are processed, the shared records spell out the as-written playlist |
| ApePlaylist.AudioPlaylist.constructor | src/ape/playlist_test.py:36-40 | the given catalogue and lines, and no playlist yet |
| ApePlaylist.AudioPlaylist.AttachLines | src/ape/playlist_test.py:84-115 | after the loop, the shared records hold the last write of every kept cut, and cuts not on the playlist keep what they held |
| ApePlaylist.AudioPlaylist.ConstructPlaylist | src/ape/playlist_test.py:78-115 | the playlist is the kept lines' cuts, in file order, equal to the as-written playlist |
| ApePlaylist.AudioPlaylist.PlayPlaylist | src/ape/playlist_test.py:54-73 | entries start in order, each followed by its pacing delay; the pass completes iff every entry can be paced; a topplay cut in last place or a negative sleep ends the pass after that entry started |
| Pacing.NormalDelay | src/ape/playlist_test.py:61-62 | after a normal cut the wait is its segue point |
| Pacing.TopplayDelay | src/ape/playlist_test.py:65-73 | after a topplay cut the wait is never negative; it is segue − ramp of the next cut when that ramp is smaller, otherwise 0 |
| Pacing.NegativeOnlyIfNormal | src/ape/playlist_test.py:61-73 | only a normal cut with a negative segue point gives a negative wait |
| Pacing.TopplayExamples | src/ape/playlist_test.py:66-72 | segue 52000 with a 2000 ms ramp waits 50000; with a 60000 ms ramp it waits 0 |
| Pacing.ReplayIndex | src/ape/playlist_test.py:124-126 | in m replayed passes, wait r of pass q is the wait after entry r: the playlist starts over from index 0 |
| Pacing.ReplayLength | src/ape/playlist_test.py:124-126 | m passes give m times the playlist's length of waits |
| Player.RowColor | src/player.py:91-95 | a row's colour is the table's entry for the cut's text colour, and gray when it is missing or unknown |
| Player.OrangeIsGray | src/player.py:49-67 | `orange`, which exists only as a background, falls back to gray |
| Player.RowsShareFields | src/player.py:84-156 | the three row formats show the same cut number, category, title, artist, length (segue − track begin) and intro |
| Player.AirTimesOrdered | src/player.py:126-154 | with no negative lengths, air-time offsets are non-negative and never go backwards down the table |
| Player.PlaylistTable.constructor | src/player.py:32-47 | no rows, counter 0 |
| Player.PlaylistTable.Clear | src/player.py:73-77 | the counter is set to now and the rows are cleared |
| Player.PlaylistTable.FormatCurrent | src/player.py:109-128 | the on-air row in gray on red, bold; its length is added to the counter |
| Player.PlaylistTable.FormatUpcoming | src/player.py:130-156 | labelled with the counter as it stands, in the cut's colour; its length is then added |
| Player.PlaylistTable.Update | src/player.py:158-173 | after the update, row 0 is the previous row, row 1 is on air, and each later row's air time is the clear time plus the lengths of rows 1 up to it; the counter ends at now plus all of them |
| Player.ShortPlaylistPassesGuard | src/player.py:306-308 | with N = 3 a two-entry playlist passes the guard as written, though the window at its last entry does not fit |
| Player.GuardGap | src/player.py:306-308 | the only lengths the written guard admits beyond N are N − 1, and at its last entry the window does not fit |
| Player.CorrectedGuardSuffices | src/player.py:232-238 | with at least N entries every window fits |
| Player.WindowStart | src/player.py:219-230 | the window starts with the previous entry, which wraps to the last for entry 0, then entry i |
| Player.WindowSnoc | src/player.py:232-238 | each loop step appends entry j, or entry j − n once j passes the end |
| Player.AudioPlayer.constructor | src/player.py:177-181 | the given catalogue and lines, and an empty playlist |
| Player.AudioPlayer.CollectRecords | src/player.py:284-304 | the playlist is the catalogue record of each kept line, in file order |
| Player.AudioPlayer.ConstructPlaylist | src/player.py:282-308 | as above; it exits, with the message naming N, exactly when the guard as written fails |
| Player.AudioPlayer.WindowRows | src/player.py:214-238 | the window is built iff it fits; then it is previous, current and the next N entries wrapped once; otherwise `IndexError` |
| Player.AudioPlayer.UpdateTable | src/player.py:214-240 | when the window fits the table shows it; otherwise the table is untouched |
| Player.AudioPlayer.PlayPlaylist | src/player.py:242-264 | entries start in order, each redrawn and paced by the rule; a table `IndexError`, a topplay in last place or a negative sleep ends the pass; at least N entries rule out the table error, and with every entry paced the pass completes |
| JackPlayer.BlockQueue.constructor | scripts/jplayer.py:49 | an empty queue of the given bound |
| JackPlayer.BlockQueue.Put | scripts/jplayer.py:108-109 | a put succeeds iff the queue holds fewer than `maxsize` entries, and then appends; otherwise nothing changes (`queue.Full`) |
| JackPlayer.BlockQueue.GetNowait | scripts/jplayer.py:87-90 | an empty queue reports `queue.Empty`; otherwise the oldest entry is removed and returned |
| JackPlayer.PortNamesDistinct | scripts/jplayer.py:98-100 | the registered names are pairwise distinct |
| JackPlayer.PatchPlanShape | scripts/jplayer.py:112-122 | every connection joins existing ports; one out-port and several targets connect to targets 0 and 1 only; otherwise port k goes to target k for k below both counts |
| JackPlayer.Player.constructor | scripts/jplayer.py:41-59 | the queue is empty with bound `buffersize`; two ports `AZPlayer Out 1` and `AZPlayer Out 2`; not done; no connections |
| JackPlayer.Player.InitOutputChannel | scripts/jplayer.py:98-100 | exactly `width` ports are registered, named `AZPlayer Out 1` to `AZPlayer Out width` |
| JackPlayer.Player.StopCallback | scripts/jplayer.py:73-81 | every output port is zero-filled, the event is set, and the callback exits |
| JackPlayer.Player.CopyChannels | scripts/jplayer.py:95-96 | channel k goes to port k for k below both counts; other ports are untouched |
| JackPlayer.Player.Process | scripts/jplayer.py:83-96 | in priority order: a changed block size stops with the queue untouched; an empty queue is an underrun; the end marker is consumed and finishes; a block is consumed and copied, and playback continues; every stop silences all ports and sets the event |
| JackPlayer.Player.Enqueue | scripts/jplayer.py:126-129 | one put: appended iff the queue is not full |
| JackPlayer.Player.Prefill | scripts/jplayer.py:108-109 | the first min(buffersize, #blocks) blocks are queued in order and none skipped on an empty queue |
| JackPlayer.Player.AutoPatch | scripts/jplayer.py:112-122 | the connections made are the patch plan for the registered ports |
| JackPlayer.Player.TopUp | scripts/jplayer.py:124-129 | the rest of the blocks, then the end marker, are queued in order iff they fit; otherwise the prefix that fits is queued and the put fails (`queue.Full`) |
| JackPlayer.DrainScenario | scripts/jplayer.py:83-96 | a callback draining two blocks and the end marker continues twice, finishes on the marker, then reports an underrun; the blocks leave in the order they were put, and the ports end silent |
| JackPlayer.Player.Play | scripts/jplayer.py:102-140 | on success the consumer is handed every block in order, then one end marker; from an empty queue that succeeds iff fewer blocks than `buffersize` |
| CutListGen.CreateCutRoundTrip | src/cutlistgen.py:18-59 | a record has no album, no album art, a text colour and `duration` equal to `track_e`, and reads back as its row, with `topplay` coded 1 or 0 |
| CutListGen.GeneratedRebuilt | src/cutlistgen.py:18-59 | every record of that shape is the one its read-back row builds, so the rows with `topplay` 1 or 0 and the generated records correspond one to one |
| CutListGen.LastRow | src/cutlistgen.py:65-71 | every cut number some row carries has a last row carrying it |
| CutListGen.CutsOfKeys | src/cutlistgen.py:62-73 | the keys are exactly the rows' cut numbers |
| CutListGen.CutsOfLastWins | src/cutlistgen.py:65-71 | for a repeated cut number the last row's record wins |
| CutListGen.CutsOfKeyed | src/cutlistgen.py:71 | each record is stored under its own cut number |
| CutListGen.CreateCuts | src/cutlistgen.py:62-73 | the loop builds that map: keys are the rows' cut numbers, the last row wins |
| CutListGen.CutfileReadsBack | src/cutlistgen.py:62-83 | the file built from a sheet has id `cuts.json` and name `94.12 The Stall`, holds exactly the rows' cut numbers, and under each a record that reads back as the last row with that number |
| Routes.AllowedFileIff | src/core/azplay/routes.py:15-18 | a name is accepted iff some cut of it at a dot leaves a dot-free extension that, lower-cased, is `wav` or `mp3` |
| Routes.ExtensionAfterLastDot | src/core/azplay/routes.py:18 | `rsplit('.', 1)` splits at the last dot |
| Routes.InnerExtensionIgnored | src/core/azplay/routes.py:18 | `a.wav.exe` is refused |
| Routes.UpperCaseExtension | src/core/azplay/routes.py:18 | `a.exe.MP3` is accepted |
| Routes.NoDotRefused | src/core/azplay/routes.py:17 | `wav` is refused |
| Routes.TrailingDotRefused | src/core/azplay/routes.py:17-18 | `a.` is refused |
| Routes.AuthMonotone | src/core/azplay/routes.py:25-29 | a role that passes a level passes every lower one, and every higher role passes it |
| Routes.DeleteUser | src/core/azplay/routes.py:157-170 | not found iff the id is missing; refused iff it is the signed-in user; otherwise exactly that row is removed |
| Routes.CurrentUserSurvives | src/core/azplay/routes.py:165-167 | the signed-in user's row survives unchanged, and at most the requested row goes |
| Routes.DeleteCategory | src/core/azplay/routes.py:226-240 | not found iff the id is missing; refused iff any cut refers to it; otherwise exactly that row is removed |
| Routes.DeleteCategoryKeepsReferences | src/core/azplay/routes.py:234-236 | if every cut's category exists before, it still exists after |

## Left out

- Audio hosts and decoders are replaced by given blocks and a given device table: PyAudio, JACK, soundfile, wave and playsound. So are stream open and close, `readframes`, the `is_active` polling, and `get_devices` enumeration.
- Threads, `threading.Event.wait` and `time.sleep` are not modelled. Each sleep is a returned delay, and the concurrent playout threads are not modelled.
- JackPlayer.Player.Play: the reader and the callback do not interleave. A blocking `put` with nothing draining is a failed put (`queue.Full`, so `exit(1)`), and the float timeout is not computed.
- JackPlayer.BlockQueue.constructor: a `maxsize` of 0 or less, which Python treats as unbounded, is not modelled.
- JACK's xrun and shutdown callbacks, `KeyboardInterrupt` and other exceptions of `play` are not modelled. Neither are the printed error messages.
- Samples are `real`: they are only copied or zeroed, so float32 arithmetic does not arise.
- The floating-point `buffer_latency` and `track_elapsed` fields are not modelled, nor is `round(time.time() * 1000)`. The clock is an integer parameter.
- `uuid4` is not modelled: the track ids are a parameter.
- The websocket client (`src/ape/rws.py`) is not part of this model. Whether a send succeeds is a parameter.
- The cut data the engines put in `playing` is the same dict as the message's `cut_info`, so `last_track_update` leaks into the start payload. The model keeps the session apart from the cut data.
- File and JSON I/O are not modelled: `read_playlist`, `read_cuts`, the pandas workbook read, and the JSON dump.
- CutListGen.CutfileReadsBack: `created_at` (a clock reading) is not modelled.
- Engine.EventOrder: it orders every message built. `emit_message` swallows a failed send, so the messages a subscriber receives are only those of them the transport accepted, and can lack the start of a play.
- Engine.ReplayOrder: a track id started again while its own stream is still open (`overlapped`) is not constrained; its plays interleave and no order is claimed for them.
- The JSON dump writing integer keys as strings is not modelled.
- The `cut == None` branch of `create_cuts` is not modelled, because `create_cut` always returns a record.
- `update_pad`'s file write and the HTTP metadata send are not modelled.
- Terminal rendering is not modelled: PrettyTable, the text of ANSI rows, `timedelta` string slicing, `strftime` of the air time, and `system('clear')`. Rows keep integer milliseconds.
- `NEXT_TRACKS_TO_DISPLAY` is a parameter rather than derived from the terminal size.
- Of the web application, only `allowed_file`, `auth`, `delete_user` and `delete_category` are modelled. Forms, uploads, transcoding, the other routes and the database session are not part of this model. `noauth()`'s result is discarded by the routes, so page access is not modelled.
- PyText.LowerIgnoresCase: only ASCII letters are lower-cased. Python's full Unicode case mapping is not modelled.

## Findings

| source | as written | input that shows it | evidently intended | confidence | as-written member | corrected member |
|---|---|---|---|---|---|---|
| src/ape/playlist_test.py:98-104 | `playlist_cut` is the catalogue's own record, so writing its `playlist` key for a cut listed again overwrites the earlier entry's record | a file listing cut `100000` twice, with track ids `u1` and `u2`: both entries carry `u2` and index 1 | each entry keeps its own track id and index (`u1`/0, then `u2`/1) | not executed | ApePlaylist.RepeatedCutShared | ApePlaylist.EntriesIndexed |
| src/player.py:306-308 | the guard exits only on fewer than N − 1 entries, though its message demands at least N | N = 3 and two entries pass the guard; `update_table(1)` then reaches `j = 4` after one wrap and indexes `playlist[2]` (`IndexError`) | exit on fewer than N entries, which makes every window fit | not executed | Player.ShortPlaylistPassesGuard | Player.CorrectedGuardSuffices |

The classes follow the code as written. `ApePlaylist.AudioPlaylist.ConstructPlaylist` builds the playlist with shared records (`ApePlaylist.AsWritten`). `ApePlaylist.AsWrittenWithoutRepeats` proves that it agrees with the intended `ApePlaylist.Entries` whenever no cut repeats. `Player.AudioPlayer.ConstructPlaylist` applies the guard as written. `Player.AudioPlayer.PlayPlaylist` proves that the corrected guard (`Player.GuardCorrected`) rules out the table error.
