/** The terminal playlist player: it reads the playlist against the
    catalogue, plays each cut with the pacing rule between starts, and after
    every start redraws a table of the previous, the on-air and the next N
    cuts, with the wall-clock air time of each upcoming cut. N (the terminal
    height less seven) is a parameter, and so is the clock. Rows keep the
    integer milliseconds; their text rendering is not modelled. */
module Player {

  import opened Wrappers
  import opened Catalog
  import opened PyText
  import opened PlaylistLines
  import Pacing

  /** Foreground colour escapes, by colour name. */
  const Colors: map<string, string> := map[
    "black" := "\U{1B}[90m", "red" := "\U{1B}[91m", "green" := "\U{1B}[92m", "yellow" := "\U{1B}[93m",
    "blue" := "\U{1B}[94m", "purple" := "\U{1B}[95m", "cyan" := "\U{1B}[96m", "gray" := "\U{1B}[97m"]

  /** Background colour escapes; `orange` exists only as a background. */
  const Backgrounds: map<string, string> := map[
    "black" := "\U{1B}[40m", "red" := "\U{1B}[41m", "green" := "\U{1B}[42m", "orange" := "\U{1B}[43m",
    "blue" := "\U{1B}[44m", "purple" := "\U{1B}[45m", "cyan" := "\U{1B}[46m", "gray" := "\U{1B}[47m"]

  const Styles: map<string, string> := map["bold" := "\U{1B}[1m", "underline" := "\U{1B}[4m"]

  /** The on-air row's style: gray on red, bold. */
  const OnAirStyle: string := Colors["gray"] + Backgrounds["red"] + Styles["bold"]

  function RowColorOf(t: Option<string>): string
  {
    if t.Some? && t.value in Colors then Colors[t.value] else Colors["gray"]
  }

  /** A row's colour: the cut's text colour when it names a foreground
      colour; gray when the key is missing or the colour unknown. */
  function RowColor(c: Cut): (r: string)
    ensures r in Colors.Values
    ensures c.textColor.Some? && c.textColor.value in Colors ==> r == Colors[c.textColor.value]
    ensures c.textColor.None? || c.textColor.value !in Colors ==> r == Colors["gray"]
  {
    RowColorOf(c.textColor)
  }

  /** `orange`, a background only, falls back to gray like any unknown name. */
  lemma OrangeIsGray(c: Cut)
    requires c.textColor == Some("orange")
    ensures RowColor(c) == Colors["gray"]
  {
    assert "orange" !in Colors by {
      assert "orange"[0] == 'o';
    }
  }

  datatype Label = Previous | OnAir | AirTime(ms: int)

  /** One table row: its first cell's heading, the cut's fields, the
      displayed length (track begin to segue) and intro (the intro-end
      marker), and the style its cells are drawn in. */
  datatype Row = Row(heading: Label, cut: int, category: string, title: string, artist: string,
                     lengthMs: int, introMs: int, style: string)

  function CutRow(heading: Label, c: Cut, style: string): Row
  {
    Row(heading, c.cut, c.category, c.meta.title, c.meta.artist, Length(c), c.timers.introEnd, style)
  }

  function PreviousRow(c: Cut): Row
  {
    CutRow(Previous, c, RowColor(c))
  }

  /** The three row formats show the same cut fields, length and intro;
      they differ only in the label and the style. */
  lemma RowsShareFields(c: Cut, t: int)
    ensures var p, o, u := PreviousRow(c), CutRow(OnAir, c, OnAirStyle), CutRow(AirTime(t), c, RowColor(c));
      && p.(heading := OnAir, style := OnAirStyle) == o
      && p.(heading := AirTime(t)) == u
      && p.lengthMs == c.timers.segueBegin - c.timers.trackBegin
  {
  }

  /** Total length of rows 1 .. k-1; the previous row (row 0) adds nothing. */
  function AirSum(tracks: seq<Cut>, k: nat): int
    requires k <= |tracks|
  {
    if k <= 1 then 0 else AirSum(tracks, k - 1) + Length(tracks[k - 1])
  }

  /** Row k of the table drawn for `tracks` when cleared at clock `now`. */
  function RowAt(tracks: seq<Cut>, k: nat, now: int): Row
    requires k < |tracks|
  {
    if k == 0 then PreviousRow(tracks[0])
    else if k == 1 then CutRow(OnAir, tracks[1], OnAirStyle)
    else CutRow(AirTime(now + AirSum(tracks, k)), tracks[k], RowColor(tracks[k]))
  }

  /** The table the update draws for `tracks`, cleared at clock `now`. */
  function Rendered(tracks: seq<Cut>, now: int): (r: seq<Row>)
    ensures |r| == |tracks|
  {
    seq(|tracks|, k requires 0 <= k < |tracks| => RowAt(tracks, k, now))
  }

  /** With no negative lengths, the upcoming air times never go backwards
      and none is before the on-air row's start. */
  lemma {:induction false} AirTimesOrdered(tracks: seq<Cut>, a: nat, b: nat)
    requires a <= b <= |tracks|
    requires forall k :: 0 <= k < |tracks| ==> Length(tracks[k]) >= 0
    ensures 0 <= AirSum(tracks, a) <= AirSum(tracks, b)
    decreases b
  {
    if a < b {
      AirTimesOrdered(tracks, a, b - 1);
    } else if a > 1 {
      AirTimesOrdered(tracks, a - 1, a - 1);
    }
  }

  class PlaylistTable {
    var airTimeCounter: int
    var rows: seq<Row>

    constructor()
      ensures airTimeCounter == 0 && rows == []
    {
      airTimeCounter := 0;
      rows := [];
    }

    /** `_clear`: the air-time counter restarts at the current time. */
    method Clear(now: int)
      modifies this
      ensures airTimeCounter == now && rows == []
    {
      airTimeCounter := now;
      rows := [];
    }

    /** `_format_current_track`: the on-air row; its length is added to the
        counter. */
    method FormatCurrent(c: Cut) returns (r: Row)
      modifies this`airTimeCounter
      ensures r == CutRow(OnAir, c, OnAirStyle)
      ensures airTimeCounter == old(airTimeCounter) + Length(c)
    {
      r := CutRow(OnAir, c, OnAirStyle);
      airTimeCounter := airTimeCounter + Length(c);
    }

    /** `_format_upcoming_track`: labelled with the counter as it stands,
        which then moves on by the cut's length. */
    method FormatUpcoming(c: Cut) returns (r: Row)
      modifies this`airTimeCounter
      ensures r == CutRow(AirTime(old(airTimeCounter)), c, RowColor(c))
      ensures airTimeCounter == old(airTimeCounter) + Length(c)
    {
      r := CutRow(AirTime(airTimeCounter), c, RowColor(c));
      airTimeCounter := airTimeCounter + Length(c);
    }

    /** `update`: clear at `now`, then one row per track: the previous
        track, the on-air track, then the upcoming ones. Row k >= 2 airs at
        `now` plus the lengths of rows 1 .. k-1. */
    method Update(tracks: seq<Cut>, now: int)
      modifies this
      ensures rows == Rendered(tracks, now)
      ensures airTimeCounter == now + AirSum(tracks, |tracks|)
    {
      Clear(now);
      var i := 0;
      while i < |tracks|
        invariant 0 <= i <= |tracks|
        invariant airTimeCounter == now + AirSum(tracks, i)
        invariant |rows| == i && forall k :: 0 <= k < i ==> rows[k] == RowAt(tracks, k, now)
      {
        var row;
        if i == 0 {
          row := PreviousRow(tracks[0]);
        } else if i == 1 {
          row := FormatCurrent(tracks[1]);
        } else {
          row := FormatUpcoming(tracks[i]);
        }
        rows := rows + [row];
        i := i + 1;
      }
    }
  }

  /** The display window around entry i of a playlist of n entries: the
      entry before it (wrapping to the last), the entry itself, then the
      next `next` entries, wrapping to the start of the playlist. */
  function Window(p: seq<Cut>, i: nat, next: int): (r: seq<Cut>)
    requires i < |p|
  {
    var n := |p|;
    [p[(i - 1) % n], p[i]] + seq(if next > 0 then next else 0, k requires 0 <= k => p[(i + 1 + k) % n])
  }

  /** The window's loop wraps only once, so it stays within the playlist
      exactly when its last index i + N is below 2n. */
  predicate WindowFits(i: nat, next: int, n: nat)
  {
    next <= 0 || i + next < 2 * n
  }

  /** The exit guard as written: fewer than N - 1 entries is rejected. */
  predicate GuardAsWritten(n: nat, next: int)
  {
    !(n < next - 1)
  }

  /** The guard the exit message states: at least N entries. */
  predicate GuardCorrected(n: nat, next: int)
  {
    n >= next
  }

  /** With N = 3 a two-entry playlist passes the guard as written, yet the
      window around its last entry runs past the single wrap. */
  lemma ShortPlaylistPassesGuard()
    ensures GuardAsWritten(2, 3) && !GuardCorrected(2, 3) && !WindowFits(1, 3, 2)
  {
  }

  /** Every playlist the written guard admits beyond the stated one fails
      at its last entry. */
  lemma GuardGap(n: nat, next: int)
    requires n >= 1 && GuardAsWritten(n, next) && !GuardCorrected(n, next)
    ensures n == next - 1 && !WindowFits(n - 1, next, n)
  {
  }

  /** At least N entries make every window fit. */
  lemma CorrectedGuardSuffices(n: nat, next: int, i: nat)
    requires GuardCorrected(n, next) && i < n
    ensures WindowFits(i, next, n)
  {
  }

  /** The empty window is the previous entry, wrapping to the last, and the
      entry itself. */
  lemma WindowStart(p: seq<Cut>, i: nat)
    requires i < |p|
    ensures Window(p, i, 0) == [if i == 0 then p[|p| - 1] else p[i - 1], p[i]]
  {
    if i == 0 {
      ModOnce(|p| - 1 + |p|, |p|);
    }
  }

  /** Widening the window by one appends the next entry, wrapped once
      round the playlist. */
  lemma WindowSnoc(p: seq<Cut>, i: nat, m: nat)
    requires i < |p| && i + 1 + m < 2 * |p|
    ensures Window(p, i, m + 1) == Window(p, i, m) + [p[if i + 1 + m >= |p| then i + 1 + m - |p| else i + 1 + m]]
  {
    WindowGrow(p, i, m);
    WrapOnce(i + 1 + m, |p|);
  }

  lemma WindowGrow(p: seq<Cut>, i: nat, m: nat)
    requires i < |p|
    ensures Window(p, i, m + 1) == Window(p, i, m) + [p[(i + 1 + m) % |p|]]
  {
  }

  lemma ModOnce(j: int, n: int)
    requires 0 < n <= j < 2 * n
    ensures j % n == j - n
  {
  }

  /** Below 2n, reduction modulo n subtracts n at most once. */
  lemma WrapOnce(j: nat, n: nat)
    requires 0 < n && j < 2 * n
    ensures j % n == if j >= n then j - n else j
  {
    if j >= n {
      ModOnce(j, n);
    }
  }

  /** `playlist` holds the catalogue record of each kept line, in order. */
  ghost predicate Collected(kept: seq<string>, cuts: map<string, Cut>, playlist: seq<Cut>)
  {
    |playlist| == |kept| && forall k :: 0 <= k < |kept| ==> CutId(kept[k]) in cuts && playlist[k] == cuts[CutId(kept[k])]
  }

  lemma CollectStep(kept: seq<string>, cuts: map<string, Cut>, playlist: seq<Cut>, line: string)
    requires Collected(kept, cuts, playlist) && CutId(line) in cuts
    ensures Collected(kept + [line], cuts, playlist + [cuts[CutId(line)]])
  {
  }

  /** The message `construct_playlist` exits with on a short playlist. */
  function ShortPlaylistMessage(next: nat): string
  {
    "Error: Playlist must contain at least " + NatToString(next) + " cuts to play."
  }

  /** The first i entries of a pass were started in order, each followed
      by its pacing delay. */
  ghost predicate Played(p: seq<Cut>, started: seq<string>, delays: seq<int>, i: nat)
  {
    i <= |p| && |started| == |delays| == i
    && (forall k :: 0 <= k < i ==> started[k] == p[k].links.audio)
    && (forall k :: 0 <= k < i ==> Pacing.NextKnown(p, k) && delays[k] == Pacing.Delay(p, k) && delays[k] >= 0)
  }

  lemma PlayedStep(p: seq<Cut>, started: seq<string>, delays: seq<int>, i: nat)
    requires Played(p, started, delays, i) && i < |p|
    requires Pacing.NextKnown(p, i) && Pacing.Delay(p, i) >= 0
    ensures Played(p, started + [p[i].links.audio], delays + [Pacing.Delay(p, i)], i + 1)
  {
  }

  /** Entry i started, and the pass stops before its delay. */
  lemma PlayedStop(p: seq<Cut>, started: seq<string>, delays: seq<int>, i: nat)
    requires Played(p, started, delays, i) && i < |p|
    ensures var s := started + [p[i].links.audio];
      && |delays| == |s| - 1 == i && |s| <= |p|
      && (forall k :: 0 <= k < |s| ==> s[k] == p[k].links.audio)
      && (forall k :: 0 <= k < |delays| ==> Pacing.NextKnown(p, k) && delays[k] == Pacing.Delay(p, k))
  {
  }

  /** A pass that got through every entry paced them all. */
  lemma PlayedAll(p: seq<Cut>, started: seq<string>, delays: seq<int>)
    requires Played(p, started, delays, |p|)
    ensures Pacing.PassPaced(p)
  {
  }

  datatype PassOutcome = Completed | TableIndexError(at: nat) | NextMissing(at: nat) | NegativeSleep(at: nat)

  class AudioPlayer {
    const cuts: map<string, Cut>
    const playlistData: seq<string>
    var playlist: seq<Cut>

    constructor(cuts: map<string, Cut>, playlistData: seq<string>)
      ensures this.cuts == cuts && this.playlistData == playlistData && playlist == []
    {
      this.cuts := cuts;
      this.playlistData := playlistData;
      playlist := [];
    }

    /** The loop of `construct_playlist`: the catalogue records of the
        kept lines, in file order. */
    method CollectRecords()
      modifies this`playlist
      ensures |playlist| == |KeptLines(playlistData, cuts)|
      ensures forall k :: 0 <= k < |playlist| ==> playlist[k] == cuts[CutId(KeptLines(playlistData, cuts)[k])]
    {
      playlist := [];
      var i := 0;
      ghost var kept: seq<string> := [];
      while i < |playlistData|
        invariant 0 <= i <= |playlistData|
        invariant kept == KeptLines(playlistData[..i], cuts)
        invariant Collected(kept, cuts, playlist)
      {
        var line := playlistData[i];
        var cut := CutId(line);
        KeptStep(playlistData, i, cuts);
        if cut in cuts {
          CollectStep(kept, cuts, playlist, line);
          playlist := playlist + [cuts[cut]];
          kept := kept + [line];
        }
        i := i + 1;
      }
      assert playlistData[..i] == playlistData;
    }

    /** `construct_playlist`: collect the records, then exit with the
        given message when there are fewer than N - 1 of them. */
    method ConstructPlaylist(next: int) returns (exit: Option<string>)
      modifies this`playlist
      ensures |playlist| == |KeptLines(playlistData, cuts)|
      ensures forall k :: 0 <= k < |playlist| ==> playlist[k] == cuts[CutId(KeptLines(playlistData, cuts)[k])]
      ensures exit.None? <==> GuardAsWritten(|playlist|, next)
      ensures exit.Some? ==> next >= 2 && exit.value == ShortPlaylistMessage(next)
    {
      CollectRecords();
      if |playlist| < next - 1 {
        return Some(ShortPlaylistMessage(next));
      }
      return None;
    }

    /** The list `update_table` builds: previous, current, then the loop
        over j = i+1 .. i+N that takes entry j, or once j reaches the end
        entry j - n, as counted by the wrap counter; past a single wrap the
        lookup raises `IndexError` (the offending index is returned). */
    method WindowRows(i: nat, next: int) returns (r: Result<seq<Cut>, int>)
      requires i < |playlist|
      ensures r.Ok? <==> WindowFits(i, next, |playlist|)
      ensures r.Ok? ==> r.value == Window(playlist, i, next)
      ensures r.Err? ==> r.error == |playlist|
    {
      var n := |playlist|;
      var rows := [if i == 0 then playlist[n - 1] else playlist[i - 1], playlist[i]];
      WindowStart(playlist, i);
      var wrap := 0;
      var j := i + 1;
      var hi := i + next + 1;
      while j < hi
        invariant i + 1 <= j && (j <= hi || j == i + 1)
        invariant wrap == if j >= n then j - n else 0
        invariant j - 1 < 2 * n
        invariant |rows| == 2 + (j - i - 1)
        invariant rows == Window(playlist, i, j - i - 1)
      {
        var row;
        if j >= n {
          if wrap >= n {
            assert !WindowFits(i, next, n);
            return Err(wrap);
          }
          row := playlist[wrap];
          wrap := wrap + 1;
        } else {
          row := playlist[j];
        }
        WindowSnoc(playlist, i, j - i - 1);
        rows := rows + [row];
        j := j + 1;
      }
      return Ok(rows);
    }

    /** `update_table`: build the window around entry i and redraw the
        table with it at clock `now`. */
    method UpdateTable(table: PlaylistTable, i: nat, next: int, now: int) returns (r: Result<seq<Cut>, int>)
      requires i < |playlist|
      modifies table
      ensures r.Ok? <==> WindowFits(i, next, |playlist|)
      ensures r.Ok? ==> r.value == Window(playlist, i, next) && table.rows == Rendered(r.value, now)
      ensures r.Err? ==> table.rows == old(table.rows) && table.airTimeCounter == old(table.airTimeCounter)
    {
      r := WindowRows(i, next);
      if r.Ok? {
        table.Update(r.value, now);
      }
    }

    /** One pass of `play_playlist`: start entry i's audio file, redraw the
        table at clock reading i, then wait the pacing rule's delay. The
        program-data file and its HTTP push are not modelled. */
    method PlayPlaylist(table: PlaylistTable, next: int, clock: seq<int>)
      returns (started: seq<string>, delays: seq<int>, outcome: PassOutcome)
      requires |playlist| <= |clock|
      modifies table
      ensures |delays| <= |started| <= |playlist|
      ensures forall k :: 0 <= k < |started| ==> started[k] == playlist[k].links.audio
      ensures forall k :: 0 <= k < |delays| ==>
        Pacing.NextKnown(playlist, k) && delays[k] == Pacing.Delay(playlist, k)
      ensures outcome == Completed ==> |started| == |delays| == |playlist| && Pacing.PassPaced(playlist)
      ensures outcome != Completed ==> outcome.at == |delays| == |started| - 1
      ensures outcome.TableIndexError? ==> !WindowFits(outcome.at, next, |playlist|)
      ensures outcome.NextMissing? ==> !Pacing.NextKnown(playlist, outcome.at)
      ensures outcome.NegativeSleep? ==>
        Pacing.NextKnown(playlist, outcome.at) && Pacing.Delay(playlist, outcome.at) < 0
      ensures GuardCorrected(|playlist|, next) ==> !outcome.TableIndexError?
      ensures Pacing.PassPaced(playlist) && GuardCorrected(|playlist|, next) ==> outcome == Completed
      ensures 0 < |started| && !outcome.TableIndexError? ==>
        table.rows == Rendered(Window(playlist, |started| - 1, next), clock[|started| - 1])
    {
      var p := playlist;
      started, delays := [], [];
      var i := 0;
      while i < |p|
        invariant Played(p, started, delays, i)
        invariant 0 < i ==> table.rows == Rendered(Window(p, i - 1, next), clock[i - 1])
      {
        PlayedStop(p, started, delays, i);
        var w := UpdateTable(table, i, next, clock[i]);
        if w.Err? {
          if GuardCorrected(|p|, next) {
            CorrectedGuardSuffices(|p|, next, i);
          }
          return started + [p[i].links.audio], delays, TableIndexError(i);
        }
        if !Pacing.NextKnown(p, i) {
          return started + [p[i].links.audio], delays, NextMissing(i);
        }
        var d := Pacing.Delay(p, i);
        if d < 0 {
          return started + [p[i].links.audio], delays, NegativeSleep(i);
        }
        PlayedStep(p, started, delays, i);
        started := started + [p[i].links.audio];
        delays := delays + [d];
        i := i + 1;
      }
      PlayedAll(p, started, delays);
      return started, delays, Completed;
    }
  }
}
