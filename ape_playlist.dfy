/** The engine's test playlist: lines are matched against the catalogue
    and each kept cut is given its `playlist` record, then the playlist is
    played out with the pacing rule between starts.

    The catalogue's cut records are shared and mutable: attaching the
    `playlist` record writes into the catalogue's own record, so a cut
    listed twice is one record, listed twice, carrying whichever `playlist`
    record was written last. The class models that sharing explicitly. */
module ApePlaylist {

  import opened Wrappers
  import opened Catalog
  import opened PlaylistLines
  import Pacing
  import PyText

  /** The `playlist` record of kept entry `k`. */
  function Info(kept: seq<string>, ids: seq<string>, k: nat): PlaylistInfo
    requires k < |kept| && k < |ids|
  {
    PlaylistInfo(ids[k], k, EofAction(kept[k]))
  }

  /** Every kept line names a cut of the catalogue, and a track id is
      supplied for each. */
  ghost predicate Known(kept: seq<string>, cuts: map<string, Cut>, ids: seq<string>)
  {
    |kept| <= |ids| && forall k :: 0 <= k < |kept| ==> CutId(kept[k]) in cuts
  }

  /** The lines a file keeps all name known cuts, and a file with no more
      lines than supplied ids has an id for each. */
  lemma KeptKnown(lines: seq<string>, cuts: map<string, Cut>, ids: seq<string>)
    requires |lines| <= |ids|
    ensures Known(KeptLines(lines, cuts), cuts, ids)
  {
  }

  /** The intended playlist: one entry per kept line, each with its own
      `playlist` record holding the k-th supplied track id, index k and the
      line's end-of-file action. */
  function Entries(kept: seq<string>, cuts: map<string, Cut>, ids: seq<string>): (r: seq<Track>)
    requires Known(kept, cuts, ids)
    ensures |r| == |kept|
  {
    seq(|kept|, k requires 0 <= k < |kept| => Track(cuts[CutId(kept[k])], Info(kept, ids, k)))
  }

  /** Indices count 0, 1, 2, ... over the kept entries only, each entry
      carries its own track id and its own line's end-of-file action, and
      distinct supplied ids give distinct track ids. */
  lemma EntriesIndexed(kept: seq<string>, cuts: map<string, Cut>, ids: seq<string>)
    requires Known(kept, cuts, ids)
    ensures forall k :: 0 <= k < |kept| ==>
      && Entries(kept, cuts, ids)[k].playlist.index == k
      && Entries(kept, cuts, ids)[k].playlist.trackId == ids[k]
      && Entries(kept, cuts, ids)[k].playlist.eofCode == EofAction(kept[k])
      && Entries(kept, cuts, ids)[k].cut == cuts[CutId(kept[k])]
    ensures (forall a, b :: 0 <= a < b < |ids| ==> ids[a] != ids[b]) ==>
      forall a, b :: 0 <= a < b < |kept| ==>
        Entries(kept, cuts, ids)[a].playlist.trackId != Entries(kept, cuts, ids)[b].playlist.trackId
  {
  }

  /** The position of the last occurrence of `x` in `s`. */
  function LastIndex(s: seq<string>, x: string): (r: nat)
    requires x in s
    ensures r < |s| && s[r] == x
    ensures forall j :: r < j < |s| ==> s[j] != x
  {
    if s[|s| - 1] == x then |s| - 1
    else
      assert x in s[..|s| - 1] by {
        var j :| 0 <= j < |s| && s[j] == x;
        assert s[..|s| - 1][j] == x;
      }
      LastIndex(s[..|s| - 1], x)
  }

  lemma LastIndexSnoc(s: seq<string>, y: string, x: string)
    requires x in s + [y]
    ensures x == y ==> LastIndex(s + [y], x) == |s|
    ensures x != y ==> x in s && LastIndex(s + [y], x) == LastIndex(s, x)
  {
    assert (s + [y])[..|s|] == s;
  }

  /** The playlist the code builds: entry k shows the cut of kept line k,
      but the `playlist` record of the last kept line naming the same cut. */
  function AsWritten(kept: seq<string>, cuts: map<string, Cut>, ids: seq<string>): (r: seq<Track>)
    requires Known(kept, cuts, ids)
    ensures |r| == |kept|
  {
    var keys := Keys(kept);
    seq(|kept|, k requires 0 <= k < |kept| => Track(cuts[keys[k]], Info(kept, ids, LastIndex(keys, keys[k]))))
  }

  /** Without a repeated cut the sharing is invisible: the code builds the
      intended playlist. Either way the cuts are the intended ones. */
  lemma AsWrittenWithoutRepeats(kept: seq<string>, cuts: map<string, Cut>, ids: seq<string>)
    requires Known(kept, cuts, ids)
    ensures forall k :: 0 <= k < |kept| ==> AsWritten(kept, cuts, ids)[k].cut == Entries(kept, cuts, ids)[k].cut
    ensures (forall a, b :: 0 <= a < b < |kept| ==> CutId(kept[a]) != CutId(kept[b])) ==>
      AsWritten(kept, cuts, ids) == Entries(kept, cuts, ids)
  {
    var keys := Keys(kept);
    if forall a, b :: 0 <= a < b < |kept| ==> CutId(kept[a]) != CutId(kept[b]) {
      forall k | 0 <= k < |kept| ensures LastIndex(keys, keys[k]) == k {
        var l := LastIndex(keys, keys[k]);
        assert keys[l] == keys[k];
      }
    }
  }

  /** Two kept lines naming the same cut: both entries carry the second
      line's track id and index 1, where the first should carry index 0. */
  lemma RepeatedCutShared(line: string, c: Cut, first: string, second: string)
    requires EofAction(line) == DefaultEofCode
    ensures var kept, cuts, ids := [line, line], map[CutId(line) := c], [first, second];
      && Known(kept, cuts, ids)
      && AsWritten(kept, cuts, ids)[0].playlist == PlaylistInfo(second, 1, DefaultEofCode)
      && AsWritten(kept, cuts, ids)[1].playlist == PlaylistInfo(second, 1, DefaultEofCode)
      && Entries(kept, cuts, ids)[0].playlist == PlaylistInfo(first, 0, DefaultEofCode)
  {
    var id := CutId(line);
    var kept := [line, line];
    forall k | 0 <= k < |kept| ensures CutId(kept[k]) in map[id := c] {
      assert kept[k] == line;
    }
    assert Keys([line, line]) == [id, id];
    assert LastIndex([id, id], id) == 1;
  }

  /** A file that lists a cut twice, by a bare id such as `100000`, keeps
      both lines, so the sharing above shows up in the built playlist. */
  lemma RepeatedCutLines(id: string, c: Cut)
    requires ' ' !in id && PyText.Trimmed(id)
    ensures CutId(id + "\n") == id && EofAction(id + "\n") == DefaultEofCode
    ensures KeptLines([id + "\n", id + "\n"], map[id := c]) == [id + "\n", id + "\n"]
  {
    ParseBareLine(id);
    KeptAllKnown([id + "\n", id + "\n"], map[id := c]);
  }

  /** The shared records after `kept` has been processed: `keys` names the
      kept cuts, and each one's record is that of the last kept line naming
      it. */
  ghost predicate Attached(kept: seq<string>, ids: seq<string>, cuts: map<string, Cut>, keys: seq<string>, attached: map<string, PlaylistInfo>)
  {
    && |kept| <= |ids|
    && keys == Keys(kept)
    && (forall c :: c in keys ==> c in cuts && c in attached)
    && (forall c :: c in keys ==> attached[c] == Info(kept, ids, LastIndex(keys, c)))
  }

  /** Attaching the record of a newly kept line keeps every shared record
      holding the record of the last kept line naming its cut. */
  lemma AttachStep(kept: seq<string>, ids: seq<string>, cuts: map<string, Cut>, keys: seq<string>, attached: map<string, PlaylistInfo>, line: string)
    requires Attached(kept, ids, cuts, keys, attached) && |kept| < |ids| && CutId(line) in cuts
    ensures Attached(kept + [line], ids, cuts, keys + [CutId(line)],
                     attached[CutId(line) := PlaylistInfo(ids[|kept|], |kept|, EofAction(line))])
  {
    var cut := CutId(line);
    var kept', keys' := kept + [line], keys + [cut];
    var attached' := attached[cut := PlaylistInfo(ids[|kept|], |kept|, EofAction(line))];
    forall c | c in keys' ensures c in attached' && attached'[c] == Info(kept', ids, LastIndex(keys', c)) {
      LastIndexSnoc(keys, cut, c);
      if c != cut {
        assert kept'[LastIndex(keys, c)] == kept[LastIndex(keys, c)];
      }
    }
  }

  /** Shared records of cuts not yet on the playlist keep what they held. */
  ghost predicate Untouched(before: map<string, PlaylistInfo>, keys: seq<string>, attached: map<string, PlaylistInfo>)
  {
    forall c :: c in before && c !in keys ==> c in attached && attached[c] == before[c]
  }

  /** The state of the loop of `construct_playlist` after the first i lines. */
  ghost predicate Progress(lines: seq<string>, i: nat, cuts: map<string, Cut>, ids: seq<string>, kept: seq<string>,
                           keys: seq<string>, before: map<string, PlaylistInfo>, attached: map<string, PlaylistInfo>)
  {
    && i <= |lines|
    && kept == KeptLines(lines[..i], cuts)
    && Attached(kept, ids, cuts, keys, attached)
    && Untouched(before, keys, attached)
  }

  /** One line of the loop: a known cut attaches a record and extends the
      playlist, an unknown one changes nothing. */
  lemma ProgressStep(lines: seq<string>, i: nat, cuts: map<string, Cut>, ids: seq<string>, kept: seq<string>,
                     keys: seq<string>, before: map<string, PlaylistInfo>, attached: map<string, PlaylistInfo>)
    requires Progress(lines, i, cuts, ids, kept, keys, before, attached) && i < |lines| && |lines| <= |ids|
    ensures var line := lines[i];
      var cut := CutId(line);
      if cut in cuts then
        Progress(lines, i + 1, cuts, ids, kept + [line], keys + [cut], before,
                 attached[cut := PlaylistInfo(ids[|kept|], |kept|, EofAction(line))])
      else
        Progress(lines, i + 1, cuts, ids, kept, keys, before, attached)
  {
    KeptStep(lines, i, cuts);
    var line := lines[i];
    if CutId(line) in cuts {
      assert |kept| <= i by { assert |KeptLines(lines[..i], cuts)| <= |lines[..i]|; }
      AttachStep(kept, ids, cuts, keys, attached, line);
    }
  }

  /** The playlist seen through the shared records: entry k is the record
      of cut `keys[k]` with the `playlist` record attached to it. */
  function Resolve(keys: seq<string>, cuts: map<string, Cut>, attached: map<string, PlaylistInfo>): (r: seq<Track>)
    requires forall k :: 0 <= k < |keys| ==> keys[k] in cuts && keys[k] in attached
    ensures |r| == |keys|
  {
    seq(|keys|, k requires 0 <= k < |keys| => Track(cuts[keys[k]], attached[keys[k]]))
  }

  /** Once every line is processed the shared records spell out `AsWritten`. */
  lemma AttachedPlaylist(kept: seq<string>, cuts: map<string, Cut>, ids: seq<string>, keys: seq<string>, attached: map<string, PlaylistInfo>)
    requires Attached(kept, ids, cuts, keys, attached) && Known(kept, cuts, ids)
    ensures forall k :: 0 <= k < |keys| ==> keys[k] in cuts && keys[k] in attached
    ensures Resolve(keys, cuts, attached) == AsWritten(kept, cuts, ids)
  {
    assert forall k :: 0 <= k < |keys| ==> keys[k] in keys;
    var a := Resolve(keys, cuts, attached);
    var b := AsWritten(kept, cuts, ids);
    forall k | 0 <= k < |keys| ensures a[k] == b[k] {
      assert keys[k] in keys;
      assert a[k] == Track(cuts[keys[k]], attached[keys[k]]);
      assert b[k] == Track(cuts[keys[k]], Info(kept, ids, LastIndex(keys, keys[k])));
    }
  }

  datatype PassOutcome = Completed | NextMissing(at: nat) | NegativeSleep(at: nat)

  /** The cuts of a playlist, for the pacing rule. */
  function CutsOf(p: seq<Track>): (r: seq<Cut>)
    ensures |r| == |p| && forall k :: 0 <= k < |p| ==> r[k] == p[k].cut
  {
    seq(|p|, k requires 0 <= k < |p| => p[k].cut)
  }

  class AudioPlaylist {
    /** The catalogue, cut id to the shared cut record. */
    const cuts: map<string, Cut>
    /** The playlist file, line by line. */
    const playlistData: seq<string>
    /** The `playlist` record currently attached to each shared cut record. */
    var attached: map<string, PlaylistInfo>
    /** `self.playlist`: which shared record each entry is. */
    var keys: seq<string>

    ghost predicate Valid()
      reads this
    {
      forall k :: 0 <= k < |keys| ==> keys[k] in cuts && keys[k] in attached
    }

    /** The playlist as seen through the shared records. */
    function Playlist(): (r: seq<Track>)
      reads this
      requires Valid()
      ensures |r| == |keys|
    {
      Resolve(keys, cuts, attached)
    }

    constructor(cuts: map<string, Cut>, playlistData: seq<string>)
      ensures Valid() && this.cuts == cuts && this.playlistData == playlistData
      ensures attached == map[] && keys == []
    {
      this.cuts := cuts;
      this.playlistData := playlistData;
      attached := map[];
      keys := [];
    }

    /** The loop of `construct_playlist`: the kept lines in file order, each
        one's `playlist` record written into its cut's shared record. */
    method AttachLines(ids: seq<string>)
      requires |playlistData| <= |ids|
      modifies this`attached, this`keys
      ensures Attached(KeptLines(playlistData, cuts), ids, cuts, keys, attached)
      ensures Untouched(old(attached), keys, attached)
    {
      var lines, catalogue := playlistData, cuts;
      var ks: seq<string> := [];
      var att := attached;
      var i := 0;
      var n := 0;
      ghost var kept: seq<string> := [];
      while i < |lines|
        invariant Progress(lines, i, catalogue, ids, kept, ks, old(attached), att) && n == |kept|
      {
        ProgressStep(lines, i, catalogue, ids, kept, ks, old(attached), att);
        var line := lines[i];
        var cut := CutId(line);
        if cut in catalogue {
          att := att[cut := PlaylistInfo(ids[n], n, EofAction(line))];
          ks := ks + [cut];
          kept := kept + [line];
          n := n + 1;
        }
        i := i + 1;
      }
      assert lines[..i] == lines;
      keys, attached := ks, att;
    }

    /** `construct_playlist`, with `ids` the track ids `uuid4` hands out, one
        per kept line. Records of cuts not on the playlist keep whatever
        `playlist` record they had. */
    method ConstructPlaylist(ids: seq<string>)
      requires |playlistData| <= |ids|
      modifies this`attached, this`keys
      ensures Valid()
      ensures keys == Keys(KeptLines(playlistData, cuts))
      ensures Playlist() == AsWritten(KeptLines(playlistData, cuts), cuts, ids)
      ensures Untouched(old(attached), keys, attached)
    {
      AttachLines(ids);
      KeptKnown(playlistData, cuts, ids);
      AttachedPlaylist(KeptLines(playlistData, cuts), cuts, ids, keys, attached);
    }

    /** One pass of `play_playlist`: start each entry, then wait the pacing
        rule's delay. A topplay cut in last place raises `IndexError` and a
        negative segue point makes `sleep` raise; both end the pass after
        that entry has started. */
    method PlayPlaylist() returns (started: seq<Track>, delays: seq<int>, outcome: PassOutcome)
      requires Valid()
      ensures var p := Playlist();
        && |delays| <= |started| <= |p|
        && started == p[..|started|]
        && (forall k :: 0 <= k < |delays| ==> Pacing.NextKnown(CutsOf(p), k) && delays[k] == Pacing.Delay(CutsOf(p), k))
        && (outcome == Completed <==> Pacing.PassPaced(CutsOf(p)))
        && (outcome == Completed ==> |started| == |delays| == |p|)
        && (outcome.NextMissing? ==> outcome.at == |delays| == |started| - 1 && !Pacing.NextKnown(CutsOf(p), outcome.at))
        && (outcome.NegativeSleep? ==>
              && outcome.at == |delays| == |started| - 1
              && Pacing.NextKnown(CutsOf(p), outcome.at) && Pacing.Delay(CutsOf(p), outcome.at) < 0)
    {
      var p := Playlist();
      var cs := CutsOf(p);
      started, delays := [], [];
      var i := 0;
      while i < |p|
        invariant 0 <= i <= |p|
        invariant started == p[..i] && |delays| == i
        invariant forall k :: 0 <= k < i ==> Pacing.NextKnown(cs, k) && delays[k] == Pacing.Delay(cs, k) && delays[k] >= 0
      {
        started := started + [p[i]];
        if !Pacing.NextKnown(cs, i) {
          return started, delays, NextMissing(i);
        }
        var d := Pacing.Delay(cs, i);
        if d < 0 {
          return started, delays, NegativeSleep(i);
        }
        delays := delays + [d];
        i := i + 1;
      }
      return started, delays, Completed;
    }
  }
}
