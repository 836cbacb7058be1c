/** The cut list generator: turns the rows of the cut spreadsheet into cut
    records keyed by cut number, and wraps them in the `cuts.json` file
    record. Reading the workbook and writing the JSON are left to the caller. */
module CutListGen {

  import opened Wrappers
  import opened Catalog

  const PlaylistName: string := "94.12 The Stall"
  const CutsJsonName: string := "cuts.json"

  /** One spreadsheet row, with the columns the generator reads. */
  datatype SheetRow = SheetRow(
    group: string,
    cut: int,
    artist: string,
    title: string,
    trackS: int,
    trackE: int,
    introS: int,
    introE: int,
    segueS: int,
    segueE: int,
    file: string,
    color: string,
    topplay: int)

  /** The generated `cuts.json` record (its `created_at` clock reading is
      not modelled). */
  datatype Cutfile = Cutfile(id: string, name: string, cuts: map<int, Cut>)

  /** `create_cut`: a cut record built from one row. */
  function CreateCut(row: SheetRow): (c: Cut)
    ensures c.category == row.group && c.cut == row.cut
    ensures c.duration == row.trackE
    ensures c.meta == Meta("", row.artist, row.title)
    ensures c.timers == Timers(row.trackS, row.trackE, row.introS, row.introE, row.segueS, row.segueE)
    ensures c.topplay <==> row.topplay == 1
    ensures c.links == Links(row.file, None)
    ensures c.textColor == Some(row.color)
  {
    Cut(row.group, row.cut, row.trackE,
        Meta("", row.artist, row.title),
        Timers(row.trackS, row.trackE, row.introS, row.introE, row.segueS, row.segueE),
        row.topplay == 1,
        Links(row.file, None),
        Some(row.color))
  }

  /** The spreadsheet row a generated cut record reads back as, with the
      `topplay` column coded 1 or 0. */
  function RowOf(c: Cut): SheetRow
  {
    SheetRow(c.category, c.cut, c.meta.artist, c.meta.title,
             c.timers.trackBegin, c.timers.trackEnd, c.timers.introBegin,
             c.timers.introEnd, c.timers.segueBegin, c.timers.segueEnd,
             c.links.audio, if c.textColor.Some? then c.textColor.value else "",
             if c.topplay then 1 else 0)
  }

  /** What every generated record has in common: no album, no album art, a
      text colour, and a duration equal to the track-end marker. */
  predicate Generated(c: Cut)
  {
    c.meta.album == "" && c.links.albumart == None && c.textColor.Some?
    && c.duration == c.timers.trackEnd
  }

  /** A generated record keeps every column of its row; of `topplay` it keeps
      only whether it was 1. */
  lemma CreateCutRoundTrip(row: SheetRow)
    ensures Generated(CreateCut(row))
    ensures RowOf(CreateCut(row)) == row.(topplay := if row.topplay == 1 then 1 else 0)
  {
  }

  /** Conversely, every generated record is the one its row builds, so
      `CreateCut` is one-to-one from rows with `topplay` coded 1 or 0 onto
      generated records. */
  lemma GeneratedRebuilt(c: Cut)
    requires Generated(c)
    ensures CreateCut(RowOf(c)) == c
  {
  }

  /** The dictionary `create_cuts` builds: each row in turn stored under its
      cut number, overwriting an earlier row with the same number. */
  function CutsOf(rows: seq<SheetRow>): map<int, Cut>
    decreases |rows|
  {
    if |rows| == 0 then map[]
    else CutsOf(rows[..|rows| - 1])[rows[|rows| - 1].cut := CreateCut(rows[|rows| - 1])]
  }

  /** Row `k` is the last one carrying its cut number. */
  ghost predicate LastWithId(rows: seq<SheetRow>, k: int)
    requires 0 <= k < |rows|
  {
    forall j :: k < j < |rows| ==> rows[j].cut != rows[k].cut
  }

  /** The keys are exactly the cut numbers of the rows. */
  lemma {:induction false} CutsOfKeys(rows: seq<SheetRow>)
    ensures CutsOf(rows).Keys == set k | 0 <= k < |rows| :: rows[k].cut
    decreases |rows|
  {
    if |rows| > 0 {
      var init := rows[..|rows| - 1];
      CutsOfKeys(init);
      assert (set k | 0 <= k < |init| :: init[k].cut) == set k | 0 <= k < |rows| - 1 :: rows[k].cut;
      assert (set k | 0 <= k < |rows| :: rows[k].cut)
          == (set k | 0 <= k < |rows| - 1 :: rows[k].cut) + {rows[|rows| - 1].cut};
    }
  }

  /** For a repeated cut number, the last row with it wins. */
  lemma {:induction false} CutsOfLastWins(rows: seq<SheetRow>, k: int)
    requires 0 <= k < |rows| && LastWithId(rows, k)
    ensures rows[k].cut in CutsOf(rows) && CutsOf(rows)[rows[k].cut] == CreateCut(rows[k])
    decreases |rows|
  {
    if k < |rows| - 1 {
      var init := rows[..|rows| - 1];
      assert rows[|rows| - 1].cut != rows[k].cut;
      assert LastWithId(init, k) by {
        forall j | k < j < |init| ensures init[j].cut != init[k].cut {
          assert init[j] == rows[j];
        }
      }
      CutsOfLastWins(init, k);
    }
  }

  /** Every record is stored under its own cut number and is a generated one. */
  lemma {:induction false} CutsOfKeyed(rows: seq<SheetRow>)
    ensures forall id :: id in CutsOf(rows) ==> CutsOf(rows)[id].cut == id && Generated(CutsOf(rows)[id])
    decreases |rows|
  {
    if |rows| > 0 {
      CutsOfKeyed(rows[..|rows| - 1]);
    }
  }

  /** The last row carrying a cut number that some row carries. */
  lemma {:induction false} LastRow(rows: seq<SheetRow>, id: int) returns (k: int)
    requires exists j :: 0 <= j < |rows| && rows[j].cut == id
    ensures 0 <= k < |rows| && rows[k].cut == id && LastWithId(rows, k)
    decreases |rows|
  {
    var n := |rows| - 1;
    if rows[n].cut == id {
      k := n;
    } else {
      var init := rows[..n];
      var j :| 0 <= j < |rows| && rows[j].cut == id;
      assert j < n && init[j] == rows[j];
      k := LastRow(init, id);
      forall i | k < i < |rows| ensures rows[i].cut != rows[k].cut {
        if i < n {
          assert init[i] == rows[i];
        }
      }
    }
  }

  /** `create_cuts`: the loop over the spreadsheet rows. */
  method CreateCuts(rows: seq<SheetRow>) returns (cuts: map<int, Cut>)
    ensures cuts == CutsOf(rows)
    ensures cuts.Keys == set k | 0 <= k < |rows| :: rows[k].cut
    ensures forall k :: 0 <= k < |rows| && LastWithId(rows, k) ==> cuts[rows[k].cut] == CreateCut(rows[k])
  {
    cuts := map[];
    var i := 0;
    while i < |rows|
      invariant i <= |rows|
      invariant cuts == CutsOf(rows[..i])
    {
      assert rows[..i + 1][..i] == rows[..i];
      cuts := cuts[rows[i].cut := CreateCut(rows[i])];
      i := i + 1;
    }
    assert rows[..i] == rows;
    CutsOfKeys(rows);
    forall k | 0 <= k < |rows| && LastWithId(rows, k)
      ensures cuts[rows[k].cut] == CreateCut(rows[k])
    {
      CutsOfLastWins(rows, k);
    }
  }

  /** `create_cutfile`: the file record, named after the station's playlist,
      carrying the cuts unchanged. */
  function CreateCutfile(cuts: map<int, Cut>): (f: Cutfile)
    ensures f.id == CutsJsonName && f.name == PlaylistName
    ensures f.cuts == cuts
  {
    Cutfile(CutsJsonName, PlaylistName, cuts)
  }

  /** The file generated from a spreadsheet names itself `cuts.json` and the
      station's playlist, holds exactly the rows' cut numbers, and under
      each one a record that reads back as the last row with that number. */
  lemma CutfileReadsBack(rows: seq<SheetRow>)
    ensures CreateCutfile(CutsOf(rows)).id == CutsJsonName && CreateCutfile(CutsOf(rows)).name == PlaylistName
    ensures CreateCutfile(CutsOf(rows)).cuts.Keys == set k | 0 <= k < |rows| :: rows[k].cut
    ensures forall id :: id in CreateCutfile(CutsOf(rows)).cuts ==>
      exists k :: 0 <= k < |rows| && rows[k].cut == id && LastWithId(rows, k)
        && RowOf(CreateCutfile(CutsOf(rows)).cuts[id]) == rows[k].(topplay := if rows[k].topplay == 1 then 1 else 0)
  {
    CutsOfKeys(rows);
    forall id | id in CutsOf(rows)
      ensures exists k :: 0 <= k < |rows| && rows[k].cut == id && LastWithId(rows, k)
                 && RowOf(CutsOf(rows)[id]) == rows[k].(topplay := if rows[k].topplay == 1 then 1 else 0)
    {
      assert id in set k | 0 <= k < |rows| :: rows[k].cut;
      var k := LastRow(rows, id);
      CutsOfLastWins(rows, k);
      CreateCutRoundTrip(rows[k]);
    }
  }
}
