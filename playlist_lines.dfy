/** Reading a playlist file: each line names a cut by id, optionally
    followed by an end-of-file action and a timed event with its time, all
    separated by single spaces. */
module PlaylistLines {

  import opened Wrappers
  import opened Catalog
  import opened PyText

  /** The cut id: the first space-separated field, whitespace stripped. */
  function CutId(line: string): string
  {
    Strip(Split(line, ' ')[0])
  }

  /** The `eof_code`: the stripped second field when the line has all four
      fields; otherwise, even when a second field exists, the default 2. */
  function EofAction(line: string): EofCode
  {
    var fields := Split(line, ' ');
    if |fields| >= 4 then EofText(Strip(fields[1])) else DefaultEofCode
  }

  /** A line written as space-free fields joined by single spaces parses
      back to its stripped first field and, with four or more fields, its
      stripped second field. */
  lemma ParseFields(fields: seq<string>)
    requires |fields| >= 1
    requires forall k :: 0 <= k < |fields| ==> ' ' !in fields[k]
    ensures CutId(Join(fields, ' ')) == Strip(fields[0])
    ensures EofAction(Join(fields, ' ')) == if |fields| >= 4 then EofText(Strip(fields[1])) else DefaultEofCode
  {
    SplitJoin(fields, ' ');
  }

  /** A full line `id eof event time` as `readlines()` returns it, newline
      included, gives back `id` and `eof`. */
  lemma ParseFullLine(id: string, eof: string, event: string, time: string)
    requires ' ' !in id && ' ' !in eof && ' ' !in event && ' ' !in time
    requires Trimmed(id) && Trimmed(eof)
    ensures CutId(id + " " + eof + " " + event + " " + time + "\n") == id
    ensures EofAction(id + " " + eof + " " + event + " " + time + "\n") == EofText(eof)
  {
    var fields := [id, eof, event, time + "\n"];
    assert Join(fields, ' ') == id + " " + eof + " " + event + " " + time + "\n" by {
      assert Join(fields[3..], ' ') == time + "\n";
      assert Join(fields[2..], ' ') == event + " " + (time + "\n");
      assert Join(fields[1..], ' ') == eof + " " + (event + " " + (time + "\n"));
    }
    assert ' ' !in time + "\n";
    ParseFields(fields);
    StripTrimmed(id);
    StripTrimmed(eof);
  }

  /** A line holding only a cut id gets the default end-of-file action. */
  lemma ParseBareLine(id: string)
    requires ' ' !in id && Trimmed(id)
    ensures CutId(id + "\n") == id
    ensures EofAction(id + "\n") == DefaultEofCode
  {
    assert ' ' !in id + "\n";
    SplitFree(id + "\n", ' ');
    StripNewline(id);
  }

  /** The lines whose cut id is in the catalogue, in file order. */
  function KeptLines(lines: seq<string>, cuts: map<string, Cut>): (r: seq<string>)
    ensures |r| <= |lines|
    ensures forall k :: 0 <= k < |r| ==> CutId(r[k]) in cuts
  {
    if lines == [] then []
    else
      KeptLines(lines[..|lines| - 1], cuts)
        + (if CutId(lines[|lines| - 1]) in cuts then [lines[|lines| - 1]] else [])
  }

  /** Keeping works line by line: the kept lines of two pieces of a file
      are the kept lines of each, in order. A line with an unknown id
      contributes nothing, and one with a known id contributes itself. */
  lemma {:induction false} KeptAppend(a: seq<string>, b: seq<string>, cuts: map<string, Cut>)
    ensures KeptLines(a + b, cuts) == KeptLines(a, cuts) + KeptLines(b, cuts)
    decreases |b|
  {
    if b == [] {
      assert a + b == a;
    } else {
      var b' := b[..|b| - 1];
      assert (a + b)[..|a + b| - 1] == a + b';
      KeptAppend(a, b', cuts);
    }
  }

  lemma KeptOne(line: string, cuts: map<string, Cut>)
    ensures KeptLines([line], cuts) == if CutId(line) in cuts then [line] else []
  {
    assert [line][..0] == [];
  }

  /** One more line of the file adds itself when its id is known. */
  lemma KeptStep(lines: seq<string>, i: nat, cuts: map<string, Cut>)
    requires i < |lines|
    ensures KeptLines(lines[..i + 1], cuts)
      == KeptLines(lines[..i], cuts) + (if CutId(lines[i]) in cuts then [lines[i]] else [])
  {
    assert lines[..i + 1][..i] == lines[..i];
  }

  /** When every id is known, every line is kept. */
  lemma KeptAllKnown(lines: seq<string>, cuts: map<string, Cut>)
    requires forall k :: 0 <= k < |lines| ==> CutId(lines[k]) in cuts
    ensures KeptLines(lines, cuts) == lines
  {
    KeptKnownPrefix(lines, cuts, |lines|);
    assert lines[..|lines|] == lines;
  }

  lemma {:induction false} KeptKnownPrefix(lines: seq<string>, cuts: map<string, Cut>, i: nat)
    requires i <= |lines|
    requires forall k :: 0 <= k < |lines| ==> CutId(lines[k]) in cuts
    ensures KeptLines(lines[..i], cuts) == lines[..i]
  {
    if i > 0 {
      KeptKnownPrefix(lines, cuts, i - 1);
      KeptStep(lines, i - 1, cuts);
      assert lines[..i - 1] + [lines[i - 1]] == lines[..i];
    }
  }

  /** The cut ids of the kept lines. */
  function Keys(kept: seq<string>): (r: seq<string>)
    ensures |r| == |kept| && forall k :: 0 <= k < |kept| ==> r[k] == CutId(kept[k])
  {
    seq(|kept|, k requires 0 <= k < |kept| => CutId(kept[k]))
  }
}
