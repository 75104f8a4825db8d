/**
 The result log (`save_result_to_file`): the opening is split on single
 spaces, cut to three moves and padded with empty strings; the outcome and
 both engine names follow; a header row is written only when the file did
 not exist. The file is modelled as whether it exists plus its rows; CSV
 quoting belongs to the csv writer and is not modelled.
 */
module ResultRecorder {

  const Header: seq<string> := ["move1", "move2", "move3", "Result", "bot1", "bot2"]

  /** The number of space characters in `s`. */
  function Spaces(s: string): nat
  {
    if |s| == 0 then 0
    else (if s[0] == ' ' then 1 else 0) + Spaces(s[1..])
  }

  /** `s.split(" ")`: the pieces between single spaces, so "" gives [""]
      and two spaces in a row give an empty piece. */
  function Split(s: string): (parts: seq<string>)
    ensures |parts| == Spaces(s) + 1
    ensures forall i :: 0 <= i < |parts| ==> ' ' !in parts[i]
  {
    if |s| == 0 then [""]
    else
      var rest := Split(s[1..]);
      if s[0] == ' ' then [""] + rest
      else [[s[0]] + rest[0]] + rest[1..]
  }

  /** `" ".join(parts)`. */
  function Join(parts: seq<string>): string
  {
    if |parts| == 0 then ""
    else if |parts| == 1 then parts[0]
    else parts[0] + " " + Join(parts[1..])
  }

  /** Joining the pieces of a split gives back the original text. */
  lemma {:induction false} JoinSplit(s: string)
    ensures Join(Split(s)) == s
    decreases |s|
  {
    if |s| > 0 {
      var rest := Split(s[1..]);
      JoinSplit(s[1..]);
      if s[0] == ' ' {
        assert Split(s) == [""] + rest;
        assert Join(Split(s)) == "" + " " + Join(rest);
        assert s == [' '] + s[1..];
      } else if |rest| == 1 {
        assert Join(Split(s)) == [s[0]] + rest[0];
        assert s == [s[0]] + s[1..];
      } else {
        var parts := Split(s);
        assert parts[1..] == rest[1..];
        assert Join(parts) == [s[0]] + rest[0] + " " + Join(rest[1..]);
        assert Join(rest) == rest[0] + " " + Join(rest[1..]);
        assert s == [s[0]] + s[1..];
      }
    }
  }

  /** Text without a space is a single piece. */
  lemma {:induction false} SplitWord(a: string)
    requires ' ' !in a
    ensures Split(a) == [a]
    decreases |a|
  {
    if |a| > 0 {
      assert ' ' !in a[1..] by {
        forall i | 0 <= i < |a[1..]| ensures a[1..][i] != ' ' {
          assert a[1..][i] == a[i + 1];
        }
      }
      SplitWord(a[1..]);
      assert [a[0]] + a[1..] == a;
    }
  }

  /** A word followed by a space splits off as the first piece. */
  lemma {:induction false} SplitWordSpace(a: string, t: string)
    requires ' ' !in a
    ensures Split(a + " " + t) == [a] + Split(t)
    decreases |a|
  {
    var s := a + " " + t;
    if |a| == 0 {
      assert s[0] == ' ' && s[1..] == t;
    } else {
      assert ' ' !in a[1..] by {
        forall i | 0 <= i < |a[1..]| ensures a[1..][i] != ' ' {
          assert a[1..][i] == a[i + 1];
        }
      }
      assert s[1..] == a[1..] + " " + t;
      SplitWordSpace(a[1..], t);
      assert [a[0]] + a[1..] == a;
    }
  }

  /** Splitting space-free pieces joined by spaces gives back the pieces. */
  lemma {:induction false} SplitJoin(parts: seq<string>)
    requires |parts| >= 1
    requires forall i :: 0 <= i < |parts| ==> ' ' !in parts[i]
    ensures Split(Join(parts)) == parts
    decreases |parts|
  {
    if |parts| == 1 {
      SplitWord(parts[0]);
    } else {
      SplitJoin(parts[1..]);
      SplitWordSpace(parts[0], Join(parts[1..]));
    }
  }

  /** `moves[:3] + [""] * (3 - len(moves[:3]))`. */
  function FirstThree(moves: seq<string>): (cols: seq<string>)
    ensures |cols| == 3
    ensures forall i :: 0 <= i < 3 ==> cols[i] == (if i < |moves| then moves[i] else "")
  {
    var kept := if |moves| <= 3 then moves else moves[..3];
    kept + seq(3 - |kept|, _ => "")
  }

  /** The data row written for one game. */
  function DataRow(opening: string, result: string, bot1Name: string, bot2Name: string): (row: seq<string>)
    ensures |row| == 6
    ensures forall i :: 0 <= i < 3 ==>
      row[i] == (if i < |Split(opening)| then Split(opening)[i] else "")
    ensures row[3] == result && row[4] == bot1Name && row[5] == bot2Name
  {
    FirstThree(Split(opening)) + [result, bot1Name, bot2Name]
  }

  /** An opening of at most three moves can be read back from its row. */
  lemma OpeningRecoverable(opening: string, result: string, bot1Name: string, bot2Name: string)
    requires Spaces(opening) < 3
    ensures Join(DataRow(opening, result, bot1Name, bot2Name)[..Spaces(opening) + 1]) == opening
  {
    var row := DataRow(opening, result, bot1Name, bot2Name);
    assert row[..Spaces(opening) + 1] == Split(opening);
    JoinSplit(opening);
  }

  /** The result file: whether it exists as a file, and its rows. */
  datatype ResultFile = ResultFile(isFile: bool, rows: seq<seq<string>>)

  /** The rows a missing file gains before its first data row. */
  function HeaderRows(f: ResultFile): seq<seq<string>>
  {
    if f.isFile then [] else [Header]
  }

  /** `save_result_to_file`: append the header when the file did not exist,
      then the data row. */
  function SaveResult(f: ResultFile, opening: string, result: string, bot1Name: string, bot2Name: string)
    : (g: ResultFile)
    ensures g.isFile
    ensures |g.rows| == |f.rows| + (if f.isFile then 1 else 2)
    ensures g.rows[..|f.rows|] == f.rows
    ensures !f.isFile ==> g.rows[|f.rows|] == Header
    ensures g.rows[|g.rows| - 1] == DataRow(opening, result, bot1Name, bot2Name)
  {
    ResultFile(true, f.rows + HeaderRows(f) + [DataRow(opening, result, bot1Name, bot2Name)])
  }

  /** The arguments of one call. */
  datatype GameRecord = GameRecord(opening: string, result: string, bot1Name: string, bot2Name: string)

  function RowOf(r: GameRecord): seq<string>
  {
    DataRow(r.opening, r.result, r.bot1Name, r.bot2Name)
  }

  /** The data rows of several games, in call order. */
  function Rows(records: seq<GameRecord>): (rows: seq<seq<string>>)
    ensures |rows| == |records|
  {
    if |records| == 0 then []
    else [RowOf(records[0])] + Rows(records[1..])
  }

  /** The i-th data row belongs to the i-th call. */
  lemma {:induction false} RowsAt(records: seq<GameRecord>, i: nat)
    requires i < |records|
    ensures Rows(records)[i] == RowOf(records[i])
    decreases i
  {
    if i > 0 {
      RowsAt(records[1..], i - 1);
    }
  }

  /** One call per record, in order. */
  function SaveAll(f: ResultFile, records: seq<GameRecord>): ResultFile
    decreases |records|
  {
    if |records| == 0 then f
    else
      var r := records[0];
      SaveAll(SaveResult(f, r.opening, r.result, r.bot1Name, r.bot2Name), records[1..])
  }

  /** Successive calls only append: the old rows stay, the header appears
      once and only if the file did not exist, then one row per call. */
  lemma {:induction false} SaveAllAppends(f: ResultFile, records: seq<GameRecord>)
    requires |records| >= 1
    ensures SaveAll(f, records) == ResultFile(true, f.rows + HeaderRows(f) + Rows(records))
    decreases |records|
  {
    var r := records[0];
    var g := SaveResult(f, r.opening, r.result, r.bot1Name, r.bot2Name);
    assert g == ResultFile(true, f.rows + HeaderRows(f) + [RowOf(r)]);
    if |records| > 1 {
      SaveAllAppends(g, records[1..]);
      assert HeaderRows(g) == [];
      assert Rows(records) == [RowOf(r)] + Rows(records[1..]);
      assert f.rows + HeaderRows(f) + [RowOf(r)] + Rows(records[1..])
        == f.rows + HeaderRows(f) + Rows(records);
    }
  }

  /** A double space yields an empty piece; the empty text yields one empty piece. */
  lemma SplitEdgeCases()
    ensures Split("") == [""]
    ensures Split("e2e4  e7e5") == ["e2e4", "", "e7e5"]
  {
    var parts := ["e2e4", "", "e7e5"];
    assert Join(parts[2..]) == "e7e5";
    assert Join(parts[1..]) == "" + " " + "e7e5";
    assert Join(parts) == "e2e4  e7e5";
    SplitJoin(parts);
  }

  /** The row recorded for a two-move opening that ended in stalemate. */
  lemma TwoMoveOpeningRow()
    ensures DataRow("e2e4 e7e5", "Draw (stalemate)", "Stockfish", "LCZero")
      == ["e2e4", "e7e5", "", "Draw (stalemate)", "Stockfish", "LCZero"]
  {
    var parts := ["e2e4", "e7e5"];
    assert Join(parts[1..]) == "e7e5";
    assert Join(parts) == "e2e4 e7e5";
    SplitJoin(parts);
  }
}
