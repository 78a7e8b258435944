// Comma-separated output, and a reader for it after section 2 of RFC 4180 with line feeds as line breaks.
module Csv {
  import opened Wrappers

  // ---------- the printer ----------

  // Characters that a cell can only hold between quotes.
  predicate IsSpecial(c: char)
  {
    c == ',' || c == '\"' || c == '\r' || c == '\n'
  }

  predicate NeedsQuoting(str: string)
  {
    exists i | 0 <= i < |str| :: IsSpecial(str[i])
  }

  // Every quote is written twice.
  function Doubled(str: string): string
  {
    if str == "" then "" else (if str[0] == '\"' then "\"\"" else [str[0]]) + Doubled(str[1..])
  }

  function QuoteString(str: string): string
  {
    "\"" + Doubled(str) + "\""
  }

  function Cell(str: string): string
  {
    if NeedsQuoting(str) then QuoteString(str) else str
  }

  // Only a comma, a quote or a line break makes a difference to a cell; without them it is printed as it is.
  lemma PlainCell(str: string)
    ensures Cell(str) == str <==> ',' !in str && '\"' !in str && '\r' !in str && '\n' !in str
  {
    if NeedsQuoting(str) {
      DoubledLength(str);
    }
  }

  lemma {:induction false} DoubledLength(str: string)
    ensures |Doubled(str)| >= |str|
  {
    if str == "" {
    } else {
      DoubledLength(str[1..]);
    }
  }

  function Join(row: seq<string>): string
  {
    if row == [] then ""
    else if |row| == 1 then Cell(row[0])
    else Cell(row[0]) + "," + Join(row[1..])
  }

  function Line(row: seq<string>): string
  {
    Join(row) + "\n"
  }

  function Document(rows: seq<seq<string>>): string
  {
    if rows == [] then "" else Line(rows[0]) + Document(rows[1..])
  }

  lemma {:induction false} JoinMore(row: seq<string>, str: string)
    ensures Join(row + [str]) == Join(row) + (if row == [] then "" else ",") + Cell(str)
    decreases |row|
  {
    hide Cell;
    var more := row + [str];
    if row == [] {
      assert more == [str] && Join(more) == Cell(str);
    } else {
      assert more[1..] == row[1..] + [str];
      JoinMore(row[1..], str);
      if |row| > 1 {
        assert Join(more) == Cell(row[0]) + "," + (Join(row[1..]) + "," + Cell(str));
      }
    }
  }

  lemma {:induction false} DocumentMore(rows: seq<seq<string>>, row: seq<string>)
    ensures Document(rows + [row]) == Document(rows) + Line(row)
    decreases |rows|
  {
    hide Line;
    var more := rows + [row];
    if rows == [] {
      assert more == [row] && more[1..] == [];
    } else {
      assert more[1..] == rows[1..] + [row];
      DocumentMore(rows[1..], row);
    }
  }

  lemma JoinNothing()
    ensures Join([]) == ""
  {}

  // The cells of one row, separated by commas, and the end of the line.
  method WriteRow(outfile: string, row: seq<string>) returns (out: string)
    ensures out == outfile + Line(row)
  {
    hide Cell, Join;
    out := outfile;
    JoinNothing();
    var first := true;
    var lpc := 0;
    while lpc < |row|
      invariant 0 <= lpc <= |row| && first == (lpc == 0) && out == outfile + Join(row[..lpc])
    {
      JoinMore(row[..lpc], row[lpc]);
      assert row[..lpc + 1] == row[..lpc] + [row[lpc]];
      if !first {
        out := out + ",";
      }
      out := out + Cell(row[lpc]);
      first := false;
      lpc := lpc + 1;
    }
    assert row[..lpc] == row && outfile + Join(row) + "\n" == outfile + Line(row);
    out := out + "\n";
  }

  // After the given row the user may interrupt the command.
  predicate AsksUser(row: nat)
  {
    row > 0 && row % 1000 == 0
  }

  // Of so many rows, the first written ones come out: all of them, or those up to the first at which the
  // user interrupts, or, in a dry run, at most eleven.
  ghost predicate StopsAfter(count: nat, dryRun: bool, interrupts: nat -> bool, written: nat)
  {
    && written <= count
    && (dryRun ==> written <= 11)
    && (forall row: nat | row + 1 < written :: !(AsksUser(row) && interrupts(row)))
    && (|| written == count
        || (dryRun && written == 11)
        || (written > 0 && AsksUser(written - 1) && interrupts(written - 1)))
  }

  lemma StopsOnce(count: nat, dryRun: bool, interrupts: nat -> bool, a: nat, b: nat)
    requires StopsAfter(count, dryRun, interrupts, a) && StopsAfter(count, dryRun, interrupts, b)
    ensures a == b
  {
    hide AsksUser;
  }

  // The headers and the rows; every row has a cell for each header.
  method WriteCsv(headers: seq<string>, rows: seq<seq<string>>, dryRun: bool, interrupts: nat -> bool)
    returns (outfile: string, written: nat)
    requires forall i | 0 <= i < |rows| :: |rows[i]| == |headers|
    ensures StopsAfter(|rows|, dryRun, interrupts, written)
    ensures outfile == Document([headers] + rows[..written])
    ensures headers != [] ==> ParseFile(outfile) == Some([headers] + rows[..written])
  {
    hide Line, AsksUser, Document, ParseFile;
    var lineCount := 0;
    outfile := WriteRow("", headers);
    DocumentOne(headers);
    written := 0;
    assert [headers] + rows[..0] == [headers] && "" + Line(headers) == Line(headers);
    while written < |rows|
      invariant 0 <= written <= |rows| && lineCount == written && (dryRun ==> written <= 11)
      invariant forall row: nat | row < written :: !(AsksUser(row) && interrupts(row))
      invariant outfile == Document([headers] + rows[..written])
    {
      if dryRun && lineCount > 10 {
        break;
      }
      DocumentMore([headers] + rows[..written], rows[written]);
      assert [headers] + rows[..written] + [rows[written]] == [headers] + rows[..written + 1];
      outfile := WriteRow(outfile, rows[written]);
      written := written + 1;
      if AsksUser(written - 1) {
        if interrupts(written - 1) {
          break;
        }
      }
      lineCount := lineCount + 1;
    }
    if headers != [] {
      RoundTrip([headers] + rows[..written]);
    }
  }

  lemma DocumentOne(row: seq<string>)
    ensures Document([row]) == Line(row)
  {
    hide Line;
    assert [row][1..] == [];
  }

  // ---------- the reader ----------

  // What is read from the start of a text, and the text behind it.
  datatype Read<T> = Read(value: T, rest: string)

  // The inside of a quoted field, up to and without the closing quote.
  function ParseQuoted(s: string): (r: Option<Read<string>>)
    ensures r.Some? ==> |r.value.rest| < |s|
  {
    if s == "" then None
    else if s[0] != '\"' then
      match ParseQuoted(s[1..])
      case None => None
      case Some(r) => Some(Read([s[0]] + r.value, r.rest))
    else if |s| > 1 && s[1] == '\"' then
      match ParseQuoted(s[2..])
      case None => None
      case Some(r) => Some(Read("\"" + r.value, r.rest))
    else Some(Read("", s[1..]))
  }

  // A field without quotes ends before the first special character.
  function ParsePlain(s: string): (r: Read<string>)
    ensures |r.rest| <= |s|
    ensures |r.rest| < |s| || s == "" || IsSpecial(s[0])
  {
    if s == "" || IsSpecial(s[0]) then Read("", s)
    else
      var r := ParsePlain(s[1..]);
      Read([s[0]] + r.value, r.rest)
  }

  function ParseField(s: string): (r: Option<Read<string>>)
    ensures r.Some? ==> |r.value.rest| <= |s|
    ensures r.Some? && |r.value.rest| == |s| ==> r.value.rest == s && (s == "" || IsSpecial(s[0]))
  {
    if s != "" && s[0] == '\"' then ParseQuoted(s[1..])
    else
      assert ParsePlain(s).rest == s || |ParsePlain(s).rest| < |s|;
      Some(ParsePlain(s))
  }

  // Fields separated by commas, up to the end of the line or of the text.
  function ParseRecord(s: string): (r: Option<Read<seq<string>>>)
    ensures r.Some? ==> |r.value.rest| <= |s| && (s != "" ==> |r.value.rest| < |s|) && r.value.value != []
    decreases |s|
  {
    match ParseField(s)
    case None => None
    case Some(f) =>
      if f.rest == "" then Some(Read([f.value], ""))
      else if f.rest[0] == '\n' then Some(Read([f.value], f.rest[1..]))
      else if f.rest[0] == ',' then
        match ParseRecord(f.rest[1..])
        case None => None
        case Some(r) => Some(Read([f.value] + r.value, r.rest))
      else None
  }

  function ParseFile(s: string): Option<seq<seq<string>>>
    decreases |s|
  {
    if s == "" then Some([])
    else
      match ParseRecord(s)
      case None => None
      case Some(r) =>
        match ParseFile(r.rest)
        case None => None
        case Some(rows) => Some([r.value] + rows)
  }

  // ---------- the round trip ----------

  lemma {:induction false} QuotedRead(str: string, rest: string)
    requires rest == "" || rest[0] != '\"'
    ensures ParseQuoted(Doubled(str) + "\"" + rest) == Some(Read(str, rest))
    decreases |str|
  {
    var s := Doubled(str) + "\"" + rest;
    if str == "" {
      assert s == "\"" + rest && s[1..] == rest;
    } else {
      QuotedRead(str[1..], rest);
      var tail := Doubled(str[1..]) + "\"" + rest;
      if str[0] == '\"' {
        assert s == "\"\"" + tail && s[2..] == tail;
        assert "\"" + str[1..] == str;
      } else {
        assert s == [str[0]] + tail && s[1..] == tail;
        assert [str[0]] + str[1..] == str;
      }
    }
  }

  lemma NoSpecial(str: string)
    requires !NeedsQuoting(str) && str != ""
    ensures !IsSpecial(str[0]) && !NeedsQuoting(str[1..])
  {
    assert forall i | 0 <= i < |str[1..]| :: str[1..][i] == str[i + 1];
  }

  lemma {:induction false} PlainRead(str: string, rest: string)
    requires !NeedsQuoting(str) && (rest == "" || IsSpecial(rest[0]))
    ensures ParsePlain(str + rest) == Read(str, rest)
    decreases |str|
  {
    var s := str + rest;
    if str == "" {
      assert s == rest;
    } else {
      hide IsSpecial;
      NoSpecial(str);
      PlainRead(str[1..], rest);
      assert s == [str[0]] + (str[1..] + rest) && s[1..] == str[1..] + rest;
      assert [str[0]] + str[1..] == str;
    }
  }

  // A cell is read back when a comma or the end of the line follows.
  lemma CellRead(str: string, rest: string)
    requires rest != "" && (rest[0] == ',' || rest[0] == '\n')
    ensures ParseField(Cell(str) + rest) == Some(Read(str, rest))
  {
    hide ParseQuoted, ParsePlain, Doubled;
    var s := Cell(str) + rest;
    if NeedsQuoting(str) {
      QuotedRead(str, rest);
      assert s == "\"" + (Doubled(str) + "\"" + rest) && s[1..] == Doubled(str) + "\"" + rest;
    } else {
      PlainRead(str, rest);
      assert s[0] == if str == "" then rest[0] else str[0];
      assert str != "" ==> !IsSpecial(str[0]);
    }
  }

  // A line without any cell is read as a single empty one.
  function ReadBack(row: seq<string>): seq<string>
  {
    if row == [] then [""] else row
  }

  lemma {:induction false} LineRead(row: seq<string>, rest: string)
    ensures ParseRecord(Line(row) + rest) == Some(Read(ReadBack(row), rest))
    decreases |row|
  {
    hide Cell, ParseField;
    var s := Line(row) + rest;
    if |row| <= 1 {
      var str := if row == [] then "" else row[0];
      EmptyCell();
      assert s == Cell(str) + ("\n" + rest);
      CellRead(str, "\n" + rest);
      assert ("\n" + rest)[1..] == rest && [str] == ReadBack(row);
    } else {
      var tail := Line(row[1..]) + rest;
      LineRead(row[1..], rest);
      assert s == Cell(row[0]) + ("," + tail);
      CellRead(row[0], "," + tail);
      assert ("," + tail)[1..] == tail;
      assert [row[0]] + row[1..] == row;
    }
  }

  lemma EmptyCell()
    ensures Cell("") == ""
  {}

  function AllReadBack(rows: seq<seq<string>>): (r: seq<seq<string>>)
    ensures |r| == |rows| && forall i | 0 <= i < |rows| :: r[i] == ReadBack(rows[i])
  {
    seq(|rows|, i requires 0 <= i < |rows| => ReadBack(rows[i]))
  }

  // Whatever was printed, the reader finds its rows, an empty row as a row with one empty cell.
  lemma {:induction false} DocumentRead(rows: seq<seq<string>>)
    ensures ParseFile(Document(rows)) == Some(AllReadBack(rows))
    decreases |rows|
  {
    hide ParseRecord, ReadBack;
    if rows == [] {
      assert AllReadBack(rows) == [];
    } else {
      LineRead(rows[0], Document(rows[1..]));
      DocumentRead(rows[1..]);
      assert AllReadBack(rows) == [ReadBack(rows[0])] + AllReadBack(rows[1..]);
      assert Document(rows) != "";
    }
  }

  // The rows come back exactly when each of them has a cell.
  lemma RoundTrip(rows: seq<seq<string>>)
    ensures ParseFile(Document(rows)) == Some(rows) <==> forall i | 0 <= i < |rows| :: rows[i] != []
  {
    hide ParseFile, Document;
    DocumentRead(rows);
    var back := AllReadBack(rows);
    if forall i | 0 <= i < |rows| :: rows[i] != [] {
      assert back == rows;
    } else {
      var i :| 0 <= i < |rows| && rows[i] == [];
      assert back[i] == [""];
    }
  }

  // Two tables print alike exactly when they differ in nothing but empty rows and rows with one empty
  // cell; so for a fixed number of columns, at least one, the printer is injective.
  lemma PrintsApart(a: seq<seq<string>>, b: seq<seq<string>>)
    ensures Document(a) == Document(b) <==> AllReadBack(a) == AllReadBack(b)
  {
    hide ParseFile, Document, AllReadBack;
    DocumentRead(a);
    DocumentRead(b);
    if AllReadBack(a) == AllReadBack(b) {
      AlikePrints(a, b);
    }
  }

  lemma {:induction false} AlikePrints(a: seq<seq<string>>, b: seq<seq<string>>)
    requires AllReadBack(a) == AllReadBack(b)
    ensures Document(a) == Document(b)
    decreases |a|
  {
    if a == [] {
    } else {
      EmptyCell();
      hide Cell;
      assert AllReadBack(a)[0] == AllReadBack(b)[0];
      assert forall i | 0 <= i < |a| - 1 :: AllReadBack(a[1..])[i] == AllReadBack(a)[i + 1];
      assert forall i | 0 <= i < |b| - 1 :: AllReadBack(b[1..])[i] == AllReadBack(b)[i + 1];
      assert AllReadBack(a[1..]) == AllReadBack(b[1..]);
      AlikePrints(a[1..], b[1..]);
    }
  }
}
