/** Comma-separated values, in the style of section 2 of RFC 4180 with a line feed between rows: printing
    lists as text, and reading text as rows. */
module Csv {
  import opened Common
  import opened Values

  const QUOTE: Byte := 34
  const COMMA: Byte := 44
  const LF: Byte := 10

  type Table = seq<seq<Str>>

  datatype NotCsv = NotCsv(text: Str)

  // ----- the language: a table with a choice, for every cell, whether to quote it -----

  datatype Cell = Cell(text: Str, quoted: bool)

  predicate Plain(s: Str) {
    QUOTE !in s && COMMA !in s && LF !in s
  }

  function Doubled(s: Str): Str
    decreases |s|
  {
    if s == [] then [] else (if s[0] == QUOTE then [QUOTE, QUOTE] else [s[0]]) + Doubled(s[1..])
  }

  function Spelled(c: Cell): Str {
    if c.quoted then [QUOTE] + Doubled(c.text) + [QUOTE] else c.text
  }

  /** The cells after the first, each behind a comma. */
  function MoreCells(row: seq<Cell>): Str
    decreases |row|
  {
    if row == [] then [] else [COMMA] + Spelled(row[0]) + MoreCells(row[1..])
  }

  function RowText(row: seq<Cell>): Str {
    if row == [] then [] else Spelled(row[0]) + MoreCells(row[1..])
  }

  /** The rows after the first, each behind a line feed. */
  function MoreRows(rows: seq<seq<Cell>>): Str
    decreases |rows|
  {
    if rows == [] then [] else [LF] + RowText(rows[0]) + MoreRows(rows[1..])
  }

  function TableText(rows: seq<seq<Cell>>): Str {
    if rows == [] then [] else RowText(rows[0]) + MoreRows(rows[1..])
  }

  function Texts(row: seq<Cell>): seq<Str> {
    seq(|row|, i requires 0 <= i < |row| => row[i].text)
  }

  function TableOf(rows: seq<seq<Cell>>): Table {
    seq(|rows|, i requires 0 <= i < |rows| => Texts(rows[i]))
  }

  lemma TextsCons(c: Cell, row: seq<Cell>)
    ensures Texts([c] + row) == [c.text] + Texts(row) && ([c] + row)[1..] == row
  {
  }

  lemma TableCons(row: seq<Cell>, rows: seq<seq<Cell>>)
    ensures TableOf([row] + rows) == [Texts(row)] + TableOf(rows) && ([row] + rows)[1..] == rows
  {
    hide Texts;
  }

  lemma TextsNone()
    ensures Texts([]) == [] && TableOf([]) == []
  {
  }

  /** Cells with special characters are quoted. */
  predicate RegularRow(row: seq<Cell>) {
    forall i :: 0 <= i < |row| ==> row[i].quoted || Plain(row[i].text)
  }

  predicate Regular(rows: seq<seq<Cell>>) {
    forall i :: 0 <= i < |rows| ==> rows[i] != [] && RegularRow(rows[i])
  }

  /** `src` spells a table with at least one row. */
  ghost predicate Spells(src: Str, t: Table) {
    exists rows: seq<seq<Cell>> :: Spelling(rows, src, t)
  }

  predicate Spelling(rows: seq<seq<Cell>>, src: Str, t: Table) {
    rows != [] && Regular(rows) && TableText(rows) == src && TableOf(rows) == t
  }

  // ----- reading -----

  /** The rest of the text, read after finished rows, finished cells of the current row, and the part of the
      current cell that has been read. */
  function Parse(src: Str, table: Table, vector: seq<Str>, scalar: Str, quoted: bool): Option<Table>
    decreases |src|, 1
  {
    if src == [] || (!quoted && (src[0] == COMMA || src[0] == LF)) then
      if quoted then None else Finish(src, table, vector, scalar)
    else if src[0] == QUOTE then
      if !quoted then
        if scalar == [] then Parse(src[1..], table, vector, [], true) else None
      else if |src| > 1 && src[1] == QUOTE then Parse(src[2..], table, vector, scalar + [QUOTE], true)
      else Finish(src[1..], table, vector, scalar)
    else Parse(src[1..], table, vector, scalar + [src[0]], quoted)
  }

  /** What follows the end of a cell. */
  function Finish(src: Str, table: Table, vector: seq<Str>, scalar: Str): Option<Table>
    decreases |src|, 0
  {
    if src == [] then Some(table + [vector + [scalar]])
    else if src[0] == COMMA then Parse(src[1..], table, vector + [scalar], [], false)
    else if src[0] == LF then Parse(src[1..], table + [vector + [scalar]], [], [], false)
    else None
  }

  function Read(src: Str): Option<Table> {
    if src == [] then Some([]) else Parse(src, [], [], [], false)
  }

  /** Reads a text, character by character: rows in the outer loop, cells in the middle one. */
  method FromCsv(value: Str) returns (r: Result<Table, NotCsv>)
    ensures r == (if Read(value).Some? then Ok(Read(value).value) else Err(NotCsv(value)))
  {
    var i := 0;
    var table: Table := [];
    if value == [] {
      return Ok(table);
    }
    while true
      invariant i <= |value| && Read(value) == Parse(value[i..], table, [], [], false)
      decreases |value| - i
    {
      var vector: seq<Str> := [];
      label nextVector: while true
        invariant i <= |value| && Read(value) == Parse(value[i..], table, vector, [], false)
        decreases |value| - i
      {
        var scalar: Str, inQuote := [], false;
        var ended := false;
        label nextScalar: while true
          invariant i <= |value| && Read(value) == Parse(value[i..], table, vector, scalar, inQuote)
          decreases |value| - i
        {
          ghost var rest := value[i..];
          if i == |value| {
            if inQuote {
              return Err(NotCsv(value));
            }
            return Ok(table + [vector + [scalar]]);
          }
          var c := value[i];
          assert rest[0] == c && rest[1..] == value[i + 1..];
          i := i + 1;
          if c == QUOTE && !inQuote {
            if scalar != [] {
              return Err(NotCsv(value));
            }
            inQuote := true;
          } else if c == QUOTE {
            if i == |value| {
              return Ok(table + [vector + [scalar]]);
            }
            var d := value[i];
            assert rest[1] == d && rest[2..] == value[i + 1..] && rest[1..][1..] == value[i + 1..];
            i := i + 1;
            if d == QUOTE {
              scalar := scalar + [QUOTE];
            } else if d == COMMA {
              vector := vector + [scalar];
              break nextScalar;
            } else if d == LF {
              table := table + [vector + [scalar]];
              break nextVector;
            } else {
              return Err(NotCsv(value));
            }
          } else if c == COMMA && !inQuote {
            vector := vector + [scalar];
            break nextScalar;
          } else if c == LF && !inQuote {
            table := table + [vector + [scalar]];
            break nextVector;
          } else {
            scalar := scalar + [c];
          }
        }
      }
    }
  }

  // ----- everything spelled is read -----

  predicate CellEnds(src: Str) {
    src == [] || src[0] == COMMA || src[0] == LF
  }

  lemma {:induction false} ReadPlain(s: Str, rest: Str, table: Table, vector: seq<Str>, scalar: Str)
    requires Plain(s) && CellEnds(rest)
    ensures Parse(s + rest, table, vector, scalar, false) == Finish(rest, table, vector, scalar + s)
    decreases |s|
  {
    if s == [] {
      assert s + rest == rest && scalar + s == scalar;
    } else {
      assert s[0] in s && forall x :: x in s[1..] ==> x in s;
      assert (s + rest)[1..] == s[1..] + rest;
      assert scalar + [s[0]] + s[1..] == scalar + s;
      ReadPlain(s[1..], rest, table, vector, scalar + [s[0]]);
    }
  }

  lemma {:induction false} ReadQuoted(s: Str, rest: Str, table: Table, vector: seq<Str>, scalar: Str)
    requires CellEnds(rest)
    ensures Parse(Doubled(s) + [QUOTE] + rest, table, vector, scalar, true) == Finish(rest, table, vector, scalar + s)
    decreases |s|
  {
    var src := Doubled(s) + [QUOTE] + rest;
    if s == [] {
      assert src == [QUOTE] + rest && src[1..] == rest && scalar + s == scalar;
    } else {
      assert scalar + [s[0]] + s[1..] == scalar + s;
      var n := if s[0] == QUOTE then 2 else 1;
      assert src[n..] == Doubled(s[1..]) + [QUOTE] + rest;
      ReadQuoted(s[1..], rest, table, vector, scalar + [s[0]]);
    }
  }

  lemma ReadCell(c: Cell, rest: Str, table: Table, vector: seq<Str>)
    requires (c.quoted || Plain(c.text)) && CellEnds(rest)
    ensures Parse(Spelled(c) + rest, table, vector, [], false) == Finish(rest, table, vector, c.text)
  {
    assert [] + c.text == c.text;
    if c.quoted {
      var src := Spelled(c) + rest;
      assert src[1..] == Doubled(c.text) + [QUOTE] + rest;
      ReadQuoted(c.text, rest, table, vector, []);
    } else {
      ReadPlain(c.text, rest, table, vector, []);
    }
  }

  /** The characters of a row from a comma on. */
  lemma CommaFirst(cs: seq<Cell>, rest: Str)
    requires cs != []
    ensures var src := MoreCells(cs) + rest;
            src != [] && src[0] == COMMA && src[1..] == Spelled(cs[0]) + (MoreCells(cs[1..]) + rest)
  {
    var first, more := Spelled(cs[0]), MoreCells(cs[1..]);
    assert MoreCells(cs) == [COMMA] + first + more;
    Behind(first, more, rest);
  }

  lemma Behind(first: Str, more: Str, rest: Str)
    ensures [COMMA] + first + more + rest == [COMMA] + (first + (more + rest))
  {
  }

  lemma MoreCellsEnd(cs: seq<Cell>, rest: Str)
    requires rest == [] || rest[0] == LF
    ensures CellEnds(MoreCells(cs) + rest)
  {
    hide Spelled;
  }

  lemma {:induction false} ReadMoreCells(cs: seq<Cell>, rest: Str, table: Table, vector: seq<Str>, s: Str)
    requires RegularRow(cs) && (rest == [] || rest[0] == LF)
    ensures Finish(MoreCells(cs) + rest, table, vector, s) == RowDone(rest, table, vector + [s] + Texts(cs))
    decreases |cs|
  {
    hide MoreCells, Spelled, Texts, Parse, CellEnds;
    TextsNone();
    if cs == [] {
      assert MoreCells(cs) == [] by { NoCells(); }
      assert MoreCells(cs) + rest == rest && vector + [s] + Texts(cs) == vector + [s];
    } else {
      var after := MoreCells(cs[1..]) + rest;
      CommaFirst(cs, rest);
      MoreCellsEnd(cs[1..], rest);
      ReadCell(cs[0], after, table, vector + [s]);
      ReadMoreCells(cs[1..], rest, table, vector + [s], cs[0].text);
      TextsCons(cs[0], cs[1..]);
      assert [cs[0]] + cs[1..] == cs;
      assert vector + [s] + [cs[0].text] + Texts(cs[1..]) == vector + [s] + Texts(cs);
    }
  }

  lemma NoCells()
    ensures MoreCells([]) == [] && MoreRows([]) == [] && RegularRow([])
  {
  }

  /** What follows the end of a row. */
  function RowDone(rest: Str, table: Table, row: seq<Str>): Option<Table> {
    if rest == [] then Some(table + [row])
    else if rest[0] == LF then Parse(rest[1..], table + [row], [], [], false)
    else None
  }

  lemma ReadRow(row: seq<Cell>, rest: Str, table: Table)
    requires row != [] && RegularRow(row) && (rest == [] || rest[0] == LF)
    ensures Parse(RowText(row) + rest, table, [], [], false) == RowDone(rest, table, Texts(row))
  {
    hide MoreCells, Spelled, Texts, Parse, CellEnds, RowDone;
    var after := MoreCells(row[1..]) + rest;
    assert RowText(row) + rest == Spelled(row[0]) + after;
    MoreCellsEnd(row[1..], rest);
    ReadCell(row[0], after, table, []);
    ReadMoreCells(row[1..], rest, table, [], row[0].text);
    TextsCons(row[0], row[1..]);
    assert [row[0]] + row[1..] == row;
    assert [] + [row[0].text] + Texts(row[1..]) == Texts(row);
  }

  lemma LineFirst(rows: seq<seq<Cell>>)
    requires rows != []
    ensures MoreRows(rows) != [] && MoreRows(rows)[0] == LF
            && MoreRows(rows)[1..] == RowText(rows[0]) + MoreRows(rows[1..])
  {
    hide RowText;
  }

  lemma {:induction false} ReadMoreRows(rows: seq<seq<Cell>>, table: Table, row: seq<Str>)
    requires Regular(rows)
    ensures RowDone(MoreRows(rows), table, row) == Some(table + [row] + TableOf(rows))
    decreases |rows|
  {
    hide MoreRows, RowText, RegularRow, Texts, TableOf, Parse;
    TextsNone();
    if rows == [] {
      NoCells();
      assert table + [row] + TableOf(rows) == table + [row];
    } else {
      var rest := MoreRows(rows[1..]);
      LineFirst(rows);
      if rows[1..] != [] {
        LineFirst(rows[1..]);
      } else {
        NoCells();
      }
      ReadRow(rows[0], rest, table + [row]);
      ReadMoreRows(rows[1..], table + [row], Texts(rows[0]));
      TableCons(rows[0], rows[1..]);
      assert [rows[0]] + rows[1..] == rows;
      assert table + [row] + [Texts(rows[0])] + TableOf(rows[1..]) == table + [row] + TableOf(rows);
    }
  }

  lemma ReadTable(rows: seq<seq<Cell>>)
    requires rows != [] && Regular(rows)
    ensures Parse(TableText(rows), [], [], [], false) == Some(TableOf(rows))
  {
    hide MoreRows, RowText, RegularRow, Texts, TableOf, Parse, RowDone;
    if rows[1..] != [] {
      LineFirst(rows[1..]);
    } else {
      NoCells();
    }
    ReadRow(rows[0], MoreRows(rows[1..]), []);
    ReadMoreRows(rows[1..], [], Texts(rows[0]));
    TableCons(rows[0], rows[1..]);
    assert [rows[0]] + rows[1..] == rows;
    assert [] + [Texts(rows[0])] + TableOf(rows[1..]) == TableOf(rows);
  }

  // ----- everything read is spelled -----

  /** How the rest of a text continues the cell being read: its other characters, the other cells of the
      row, and the other rows. */
  datatype Ending = Ending(s: Str, q: bool, cells: seq<Cell>, rows: seq<seq<Cell>>)

  predicate EndsWell(e: Ending) {
    RegularRow(e.cells) && Regular(e.rows)
  }

  function Tail(e: Ending): Str
    requires EndsWell(e)
  {
    MoreCells(e.cells) + MoreRows(e.rows)
  }

  predicate Continues(e: Ending, src: Str, t: Table, table: Table, vector: seq<Str>, scalar: Str, quoted: bool) {
    && EndsWell(e)
    && t == table + [vector + [scalar + e.s] + Texts(e.cells)] + TableOf(e.rows)
    && if quoted then src == Doubled(e.s) + [QUOTE] + Tail(e)
       else if e.q then scalar == [] && src == [QUOTE] + Doubled(e.s) + [QUOTE] + Tail(e)
       else Plain(e.s) && src == e.s + Tail(e)
  }

  predicate Finishes(e: Ending, src: Str, t: Table, table: Table, vector: seq<Str>, scalar: Str) {
    && EndsWell(e) && e.s == [] && !e.q
    && t == table + [vector + [scalar] + Texts(e.cells)] + TableOf(e.rows)
    && src == Tail(e)
  }

  lemma {:induction false} ParsedIsSpelled(src: Str, table: Table, vector: seq<Str>, scalar: Str, quoted: bool)
      returns (e: Ending)
    requires Parse(src, table, vector, scalar, quoted).Some?
    ensures Continues(e, src, Parse(src, table, vector, scalar, quoted).value, table, vector, scalar, quoted)
    decreases |src|, 1
  {
    hide MoreCells, MoreRows, Texts, TableOf, RegularRow, Regular;
    if src == [] || (!quoted && (src[0] == COMMA || src[0] == LF)) {
      e := FinishedIsSpelled(src, table, vector, scalar);
      assert scalar + e.s == scalar && e.s + Tail(e) == src;
    } else if src[0] == QUOTE && !quoted {
      e := ParsedIsSpelled(src[1..], table, vector, [], true);
      e := e.(q := true);
      assert src == [QUOTE] + src[1..];
    } else if src[0] == QUOTE && |src| > 1 && src[1] == QUOTE {
      e := ParsedIsSpelled(src[2..], table, vector, scalar + [QUOTE], true);
      e := Longer(e, QUOTE, src, src[2..], table, vector, scalar);
    } else if src[0] == QUOTE {
      e := FinishedIsSpelled(src[1..], table, vector, scalar);
      assert scalar + e.s == scalar;
      assert Doubled(e.s) + [QUOTE] + Tail(e) == [QUOTE] + src[1..];
    } else if quoted {
      e := ParsedIsSpelled(src[1..], table, vector, scalar + [src[0]], true);
      e := Longer(e, src[0], src, src[1..], table, vector, scalar);
    } else {
      e := ParsedIsSpelled(src[1..], table, vector, scalar + [src[0]], false);
      var s := [src[0]] + e.s;
      assert scalar + [src[0]] + e.s == scalar + s;
      assert src == s + Tail(e);
      e := e.(s := s);
    }
  }

  /** One more character in a quoted cell. */
  lemma Longer(e: Ending, c: Byte, src: Str, rest: Str, table: Table, vector: seq<Str>, scalar: Str) returns (r: Ending)
    requires EndsWell(e) && rest == Doubled(e.s) + [QUOTE] + Tail(e)
    requires src == (if c == QUOTE then [QUOTE, QUOTE] else [c]) + rest
    ensures r == e.(s := [c] + e.s) && src == Doubled(r.s) + [QUOTE] + Tail(r) && scalar + [c] + e.s == scalar + r.s
  {
    hide MoreCells, MoreRows;
    r := e.(s := [c] + e.s);
    assert r.s[1..] == e.s;
  }

  lemma {:induction false} FinishedIsSpelled(src: Str, table: Table, vector: seq<Str>, scalar: Str) returns (e: Ending)
    requires Finish(src, table, vector, scalar).Some?
    ensures Finishes(e, src, Finish(src, table, vector, scalar).value, table, vector, scalar)
    decreases |src|, 0
  {
    hide MoreCells, MoreRows, Texts, TableOf, RegularRow, Regular, Parse;
    TextsNone();
    if src == [] {
      e := Nothing();
      assert vector + [scalar] + Texts([]) == vector + [scalar];
      assert table + [vector + [scalar]] + TableOf([]) == table + [vector + [scalar]];
    } else if src[0] == COMMA {
      var d := ParsedIsSpelled(src[1..], table, vector + [scalar], [], false);
      assert [] + d.s == d.s && src == [COMMA] + src[1..];
      e := NextCell(d, src, src[1..]);
      assert vector + [scalar] + [d.s] + Texts(d.cells) == vector + [scalar] + Texts(e.cells);
    } else {
      var d := ParsedIsSpelled(src[1..], table + [vector + [scalar]], [], [], false);
      assert [] + d.s == d.s && src == [LF] + src[1..];
      e := NextRow(d, src, src[1..]);
      assert vector + [scalar] + Texts(e.cells) == vector + [scalar];
      assert [] + [d.s] + Texts(d.cells) == Texts(e.rows[0]);
      assert table + [vector + [scalar]] + [Texts(e.rows[0])] + TableOf(d.rows)
             == table + [vector + [scalar]] + TableOf(e.rows);
    }
  }

  lemma Nothing() returns (e: Ending)
    ensures e == Ending([], false, [], []) && EndsWell(e) && Tail(e) == []
  {
    e := Ending([], false, [], []);
  }

  predicate Begins(d: Ending, src: Str) {
    && EndsWell(d)
    && if d.q then src == [QUOTE] + Doubled(d.s) + [QUOTE] + Tail(d) else Plain(d.s) && src == d.s + Tail(d)
  }

  lemma RowCons(c: Cell, row: seq<Cell>)
    requires RegularRow(row) && (c.quoted || Plain(c.text))
    ensures RegularRow([c] + row) && MoreCells([c] + row) == [COMMA] + Spelled(c) + MoreCells(row)
            && RowText([c] + row) == Spelled(c) + MoreCells(row)
  {
    hide Spelled, Plain;
    assert ([c] + row)[1..] == row;
  }

  /** The cell that follows a comma. */
  lemma NextCell(d: Ending, src: Str, rest: Str) returns (e: Ending)
    requires Begins(d, rest) && src == [COMMA] + rest
    ensures EndsWell(e) && e == Ending([], false, [Cell(d.s, d.q)] + d.cells, d.rows) && src == Tail(e)
    ensures Texts(e.cells) == [d.s] + Texts(d.cells)
  {
    hide MoreCells, MoreRows, Texts, Doubled, Regular, RegularRow;
    var c := Cell(d.s, d.q);
    e := Ending([], false, [c] + d.cells, d.rows);
    TextsCons(c, d.cells);
    RowCons(c, d.cells);
    assert rest == Spelled(c) + Tail(d);
    assert src == MoreCells(e.cells) + MoreRows(d.rows);
  }

  /** The row that follows a line feed. */
  lemma NextRow(d: Ending, src: Str, rest: Str) returns (e: Ending)
    requires Begins(d, rest) && src == [LF] + rest
    ensures EndsWell(e) && e == Ending([], false, [], [[Cell(d.s, d.q)] + d.cells] + d.rows) && src == Tail(e)
    ensures Texts(e.rows[0]) == [d.s] + Texts(d.cells) && TableOf(e.rows) == [Texts(e.rows[0])] + TableOf(d.rows)
  {
    var c := Cell(d.s, d.q);
    hide Texts, TableOf, Doubled, RegularRow, MoreCells, RowText;
    var row := [c] + d.cells;
    e := Ending([], false, [], [row] + d.rows);
    TextsCons(c, d.cells);
    TableCons(row, d.rows);
    RowCons(c, d.cells);
    NoCells();
    assert MoreCells([]) + MoreRows(e.rows) == MoreRows(e.rows);
    assert rest == Spelled(c) + Tail(d);
  }

  /** A whole text, from its first cell on. */
  lemma Whole(d: Ending, src: Str) returns (rows: seq<seq<Cell>>)
    requires Begins(d, src)
    ensures rows != [] && Regular(rows) && TableText(rows) == src
            && TableOf(rows) == [[d.s] + Texts(d.cells)] + TableOf(d.rows)
  {
    hide Texts, TableOf, Doubled, MoreCells, MoreRows, RowText, RegularRow;
    var c := Cell(d.s, d.q);
    var row := [c] + d.cells;
    rows := [row] + d.rows;
    TextsCons(c, d.cells);
    TableCons(row, d.rows);
    RowCons(c, d.cells);
    assert src == Spelled(c) + Tail(d);
    assert TableText(rows) == RowText(row) + MoreRows(d.rows);
  }

  /** The reader accepts exactly the texts that spell a table, and gives that table. */
  lemma ReadsWhatIsSpelled(src: Str, t: Table)
    ensures Read(src) == Some(t) <==> if src == [] then t == [] else Spells(src, t)
  {
    hide MoreCells, MoreRows, Texts, TableOf, RegularRow, Regular, Parse, TableText;
    if src != [] {
      if Read(src) == Some(t) {
        var d := ParsedIsSpelled(src, [], [], [], false);
        var rows := Whole(d, src);
        assert [] + d.s == d.s && [] + [d.s] + Texts(d.cells) == [d.s] + Texts(d.cells);
        assert [] + [[d.s] + Texts(d.cells)] + TableOf(d.rows) == TableOf(rows);
        assert Spelling(rows, src, t);
      } else if Spells(src, t) {
        var rows: seq<seq<Cell>> :| Spelling(rows, src, t);
        ReadTable(rows);
      }
    }
  }

  /** The text of two lines, 'a,","' and 'b', has two rows: a comma separates cells, a line feed ends a row, and quotes
      keep the comma in a cell. */
  lemma SampleTable()
    ensures Read([97, 44, 34, 44, 34, 10, 98]) == Some([[[97], [44]], [[98]]])
  {
    var src: Str := [97, 44, 34, 44, 34, 10, 98];
    var a, b, c := Cell([97], false), Cell([44], true), Cell([98], false);
    var rows := [[a, b], [c]];
    assert [a, b][1..] == [b] && [b][1..] == [] && [c][1..] == [] && rows[1..] == [[c]] && [[c]][1..] == [];
    assert Doubled([44]) == [44] by {
      assert [44][1..] == [];
    }
    assert MoreCells([b]) == [44, 34, 44, 34];
    assert RowText([a, b]) == [97, 44, 34, 44, 34] && RowText([c]) == [98];
    assert MoreRows([[c]]) == [10, 98];
    assert TableText(rows) == src;
    var t := TableOf(rows);
    assert Texts([a, b]) == [[97], [44]] && Texts([c]) == [[98]];
    assert t == [[[97], [44]], [[98]]];
    assert Spelling(rows, src, t);
    ReadsWhatIsSpelled(src, t);
  }

  // ----- writing -----

  /** A cell is quoted when it has to be. */
  function Quoted(row: seq<Str>): seq<Cell> {
    seq(|row|, i requires 0 <= i < |row| => Cell(row[i], !Plain(row[i])))
  }

  function QuotedTable(t: Table): seq<seq<Cell>> {
    seq(|t|, i requires 0 <= i < |t| => Quoted(t[i]))
  }

  function RowOf(w: World, items: seq<Value>): (r: Result<seq<Str>, Error>)
    ensures r.Ok? ==> |r.value| == |items|
    decreases |items|
  {
    if items == [] then Ok([])
    else
      var x := AsTxt(w, items[0]);
      if x.Err? then Err(x.error)
      else
        var rest := RowOf(w, items[1..]);
        if rest.Err? then rest else Ok([x.value] + rest.value)
  }

  function RowsOf(w: World, lists: seq<seq<Value>>, items: seq<Value>): (r: Result<Table, Error>)
    ensures r.Ok? ==> |r.value| == |items|
    decreases |items|
  {
    if items == [] then Ok([])
    else
      var id := AsList(items[0]);
      if id.Err? then Err(id.error)
      else
        var row := RowOf(w, Items(lists, id.value));
        if row.Err? then Err(row.error)
        else
          var rest := RowsOf(w, lists, items[1..]);
          if rest.Err? then rest else Ok([row.value] + rest.value)
  }

  predicate TableMode(items: seq<Value>) {
    exists i :: 0 <= i < |items| && items[i].List?
  }

  /** The text of a list: as a table if one of its items is a list, and as one row otherwise. */
  function CsvText(w: World, lists: seq<seq<Value>>, value: Value): Result<Str, Error> {
    var id := AsList(value);
    if id.Err? then Err(id.error)
    else
      var items := Items(lists, id.value);
      if TableMode(items) then
        var t := RowsOf(w, lists, items);
        if t.Err? then Err(t.error) else Ok(TableText(QuotedTable(t.value)))
      else
        var row := RowOf(w, items);
        if row.Err? then Err(row.error) else Ok(RowText(Quoted(row.value)))
  }

  method NeedsQuotes(value: Str) returns (needs: bool)
    ensures needs == !Plain(value)
  {
    needs := false;
    for i := 0 to |value|
      invariant needs == !Plain(value[..i])
    {
      assert value[..i + 1] == value[..i] + [value[i]];
      needs := needs || value[i] == QUOTE || value[i] == COMMA || value[i] == LF;
    }
    assert value[..|value|] == value;
  }

  method ProcessScalar(value: Str) returns (res: Str)
    ensures res == Spelled(Cell(value, !Plain(value)))
  {
    hide Plain;
    var needsQuotes := NeedsQuotes(value);
    var doubled: Str := [];
    assert value[0..] == value;
    for i := 0 to |value|
      invariant doubled + Doubled(value[i..]) == Doubled(value)
    {
      assert value[i..][0] == value[i] && value[i..][1..] == value[i + 1..];
      doubled := doubled + if value[i] == QUOTE then [QUOTE, QUOTE] else [value[i]];
    }
    if needsQuotes {
      return [QUOTE] + doubled + [QUOTE];
    }
    PlainDoubled(value);
    return doubled;
  }

  lemma {:induction false} PlainDoubled(s: Str)
    requires Plain(s)
    ensures Doubled(s) == s
    decreases |s|
  {
    if s != [] {
      assert s[0] in s && forall x :: x in s[1..] ==> x in s;
      PlainDoubled(s[1..]);
    }
  }

  lemma {:induction false} MoreCellsAdd(row: seq<Cell>, c: Cell)
    ensures MoreCells(row + [c]) == MoreCells(row) + [COMMA] + Spelled(c)
    decreases |row|
  {
    hide Spelled;
    if row == [] {
      assert row + [c] == [c] && [c][1..] == [];
    } else {
      assert (row + [c])[1..] == row[1..] + [c];
      MoreCellsAdd(row[1..], c);
    }
  }

  lemma RowTextAdd(row: seq<Cell>, c: Cell)
    ensures RowText(row + [c]) == RowText(row) + (if row == [] then [] else [COMMA]) + Spelled(c)
  {
    hide Spelled;
    if row != [] {
      assert (row + [c])[1..] == row[1..] + [c];
      MoreCellsAdd(row[1..], c);
    }
  }

  lemma {:induction false} MoreRowsAdd(rows: seq<seq<Cell>>, row: seq<Cell>)
    ensures MoreRows(rows + [row]) == MoreRows(rows) + [LF] + RowText(row)
    decreases |rows|
  {
    hide RowText;
    if rows == [] {
      assert rows + [row] == [row] && [row][1..] == [];
    } else {
      assert (rows + [row])[1..] == rows[1..] + [row];
      MoreRowsAdd(rows[1..], row);
    }
  }

  lemma TableTextAdd(rows: seq<seq<Cell>>, row: seq<Cell>)
    ensures TableText(rows + [row]) == TableText(rows) + (if rows == [] then [] else [LF]) + RowText(row)
  {
    hide RowText;
    if rows != [] {
      assert (rows + [row])[1..] == rows[1..] + [row];
      MoreRowsAdd(rows[1..], row);
    }
  }

  /** Adds the cells of a row to the output, which `res` is. */
  method ProcessVector(w: World, res0: Str, items: seq<Value>) returns (r: Result<Str, Error>)
    ensures var row := RowOf(w, items);
            r == (if row.Err? then Err(row.error) else Ok(res0 + RowText(Quoted(row.value))))
  {
    hide RowText, Spelled, AsTxt, Plain;
    var res := res0;
    ghost var done: seq<Str> := [];
    assert items[0..] == items;
    JoinedEnds(done, RowOf(w, items));
    assert res0 + RowText(Quoted([])) == res0 by { EmptyRow(); }
    for i := 0 to |items|
      invariant |done| == i && res == res0 + RowText(Quoted(done))
      invariant RowOf(w, items) == Joined(done, RowOf(w, items[i..]))
    {
      assert items[i..][0] == items[i] && items[i..][1..] == items[i + 1..];
      if i != 0 {
        res := res + [COMMA];
      }
      var x := AsTxt(w, items[i]);
      if x.Err? {
        return Err(x.error);
      }
      var cell := ProcessScalar(x.value);
      RowTextAdd(Quoted(done), Cell(x.value, !Plain(x.value)));
      assert Quoted(done + [x.value]) == Quoted(done) + [Cell(x.value, !Plain(x.value))];
      res := res + cell;
      JoinedMore(done, x.value, RowOf(w, items[i + 1..]));
      done := done + [x.value];
    }
    JoinedEnds(done, RowOf(w, items));
    return Ok(res);
  }

  lemma EmptyRow()
    ensures RowText(Quoted([])) == [] && TableText(QuotedTable([])) == []
  {
  }

  function Joined<T>(done: seq<T>, rest: Result<seq<T>, Error>): Result<seq<T>, Error> {
    if rest.Ok? then Ok(done + rest.value) else rest
  }

  lemma JoinedEnds<T>(done: seq<T>, r: Result<seq<T>, Error>)
    ensures Joined([], r) == r && Joined(done, Ok([])) == Ok(done)
  {
    assert done + [] == done && (r.Ok? ==> [] + r.value == r.value);
  }

  lemma JoinedMore<T>(done: seq<T>, x: T, rest: Result<seq<T>, Error>)
    ensures Joined(done, if rest.Err? then rest else Ok([x] + rest.value)) == Joined(done + [x], rest)
  {
    if rest.Ok? {
      assert done + ([x] + rest.value) == done + [x] + rest.value;
    }
  }

  method ProcessTable(w: World, lists: seq<seq<Value>>, items: seq<Value>) returns (r: Result<Str, Error>)
    ensures var t := RowsOf(w, lists, items);
            r == (if t.Err? then Err(t.error) else Ok(TableText(QuotedTable(t.value))))
  {
    hide RowText, TableText, Quoted, RowOf;
    var res: Str := [];
    ghost var done: Table := [];
    assert items[0..] == items;
    JoinedEnds(done, RowsOf(w, lists, items));
    EmptyRow();
    for i := 0 to |items|
      invariant |done| == i && res == TableText(QuotedTable(done))
      invariant RowsOf(w, lists, items) == Joined(done, RowsOf(w, lists, items[i..]))
    {
      assert items[i..][0] == items[i] && items[i..][1..] == items[i + 1..];
      if i != 0 {
        res := res + [LF];
      }
      var id := AsList(items[i]);
      if id.Err? {
        return Err(id.error);
      }
      var row := Items(lists, id.value);
      ghost var texts := RowOf(w, row);
      var x := ProcessVector(w, res, row);
      if x.Err? {
        return Err(x.error);
      }
      TableTextAdd(QuotedTable(done), Quoted(texts.value));
      assert QuotedTable(done + [texts.value]) == QuotedTable(done) + [Quoted(texts.value)];
      res := x.value;
      JoinedMore(done, texts.value, RowsOf(w, lists, items[i + 1..]));
      done := done + [texts.value];
    }
    JoinedEnds(done, RowsOf(w, lists, items));
    return Ok(res);
  }

  method ToCsv(w: World, lists: seq<seq<Value>>, value: Value) returns (r: Result<Str, Error>)
    ensures r == CsvText(w, lists, value)
  {
    var id := AsList(value);
    if id.Err? {
      return Err(id.error);
    }
    var items := Items(lists, id.value);
    var tableMode := false;
    for i := 0 to |items|
      invariant tableMode <==> exists j :: 0 <= j < i && items[j].List?
    {
      tableMode := tableMode || items[i].List?;
    }
    if tableMode {
      r := ProcessTable(w, lists, items);
    } else {
      r := ProcessVector(w, [], items);
      assert r.Ok? ==> [] + RowText(Quoted(RowOf(w, items).value)) == RowText(Quoted(RowOf(w, items).value));
    }
  }

  // ----- round trips -----

  lemma QuotedIsRegular(row: seq<Str>)
    ensures RegularRow(Quoted(row)) && Texts(Quoted(row)) == row
  {
  }

  lemma QuotedTableIsRegular(t: Table)
    ensures TableOf(QuotedTable(t)) == t && |QuotedTable(t)| == |t|
    ensures Regular(QuotedTable(t)) <==> forall i :: 0 <= i < |t| ==> t[i] != []
  {
    hide RegularRow, Texts;
    forall i | 0 <= i < |t| ensures RegularRow(QuotedTable(t)[i]) && Texts(QuotedTable(t)[i]) == t[i] {
      QuotedIsRegular(t[i]);
    }
  }

  /** Only the table of one empty cell has an empty text, if there are no empty rows. */
  lemma EmptyText(t: Table)
    requires t != [] && forall i :: 0 <= i < |t| ==> t[i] != []
    ensures TableText(QuotedTable(t)) == [] <==> t == [[[]]]
  {
    var rows := QuotedTable(t);
    var row := Quoted(t[0]);
    assert rows[0] == row && row[0].text == t[0][0];
    if TableText(rows) == [] {
      assert |MoreRows(rows[1..])| == 0 && |RowText(row)| == 0;
      assert rows[1..] == [];
      assert |MoreCells(row[1..])| == 0 && |Spelled(row[0])| == 0;
      assert row[1..] == [];
      assert t[0] == [t[0][0]] == [[]];
      assert t == [t[0]];
    }
  }

  /** Reading what was written gives a table back exactly if it has no empty row, and is not the table whose
      one cell is empty. */
  lemma TableRoundTrip(t: Table)
    ensures Read(TableText(QuotedTable(t))) == Some(t) <==> t != [[[]]] && forall i :: 0 <= i < |t| ==> t[i] != []
  {
    hide TableText, Regular, TableOf, Parse, QuotedTable, Texts;
    var src := TableText(QuotedTable(t));
    if t == [] {
      EmptyRow();
    } else {
      QuotedTableIsRegular(t);
      if Read(src) == Some(t) {
        ReadsWhatIsSpelled(src, t);
        if src != [] {
          var rows: seq<seq<Cell>> :| Spelling(rows, src, t);
          RegularRows(rows, t);
          EmptyText(t);
        }
      } else if forall i :: 0 <= i < |t| ==> t[i] != [] {
        EmptyText(t);
        if src != [] {
          ReadTable(QuotedTable(t));
        }
      }
    }
  }

  lemma RegularRows(rows: seq<seq<Cell>>, t: Table)
    requires Regular(rows) && TableOf(rows) == t
    ensures forall i :: 0 <= i < |t| ==> t[i] != []
  {
    forall i | 0 <= i < |t| ensures t[i] != [] {
      assert t[i] == Texts(rows[i]);
    }
  }

  /** A flat list is read back as the only row of a table, exactly if it has an item, and is not the list of
      one empty text. */
  lemma RowRoundTrip(row: seq<Str>)
    ensures Read(RowText(Quoted(row))) == Some([row]) <==> row != [] && row != [[]]
  {
    hide RowText, Quoted, Parse;
    OneRow(row);
    TableRoundTrip([row]);
    if row == [[]] {
      assert [row] == [[[]]];
    } else {
      assert [row][0] != [[[]]][0];
    }
    if row == [] {
      assert [row][0] == [];
    }
  }

  lemma OneRow(row: seq<Str>)
    ensures TableText(QuotedTable([row])) == RowText(Quoted(row))
  {
    hide RowText, Quoted;
    assert QuotedTable([row]) == [Quoted(row)];
    assert [Quoted(row)][1..] == [];
  }

  /** The values of a table of texts. */
  predicate Holds(lists: seq<seq<Value>>, items: seq<Value>, t: Table) {
    |items| == |t| && forall i :: 0 <= i < |t| ==> items[i].List? && Items(lists, items[i].id) == Cells(t[i])
  }

  function Cells(row: seq<Str>): seq<Value> {
    seq(|row|, i requires 0 <= i < |row| => Txt(row[i]))
  }

  lemma {:induction false} RowOfCells(w: World, row: seq<Str>)
    ensures RowOf(w, Cells(row)) == Ok(row)
    decreases |row|
  {
    if row != [] {
      assert Cells(row)[1..] == Cells(row[1..]);
      RowOfCells(w, row[1..]);
      assert [row[0]] + row[1..] == row;
    }
  }

  lemma {:induction false} RowsOfTable(w: World, lists: seq<seq<Value>>, items: seq<Value>, t: Table)
    requires Holds(lists, items, t)
    ensures RowsOf(w, lists, items) == Ok(t)
    decreases |t|
  {
    hide RowOf, Cells;
    if t != [] {
      RowOfCells(w, t[0]);
      RowsOfTable(w, lists, items[1..], t[1..]);
      assert [t[0]] + t[1..] == t;
    }
  }

  /** Printing a list of lists of texts, and reading it again. */
  lemma CsvRoundTrip(w: World, lists: seq<seq<Value>>, id: nat, t: Table)
    requires Holds(lists, Items(lists, id), t)
    ensures CsvText(w, lists, List(id)).Ok?
    ensures Read(CsvText(w, lists, List(id)).value) == Some(t) <==> t != [[[]]] && forall i :: 0 <= i < |t| ==>
              t[i] != []
  {
    hide TableText, Parse, RowText;
    var items := Items(lists, id);
    RowsOfTable(w, lists, items, t);
    EmptyRow();
    TableRoundTrip(t);
    if t != [] {
      assert items[0].List?;
    }
  }
}
