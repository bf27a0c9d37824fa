/**
 * The CSV export of the audit trail, and a reader for it: section 2 of RFC 4180 with a line feed
 * as the record separator.
 */
module CsvExport {
  import opened Prelude

  /** An exported value: missing, a string, or anything else in its JSON text. */
  datatype Cell = Missing | Text(s: string) | Structured(json: string)

  type Table = seq<seq<string>>

  // ----- Writing -----

  function Normalized(c: Cell): string {
    match c
    case Missing => ""
    case Text(s) => s
    case Structured(json) => json
  }

  predicate Special(c: char) {
    c == '"' || c == ',' || c == '\n'
  }

  predicate NeedsQuotes(s: string) {
    exists i :: 0 <= i < |s| && Special(s[i])
  }

  function DoubleQuotes(s: string): string {
    if s == "" then "" else (if s[0] == '"' then "\"\"" else [s[0]]) + DoubleQuotes(s[1..])
  }

  function EscapeText(s: string): string {
    if NeedsQuotes(s) then "\"" + DoubleQuotes(s) + "\"" else s
  }

  function EscapeCsvCell(c: Cell): string {
    EscapeText(Normalized(c))
  }

  function JoinFrom(parts: seq<string>, separator: string): string {
    if parts == [] then "" else separator + parts[0] + JoinFrom(parts[1..], separator)
  }

  function Join(parts: seq<string>, separator: string): string {
    if parts == [] then "" else parts[0] + JoinFrom(parts[1..], separator)
  }

  function Escaped(cells: seq<Cell>): (r: seq<string>)
    ensures |r| == |cells|
    ensures forall i :: 0 <= i < |r| ==> r[i] == EscapeCsvCell(cells[i])
  {
    seq(|cells|, i requires 0 <= i < |cells| => EscapeCsvCell(cells[i]))
  }

  function Row(cells: seq<Cell>): string {
    Join(Escaped(cells), ",")
  }

  function Rows(rows: seq<seq<Cell>>): (r: seq<string>)
    ensures |r| == |rows|
    ensures forall i :: 0 <= i < |r| ==> r[i] == Row(rows[i])
  {
    seq(|rows|, i requires 0 <= i < |rows| => Row(rows[i]))
  }

  function Export(rows: seq<seq<Cell>>): string {
    Join(Rows(rows), "\n")
  }

  /** The text that a table of cells stands for. */
  function Values(cells: seq<Cell>): (r: seq<string>)
    ensures |r| == |cells|
    ensures forall i :: 0 <= i < |r| ==> r[i] == Normalized(cells[i])
  {
    seq(|cells|, i requires 0 <= i < |cells| => Normalized(cells[i]))
  }

  function TableOf(rows: seq<seq<Cell>>): (r: Table)
    ensures |r| == |rows|
    ensures forall i :: 0 <= i < |r| ==> r[i] == Values(rows[i])
  {
    seq(|rows|, i requires 0 <= i < |rows| => Values(rows[i]))
  }

  // ----- Reading -----

  /** Where the reader stands in the current field. */
  datatype Mode = Fresh | Plain | Quoted | AfterQuote

  /**
   * Reads the rest of the text. `cell`, `row` and `table` hold what is complete so far. A field that
   * starts with a quote runs to the next single quote, with doubled quotes inside; any other field
   * runs to the next comma or line feed and holds no quote.
   */
  function Read(mode: Mode, cell: string, row: seq<string>, table: Table, text: string): Option<Table>
    decreases |text|
  {
    if text == "" then
      if mode == Quoted then None else Some(table + [row + [cell]])
    else
      var c, rest := text[0], text[1..];
      if mode == Quoted then
        if c == '"' then Read(AfterQuote, cell, row, table, rest) else Read(Quoted, cell + [c], row, table, rest)
      else if c == ',' then Read(Fresh, "", row + [cell], table, rest)
      else if c == '\n' then Read(Fresh, "", [], table + [row + [cell]], rest)
      else if c == '"' then
        match mode
        case Fresh => Read(Quoted, cell, row, table, rest)
        case AfterQuote => Read(Quoted, cell + ['"'], row, table, rest)
        case _ => None
      else if mode == AfterQuote then None
      else Read(Plain, cell + [c], row, table, rest)
  }

  function ReadCsv(text: string): Option<Table> {
    Read(Fresh, "", [], [], text)
  }

  // ----- Reading undoes writing -----

  /** The text ends here, or the field does. */
  predicate Ends(rest: string) {
    rest == "" || rest[0] == ',' || rest[0] == '\n'
  }

  lemma {:induction false} ReadPlain(mode: Mode, s: string, cell: string, row: seq<string>, table: Table, rest: string)
    requires mode == Fresh || mode == Plain
    requires !NeedsQuotes(s) && Ends(rest)
    ensures Read(mode, cell, row, table, s + rest) == Read(Plain, cell + s, row, table, rest)
    decreases |s|
  {
    if s == "" {
      assert s + rest == rest && cell + s == cell;
    } else {
      assert !Special(s[0]);
      assert (s + rest)[0] == s[0] && (s + rest)[1..] == s[1..] + rest;
      assert forall i :: 0 <= i < |s[1..]| ==> s[1..][i] == s[i + 1];
      ReadPlain(Plain, s[1..], cell + [s[0]], row, table, rest);
      assert cell + [s[0]] + s[1..] == cell + s;
    }
  }

  lemma {:induction false} ReadDoubled(s: string, cell: string, row: seq<string>, table: Table, rest: string)
    requires Ends(rest)
    ensures Read(Quoted, cell, row, table, DoubleQuotes(s) + "\"" + rest) == Read(AfterQuote, cell + s, row, table, rest)
  {
    var text := DoubleQuotes(s) + "\"" + rest;
    if s == "" {
      assert text == "\"" + rest && text[1..] == rest && cell + s == cell;
    } else {
      var tail := DoubleQuotes(s[1..]) + "\"" + rest;
      ReadDoubled(s[1..], cell + [s[0]], row, table, rest);
      assert cell + [s[0]] + s[1..] == cell + s;
      if s[0] == '"' {
        assert text[0] == '"' && text[1..][0] == '"' && text[1..][1..] == tail;
      } else {
        assert text[0] == s[0] && text[1..] == tail;
      }
    }
  }

  lemma {:induction false} ReadQuoted(s: string, row: seq<string>, table: Table, rest: string)
    requires Ends(rest)
    ensures Read(Fresh, "", row, table, "\"" + DoubleQuotes(s) + "\"" + rest) == Read(AfterQuote, s, row, table, rest)
  {
    var text := "\"" + DoubleQuotes(s) + "\"" + rest;
    assert text[0] == '"' && text[1..] == DoubleQuotes(s) + "\"" + rest;
    ReadDoubled(s, "", row, table, rest);
    assert "" + s == s;
  }

  /** A written field is read back whole, whatever it contains. */
  lemma {:induction false} ReadField(s: string, row: seq<string>, table: Table, rest: string) returns (mode: Mode)
    requires Ends(rest)
    ensures mode != Quoted && Read(Fresh, "", row, table, EscapeText(s) + rest) == Read(mode, s, row, table, rest)
  {
    if NeedsQuotes(s) {
      ReadQuoted(s, row, table, rest);
      return AfterQuote;
    } else {
      ReadPlain(Fresh, s, "", row, table, rest);
      assert "" + s == s;
      return Plain;
    }
  }

  /** The rest of a row: each further cell behind its comma. */
  function RowTail(cells: seq<string>): string {
    if cells == [] then "" else "," + EscapeText(cells[0]) + RowTail(cells[1..])
  }

  /** The rest of a table: each further row behind its line feed. */
  function TableTail(rows: Table): string {
    if rows == [] then ""
    else "\n" + (if rows[0] == [] then "" else EscapeText(rows[0][0]) + RowTail(rows[0][1..])) + TableTail(rows[1..])
  }

  /** A comma completes the field and starts the next one; a line feed or the end completes the row. */
  lemma {:induction false} ReadEnd(mode: Mode, cell: string, row: seq<string>, table: Table, rest: string)
    requires mode != Quoted && Ends(rest)
    ensures Read(mode, cell, row, table, rest)
         == if rest == "" then Some(table + [row + [cell]])
            else if rest[0] == ',' then Read(Fresh, "", row + [cell], table, rest[1..])
            else Read(Fresh, "", [], table + [row + [cell]], rest[1..])
  {
  }

  lemma {:induction false} ReadFieldAndEnd(s: string, row: seq<string>, table: Table, rest: string)
    requires Ends(rest)
    ensures Read(Fresh, "", row, table, EscapeText(s) + rest)
         == if rest == "" then Some(table + [row + [s]])
            else if rest[0] == ',' then Read(Fresh, "", row + [s], table, rest[1..])
            else Read(Fresh, "", [], table + [row + [s]], rest[1..])
  {
    var mode := ReadField(s, row, table, rest);
    ReadEnd(mode, s, row, table, rest);
  }

  lemma {:induction false} TailStartsWithComma(cells: seq<string>, rest: string)
    requires cells != []
    ensures var tail := RowTail(cells) + rest;
            tail != "" && tail[0] == ',' && tail[1..] == EscapeText(cells[0]) + RowTail(cells[1..]) + rest
  {
    var a, b := EscapeText(cells[0]), RowTail(cells[1..]);
    assert "," + a + b + rest == "," + (a + b + rest);
  }

  lemma {:induction false} ReadRow(first: string, cells: seq<string>, row: seq<string>, table: Table, rest: string)
    requires rest == "" || rest[0] == '\n'
    ensures Read(Fresh, "", row, table, EscapeText(first) + RowTail(cells) + rest)
         == if rest == "" then Some(table + [row + [first] + cells])
            else Read(Fresh, "", [], table + [row + [first] + cells], rest[1..])
    decreases |cells|
  {
    assert EscapeText(first) + RowTail(cells) + rest == EscapeText(first) + (RowTail(cells) + rest);
    if cells == [] {
      assert RowTail(cells) + rest == rest;
      ReadFieldAndEnd(first, row, table, rest);
      assert row + [first] + cells == row + [first];
    } else {
      TailStartsWithComma(cells, rest);
      ReadFieldAndEnd(first, row, table, RowTail(cells) + rest);
      ReadRow(cells[0], cells[1..], row + [first], table, rest);
      assert row + [first] + [cells[0]] + cells[1..] == row + [first] + cells;
    }
  }

  predicate NoEmptyRow(rows: Table) {
    forall i :: 0 <= i < |rows| ==> rows[i] != []
  }

  lemma {:induction false} TailStartsWithLineFeed(rows: Table)
    requires rows != [] && rows[0] != []
    ensures var tail := TableTail(rows);
            && tail != "" && tail[0] == '\n'
            && tail[1..] == EscapeText(rows[0][0]) + RowTail(rows[0][1..]) + TableTail(rows[1..])
  {
    var a, b := EscapeText(rows[0][0]) + RowTail(rows[0][1..]), TableTail(rows[1..]);
    assert "\n" + a + b == "\n" + (a + b);
  }

  lemma {:induction false} ReadRows(first: seq<string>, rows: Table, table: Table)
    requires first != [] && NoEmptyRow(rows)
    ensures Read(Fresh, "", [], table, EscapeText(first[0]) + RowTail(first[1..]) + TableTail(rows))
         == Some(table + [first] + rows)
    decreases |rows|
  {
    ReadRow(first[0], first[1..], [], table, TableTail(rows));
    assert [] + [first[0]] + first[1..] == first;
    if rows == [] {
      assert table + [first] + rows == table + [first];
    } else {
      TailStartsWithLineFeed(rows);
      ReadRows(rows[0], rows[1..], table + [first]);
      assert table + [first] + [rows[0]] + rows[1..] == table + [first] + rows;
    }
  }

  lemma {:induction false} RowIsTail(cells: seq<Cell>)
    ensures JoinFrom(Escaped(cells), ",") == RowTail(Values(cells))
    decreases |cells|
  {
    if cells != [] {
      RowIsTail(cells[1..]);
      assert Escaped(cells)[1..] == Escaped(cells[1..]);
      assert Values(cells)[1..] == Values(cells[1..]);
    }
  }

  lemma {:induction false} RowStartsWithItsFirstCell(cells: seq<Cell>)
    requires cells != []
    ensures Row(cells) == EscapeText(Values(cells)[0]) + RowTail(Values(cells)[1..])
  {
    RowIsTail(cells[1..]);
    assert Escaped(cells)[1..] == Escaped(cells[1..]);
    assert Values(cells)[1..] == Values(cells[1..]);
  }

  lemma {:induction false} TableIsTail(rows: seq<seq<Cell>>)
    requires forall i :: 0 <= i < |rows| ==> rows[i] != []
    ensures JoinFrom(Rows(rows), "\n") == TableTail(TableOf(rows))
    decreases |rows|
  {
    if rows != [] {
      TableIsTail(rows[1..]);
      assert Rows(rows)[1..] == Rows(rows[1..]);
      assert TableOf(rows)[1..] == TableOf(rows[1..]);
      RowStartsWithItsFirstCell(rows[0]);
    }
  }

  lemma {:induction false} ExportIsTail(rows: seq<seq<Cell>>)
    requires rows != [] && forall i :: 0 <= i < |rows| ==> rows[i] != []
    ensures var table := TableOf(rows);
            && table != [] && NoEmptyRow(table)
            && Export(rows) == EscapeText(table[0][0]) + RowTail(table[0][1..]) + TableTail(table[1..])
  {
    assert Rows(rows)[1..] == Rows(rows[1..]);
    TableIsTail(rows[1..]);
    assert TableOf(rows)[1..] == TableOf(rows[1..]);
    RowStartsWithItsFirstCell(rows[0]);
  }

  /**
   * The export is undone by the reader: for any table with at least one row and no row without
   * cells, whatever commas, quotes and line feeds its cells contain.
   */
  lemma {:induction false} ReadingUndoesExport(rows: seq<seq<Cell>>)
    requires rows != [] && forall i :: 0 <= i < |rows| ==> rows[i] != []
    ensures ReadCsv(Export(rows)) == Some(TableOf(rows))
  {
    var table := TableOf(rows);
    ExportIsTail(rows);
    ReadRows(table[0], table[1..], []);
    assert [] + [table[0]] + table[1..] == table;
  }

  // ----- The audit export -----

  /** An audit event as the web application receives it. */
  datatype AuditRow = AuditRow(
    id: string, createdAt: string, action: string, entityType: string,
    entityId: string, actorType: string, actorId: string, metadata: Cell)

  const HEADER := [Text("id"), Text("createdAt"), Text("action"), Text("entityType"),
                   Text("entityId"), Text("actorType"), Text("actorId"), Text("metadata")]

  function Cells(e: AuditRow): (cells: seq<Cell>)
    ensures |cells| == |HEADER|
  {
    [Text(e.id), Text(e.createdAt), Text(e.action), Text(e.entityType),
     Text(e.entityId), Text(e.actorType), Text(e.actorId), e.metadata]
  }

  function AuditRows(events: seq<AuditRow>): (rows: seq<seq<Cell>>)
    ensures |rows| == |events| + 1 && rows[0] == HEADER
    ensures forall i :: 0 <= i < |events| ==> rows[i + 1] == Cells(events[i])
  {
    [HEADER] + seq(|events|, i requires 0 <= i < |events| => Cells(events[i]))
  }

  function AuditCsv(events: seq<AuditRow>): string {
    Export(AuditRows(events))
  }

  lemma {:induction false} AuditExportReads(a: seq<AuditRow>)
    ensures ReadCsv(AuditCsv(a)).Some? && |ReadCsv(AuditCsv(a)).value| == |a| + 1
    ensures ReadCsv(AuditCsv(a)).value[0] == Values(HEADER)
    ensures forall i :: 0 <= i < |a| ==> ReadCsv(AuditCsv(a)).value[i + 1] == Values(Cells(a[i]))
  {
    var rows := AuditRows(a);
    forall i | 0 <= i < |rows| ensures rows[i] != [] {
      assert i > 0 ==> rows[i - 1 + 1] == Cells(a[i - 1]);
    }
    ReadingUndoesExport(rows);
  }

  /** The text under which a value is exported. */
  predicate Shows(text: string, c: Cell) {
    match c
    case Missing => text == ""
    case Text(s) => text == s
    case Structured(json) => text == json
  }

  /** A row of texts holds the event's fields, the metadata last. */
  predicate Holds(row: seq<string>, e: AuditRow) {
    && |row| == 8
    && row[..7] == [e.id, e.createdAt, e.action, e.entityType, e.entityId, e.actorType, e.actorId]
    && Shows(row[7], e.metadata)
  }

  lemma {:induction false} HeaderIs()
    ensures Values(HEADER) == ["id", "createdAt", "action", "entityType", "entityId", "actorType", "actorId", "metadata"]
  {
  }

  lemma {:induction false} CellsHoldTheEvent(e: AuditRow)
    ensures Holds(Values(Cells(e)), e)
  {
    var v := Values(Cells(e));
    assert v[0] == e.id && v[1] == e.createdAt && v[2] == e.action && v[3] == e.entityType;
    assert v[4] == e.entityId && v[5] == e.actorType && v[6] == e.actorId;
  }

  /**
   * Every field stands under its own header: the reader finds the eight names in the first row, and in
   * each further row the event's fields in the same places.
   */
  lemma {:induction false} FieldsStandUnderTheirHeaders(a: seq<AuditRow>)
    ensures var table := ReadCsv(AuditCsv(a));
            && table.Some? && |table.value| == |a| + 1
            && table.value[0] == ["id", "createdAt", "action", "entityType", "entityId", "actorType", "actorId", "metadata"]
            && forall i :: 0 <= i < |a| ==> Holds(table.value[i + 1], a[i])
  {
    AuditExportReads(a);
    HeaderIs();
    forall i | 0 <= i < |a| ensures Holds(ReadCsv(AuditCsv(a)).value[i + 1], a[i]) {
      CellsHoldTheEvent(a[i]);
    }
  }

  /** A cell is written as it is exactly when it holds no quote, comma or line feed; otherwise it stands in quotes. */
  lemma {:induction false} QuotedExactlyWhen(s: string)
    ensures EscapeText(s) == s <==> '"' !in s && ',' !in s && '\n' !in s
    ensures EscapeText(s) != s ==> |EscapeText(s)| >= |s| + 2 && EscapeText(s)[0] == '"' && EscapeText(s)[|EscapeText(s)| - 1] == '"'
  {
    DoublingNeverShortens(s);
  }

  lemma {:induction false} DoublingNeverShortens(s: string)
    ensures |DoubleQuotes(s)| >= |s|
  {
    if s != "" {
      DoublingNeverShortens(s[1..]);
    }
  }

  lemma {:induction false} ValuesTellTheEvent(e: AuditRow, f: AuditRow)
    requires Values(Cells(e)) == Values(Cells(f))
    ensures e.(metadata := Missing) == f.(metadata := Missing) && Normalized(e.metadata) == Normalized(f.metadata)
  {
    var v, w := Values(Cells(e)), Values(Cells(f));
    assert v[0] == w[0] && v[1] == w[1] && v[2] == w[2] && v[3] == w[3];
    assert v[4] == w[4] && v[5] == w[5] && v[6] == w[6] && v[7] == w[7];
  }

  /** Two audit exports with the same text list the same events, field by field. */
  lemma {:induction false} AuditExportIsFaithful(a: seq<AuditRow>, b: seq<AuditRow>)
    ensures AuditCsv(a) == AuditCsv(b) ==> |a| == |b| && forall i :: 0 <= i < |a| ==>
              a[i].(metadata := Missing) == b[i].(metadata := Missing) && Normalized(a[i].metadata) == Normalized(b[i].metadata)
  {
    if AuditCsv(a) == AuditCsv(b) {
      AuditExportReads(a);
      AuditExportReads(b);
      forall i | 0 <= i < |a|
        ensures a[i].(metadata := Missing) == b[i].(metadata := Missing) && Normalized(a[i].metadata) == Normalized(b[i].metadata)
      {
        ValuesTellTheEvent(a[i], b[i]);
      }
    }
  }
}
