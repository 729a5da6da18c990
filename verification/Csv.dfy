/** The CSV export of reports: free text is quoted, other cells are written as they are, and a reader
    following section 2 of RFC 4180 (with LF line breaks) gets the table back. */
module Csv {
  import opened Wrappers

  /** Free text goes through escapeCsv; identifiers, statuses, amounts and dates do not. */
  datatype Cell = Raw(text: string) | Escaped(text: string)

  type Table = seq<seq<Cell>>

  // ------------------------------------------------------------ printing

  function DoubledChar(c: char): string {
    if c == '"' then "\"\"" else [c]
  }

  function Doubled(s: string): string {
    if s == "" then "" else DoubledChar(s[0]) + Doubled(s[1..])
  }

  function EscapeCsv(field: string): string {
    if field == "" then "\"\"" else "\"" + Doubled(field) + "\""
  }

  function PrintCell(c: Cell): string {
    if c.Raw? then c.text else EscapeCsv(c.text)
  }

  function PrintRow(row: seq<Cell>): string
    requires row != []
  {
    if |row| == 1 then PrintCell(row[0]) else PrintCell(row[0]) + "," + PrintRow(row[1..])
  }

  predicate Printable(t: Table) {
    t != [] && forall i :: 0 <= i < |t| ==> t[i] != []
  }

  function Print(t: Table): string
    requires Printable(t)
  {
    if |t| == 1 then PrintRow(t[0]) else PrintRow(t[0]) + "\n" + Print(t[1..])
  }

  // ------------------------------------------------------------ reading

  datatype Mode = Start | Plain | Quoted | Closing

  /** The reader: rows and cells read so far, the cell being read, and where in it the reader is. */
  function ReadFrom(s: string, mode: Mode, cell: string, row: seq<string>,
                    rows: seq<seq<string>>): Option<seq<seq<string>>> {
    if s == "" then if mode == Quoted then None else Some(rows + [row + [cell]])
    else
      var c, rest := s[0], s[1..];
      if mode == Quoted then
        if c == '"' then ReadFrom(rest, Closing, cell, row, rows) else ReadFrom(rest, Quoted, cell + [c], row, rows)
      else if c == ',' then ReadFrom(rest, Start, "", row + [cell], rows)
      else if c == '\n' then ReadFrom(rest, Start, "", [], rows + [row + [cell]])
      else if c == '"' then
        match mode
        case Start => ReadFrom(rest, Quoted, "", row, rows)
        case Closing => ReadFrom(rest, Quoted, cell + [c], row, rows)
        case _ => None
      else if mode == Closing then None
      else ReadFrom(rest, Plain, cell + [c], row, rows)
  }

  function Read(s: string): Option<seq<seq<string>>> {
    ReadFrom(s, Start, "", [], [])
  }

  // ------------------------------------------------------------ round trip

  function Texts(row: seq<Cell>): seq<string> {
    seq(|row|, i requires 0 <= i < |row| => row[i].text)
  }

  function AllTexts(t: Table): seq<seq<string>> {
    seq(|t|, i requires 0 <= i < |t| => Texts(t[i]))
  }

  predicate Special(c: char) {
    c == ',' || c == '"' || c == '\n'
  }

  predicate Clean(s: string) {
    forall i :: 0 <= i < |s| ==> !Special(s[i])
  }

  predicate CleanCell(c: Cell) {
    c.Raw? ==> Clean(c.text)
  }

  predicate CleanTable(t: Table) {
    forall i :: 0 <= i < |t| ==> CleanRow(t[i])
  }

  predicate CleanRow(row: seq<Cell>) {
    forall j :: 0 <= j < |row| ==> CleanCell(row[j])
  }

  lemma {:induction false} ReadClean(s: string, tail: string, mode: Mode, cell: string, row: seq<string>,
                                     rows: seq<seq<string>>)
    requires Clean(s) && (mode == Start || mode == Plain) && (mode == Start ==> cell == "")
    ensures ReadFrom(s + tail, mode, cell, row, rows)
            == ReadFrom(tail, if s == "" then mode else Plain, cell + s, row, rows)
  {
    if s == "" {
      assert s + tail == tail && cell + s == cell;
    } else {
      assert (s + tail)[1..] == s[1..] + tail;
      assert cell + s == cell + [s[0]] + s[1..];
      ReadClean(s[1..], tail, Plain, cell + [s[0]], row, rows);
    }
  }

  lemma ReadDoubledChar(c: char, tail: string, cell: string, row: seq<string>, rows: seq<seq<string>>)
    ensures ReadFrom(DoubledChar(c) + tail, Quoted, cell, row, rows) == ReadFrom(tail, Quoted, cell + [c], row, rows)
  {
    if c == '"' {
      assert (DoubledChar(c) + tail)[1..] == ['"'] + tail;
      assert (['"'] + tail)[1..] == tail;
    } else {
      assert (DoubledChar(c) + tail)[1..] == tail;
    }
  }

  lemma {:induction false} ReadDoubled(s: string, tail: string, cell: string, row: seq<string>, rows: seq<seq<string>>)
    ensures ReadFrom(Doubled(s) + tail, Quoted, cell, row, rows) == ReadFrom(tail, Quoted, cell + s, row, rows)
  {
    if s == "" {
      assert Doubled(s) + tail == tail && cell + s == cell;
    } else {
      assert Doubled(s) + tail == DoubledChar(s[0]) + (Doubled(s[1..]) + tail);
      assert cell + s == cell + [s[0]] + s[1..];
      ReadDoubledChar(s[0], Doubled(s[1..]) + tail, cell, row, rows);
      ReadDoubled(s[1..], tail, cell + [s[0]], row, rows);
    }
  }

  lemma ReadEscaped(text: string, tail: string, row: seq<string>, rows: seq<seq<string>>)
    ensures ReadFrom(EscapeCsv(text) + tail, Start, "", row, rows) == ReadFrom(tail, Closing, text, row, rows)
  {
    var quote := ['"'];
    assert EscapeCsv(text) == quote + Doubled(text) + quote;
    Assoc(quote, Doubled(text), quote, tail);
    assert (quote + (Doubled(text) + (quote + tail)))[1..] == Doubled(text) + (quote + tail);
    ReadDoubled(text, quote + tail, "", row, rows);
    assert "" + text == text;
    assert (quote + tail)[1..] == tail;
  }

  lemma Assoc(a: string, b: string, c: string, d: string)
    ensures a + b + c + d == a + (b + (c + d))
  {
  }

  predicate EndsCell(tail: string) {
    tail == "" || tail[0] == ',' || tail[0] == '\n'
  }

  /** At the end of a cell it no longer matters how the cell was read. */
  lemma EndsAlike(tail: string, mode: Mode, cell: string, row: seq<string>, rows: seq<seq<string>>)
    requires EndsCell(tail) && mode != Quoted
    ensures ReadFrom(tail, mode, cell, row, rows) == ReadFrom(tail, Start, cell, row, rows)
  {
  }

  /** A printed cell is read as its text, and the reader then stands at the end of a cell. */
  lemma ReadCell(c: Cell, tail: string, row: seq<string>, rows: seq<seq<string>>)
    requires CleanCell(c) && EndsCell(tail)
    ensures ReadFrom(PrintCell(c) + tail, Start, "", row, rows) == ReadFrom(tail, Start, c.text, row, rows)
  {
    EndsAlike(tail, Plain, c.text, row, rows);
    EndsAlike(tail, Closing, c.text, row, rows);
    if c.Raw? {
      assert "" + c.text == c.text;
      ReadClean(c.text, tail, Start, "", row, rows);
    } else {
      ReadEscaped(c.text, tail, row, rows);
    }
  }

  /** What follows the first cell of a printed row. */
  function AfterFirst(cells: seq<Cell>, tail: string): string
    requires cells != []
  {
    if |cells| == 1 then tail else "," + (PrintRow(cells[1..]) + tail)
  }

  lemma RowOpens(cells: seq<Cell>, tail: string)
    requires cells != []
    ensures PrintRow(cells) + tail == PrintCell(cells[0]) + AfterFirst(cells, tail)
    ensures |cells| > 1 ==> AfterFirst(cells, tail)[1..] == PrintRow(cells[1..]) + tail
  {
    if |cells| > 1 {
      Assoc(PrintCell(cells[0]), ",", PrintRow(cells[1..]), tail);
    }
  }

  lemma TextsOpen(cells: seq<Cell>, row: seq<string>)
    requires cells != []
    ensures row + Texts(cells) == row + [cells[0].text] + Texts(cells[1..])
  {
  }

  lemma {:induction false} ReadRow(cells: seq<Cell>, tail: string, row: seq<string>, rows: seq<seq<string>>)
    requires cells != [] && CleanRow(cells) && (tail == "" || tail[0] == '\n')
    ensures ReadFrom(PrintRow(cells) + tail, Start, "", row, rows)
         == if tail == "" then Some(rows + [row + Texts(cells)])
             else ReadFrom(tail[1..], Start, "", [], rows + [row + Texts(cells)])
  {
    var c := cells[0];
    RowOpens(cells, tail);
    TextsOpen(cells, row);
    ReadCell(c, AfterFirst(cells, tail), row, rows);
    if |cells| == 1 {
      assert row + [c.text] + Texts([]) == row + [c.text];
    } else {
      ReadRow(cells[1..], tail, row + [c.text], rows);
    }
  }

  /** What follows the first row of a printed table. */
  function AfterRow(t: Table): string
    requires Printable(t)
  {
    if |t| == 1 then "" else "\n" + Print(t[1..])
  }

  lemma TableOpens(t: Table)
    requires Printable(t)
    ensures Print(t) == PrintRow(t[0]) + AfterRow(t)
  {
  }

  lemma AllTextsOpen(t: Table, rows: seq<seq<string>>)
    requires t != []
    ensures rows + AllTexts(t) == rows + [[] + Texts(t[0])] + AllTexts(t[1..])
  {
    assert [] + Texts(t[0]) == Texts(t[0]);
  }

  lemma {:induction false} ReadTable(t: Table, rows: seq<seq<string>>)
    requires Printable(t) && CleanTable(t)
    ensures ReadFrom(Print(t), Start, "", [], rows) == Some(rows + AllTexts(t))
  {
    TableOpens(t);
    AllTextsOpen(t, rows);
    ReadRow(t[0], AfterRow(t), [], rows);
    if |t| == 1 {
      assert AllTexts(t[1..]) == [];
      assert rows + [[] + Texts(t[0])] + [] == rows + [[] + Texts(t[0])];
    } else {
      assert AfterRow(t)[1..] == Print(t[1..]);
      ReadTable(t[1..], rows + [[] + Texts(t[0])]);
    }
  }

  // ------------------------------------------------------------ only clean raw cells survive

  /** Whatever follows, what was read stays read: the cell in hand can only grow. */
  lemma {:induction false} ReadKeeps(s: string, mode: Mode, cell: string, row: seq<string>, rows: seq<seq<string>>)
    requires mode == Start ==> cell == ""
    ensures var r := ReadFrom(s, mode, cell, row, rows);
            r.Some? ==> |rows| < |r.value| && |row| < |r.value[|rows|]| && cell <= r.value[|rows|][|row|]
                        && r.value[..|rows|] == rows && r.value[|rows|][..|row|] == row
  {
    if s != "" && ReadFrom(s, mode, cell, row, rows).Some? {
      var c, rest := s[0], s[1..];
      if mode == Quoted {
        ReadKeeps(rest, if c == '"' then Closing else Quoted, if c == '"' then cell else cell + [c], row, rows);
      } else if c == ',' {
        ReadKeeps(rest, Start, "", row + [cell], rows);
        var r := ReadFrom(rest, Start, "", row + [cell], rows).value;
        assert r[|rows|][..|row| + 1][|row|] == cell;
        assert r[|rows|][..|row|] == r[|rows|][..|row| + 1][..|row|];
      } else if c == '\n' {
        ReadKeeps(rest, Start, "", [], rows + [row + [cell]]);
        var r := ReadFrom(rest, Start, "", [], rows + [row + [cell]]).value;
        assert r[..|rows| + 1][|rows|] == row + [cell];
        assert r[..|rows|] == r[..|rows| + 1][..|rows|];
      } else if c == '"' {
        ReadKeeps(rest, Quoted, if mode == Start then "" else cell + [c], row, rows);
      } else {
        ReadKeeps(rest, Plain, cell + [c], row, rows);
      }
    }
  }

  /** The next cell is read as something else than x. */
  ghost predicate Misread(s: string, mode: Mode, cell: string, row: seq<string>, rows: seq<seq<string>>, x: string) {
    var r := ReadFrom(s, mode, cell, row, rows);
    r.Some? ==> |rows| < |r.value| && |row| < |r.value[|rows|]| && r.value[|rows|][|row|] != x
  }

  lemma MisreadByPrefix(s: string, mode: Mode, cell: string, row: seq<string>, rows: seq<seq<string>>, x: string)
    requires (mode == Start ==> cell == "") && !(cell <= x)
    ensures Misread(s, mode, cell, row, rows, x)
  {
    ReadKeeps(s, mode, cell, row, rows);
  }

  /** A cell that ends short of x is misread. */
  lemma MisreadByEnd(tail: string, mode: Mode, cell: string, row: seq<string>, rows: seq<seq<string>>, x: string)
    requires mode != Quoted && EndsCell(tail) && cell != x
    ensures Misread(tail, mode, cell, row, rows, x)
  {
    if tail != "" {
      if tail[0] == ',' {
        ReadKeeps(tail[1..], Start, "", row + [cell], rows);
        var r := ReadFrom(tail[1..], Start, "", row + [cell], rows);
        assert r.Some? ==> r.value[|rows|][..|row| + 1][|row|] == cell;
      } else {
        ReadKeeps(tail[1..], Start, "", [], rows + [row + [cell]]);
        var r := ReadFrom(tail[1..], Start, "", [], rows + [row + [cell]]);
        assert r.Some? ==> r.value[..|rows| + 1][|rows|] == row + [cell];
      }
    }
  }

  lemma DropHead(x: string, n: nat, tail: string)
    requires n < |x|
    ensures (x[n..] + tail)[0] == x[n] && (x[n..] + tail)[1..] == x[n + 1..] + tail
  {
  }

  lemma DropAll(x: string, n: nat, tail: string)
    requires n == |x|
    ensures x[n..] + tail == tail
  {
  }

  lemma NotPrefix(x: string, j: nat, c: char)
    requires j < |x| && x[j] != c
    ensures !(x[..j] + [c] <= x)
  {
    assert (x[..j] + [c])[j] != x[j];
  }

  /** A cell that opens with a quote would have to be all quotes, and then it is read as fewer of them. */
  lemma {:induction false} QuotesMisread(x: string, j: nat, tail: string, row: seq<string>, rows: seq<seq<string>>)
    requires 2 * j + 1 <= |x| && (forall k :: 0 <= k < 2 * j + 1 ==> x[k] == '"') && EndsCell(tail)
    ensures Misread(x[2 * j + 1..] + tail, Quoted, x[..j], row, rows, x)
    decreases |x| - j
  {
    var n := 2 * j + 1;
    if n == |x| {
      DropAll(x, n, tail);
      if tail != "" {
        NotPrefix(x, j, tail[0]);
        MisreadByPrefix(tail[1..], Quoted, x[..j] + [tail[0]], row, rows, x);
      }
    } else if x[n] != '"' {
      DropHead(x, n, tail);
      NotPrefix(x, j, x[n]);
      MisreadByPrefix(x[n + 1..] + tail, Quoted, x[..j] + [x[n]], row, rows, x);
    } else {
      DropHead(x, n, tail);
      ClosedMisread(x, j, tail, row, rows);
      if n + 1 < |x| && x[n + 1] == '"' {
        DropHead(x, n + 1, tail);
        assert x[..j] + ['"'] == x[..j + 1];
        QuotesMisread(x, j + 1, tail, row, rows);
      }
    }
  }

  /** After a closing quote the cell ends, or reading fails, unless another quote follows. */
  lemma ClosedMisread(x: string, j: nat, tail: string, row: seq<string>, rows: seq<seq<string>>)
    requires 2 * j + 2 <= |x| && EndsCell(tail)
    ensures (2 * j + 2 < |x| && x[2 * j + 2] == '"') || Misread(x[2 * j + 2..] + tail, Closing, x[..j], row, rows, x)
  {
    var n := 2 * j + 2;
    if n == |x| {
      DropAll(x, n, tail);
      MisreadByEnd(tail, Closing, x[..j], row, rows, x);
    } else {
      DropHead(x, n, tail);
      if EndsCell(x[n..] + tail) {
        MisreadByEnd(x[n..] + tail, Closing, x[..j], row, rows, x);
      }
    }
  }

  /** A raw cell with a comma, a quote or a line feed is never read as itself. */
  lemma {:induction false} DirtyMisread(x: string, i: nat, tail: string, row: seq<string>, rows: seq<seq<string>>)
    requires i <= |x| && Clean(x[..i]) && !Clean(x) && EndsCell(tail)
    ensures Misread(x[i..] + tail, if i == 0 then Start else Plain, x[..i], row, rows, x)
    decreases |x| - i
  {
    assert x[..|x|] == x;
    DropHead(x, i, tail);
    if !Special(x[i]) {
      assert x[..i + 1] == x[..i] + [x[i]];
      DirtyMisread(x, i + 1, tail, row, rows);
    } else if x[i] != '"' {
      MisreadByEnd(x[i..] + tail, if i == 0 then Start else Plain, x[..i], row, rows, x);
    } else if i == 0 {
      QuotesMisread(x, 0, tail, row, rows);
    }
  }

  lemma {:induction false} DirtyRow(cells: seq<Cell>, tail: string, row: seq<string>, rows: seq<seq<string>>)
    requires cells != [] && !CleanRow(cells) && (tail == "" || tail[0] == '\n')
    ensures var r := ReadFrom(PrintRow(cells) + tail, Start, "", row, rows);
            r.Some? ==> |rows| < |r.value| && r.value[|rows|] != row + Texts(cells)
  {
    var c, after := cells[0], AfterFirst(cells, tail);
    RowOpens(cells, tail);
    if !CleanCell(c) {
      DirtyMisread(c.text, 0, after, row, rows);
      assert c.text[0..] + after == PrintCell(c) + after;
      assert (row + Texts(cells))[|row|] == c.text;
    } else {
      ReadCell(c, after, row, rows);
      DirtyRow(cells[1..], tail, row + [c.text], rows);
      TextsOpen(cells, row);
    }
  }

  lemma {:induction false} DirtyTable(t: Table, rows: seq<seq<string>>)
    requires Printable(t) && !CleanTable(t)
    ensures ReadFrom(Print(t), Start, "", [], rows) != Some(rows + AllTexts(t))
  {
    TableOpens(t);
    AllTextsOpen(t, rows);
    if !CleanRow(t[0]) {
      DirtyRow(t[0], AfterRow(t), [], rows);
      assert (rows + [[] + Texts(t[0])] + AllTexts(t[1..]))[|rows|] == [] + Texts(t[0]);
    } else {
      ReadRow(t[0], AfterRow(t), [], rows);
      assert AfterRow(t)[1..] == Print(t[1..]);
      DirtyTable(t[1..], rows + [[] + Texts(t[0])]);
    }
  }

  /** The printed table is read back exactly if and only if no cell written as it is holds a comma, a
      quote or a line feed; escaped cells may hold anything. */
  lemma RoundTripIff(t: Table)
    requires Printable(t)
    ensures Read(Print(t)) == Some(AllTexts(t)) <==> CleanTable(t)
  {
    assert [] + AllTexts(t) == AllTexts(t);
    if CleanTable(t) {
      ReadTable(t, []);
    } else {
      DirtyTable(t, []);
    }
  }

  // ------------------------------------------------------------ the exports

  datatype BookingLine = BookingLine(
    id: string, customer: Option<string>, email: Option<string>, venue: Option<string>, facility: Option<string>,
    status: string, price: string, createdAt: string)

  datatype PayoutLine = PayoutLine(
    id: string, org: string, amount: string, status: string,
    provider: Option<string>, initiatedAt: Option<string>, completedAt: Option<string>)

  const BOOKING_HEADER :=
      ["Booking ID", "Customer Name", "Customer Email", "Venue", "Facility", "Status", "Total Price (INR)",
       "Created At"]

  const PAYOUT_HEADER :=
      ["Payout ID", "Organization ID", "Amount (INR)", "Status", "Provider", "Initiated At", "Completed At"]

  /** A missing or empty text is replaced. */
  function Or(s: Option<string>, fallback: string): string {
    if s.None? || s.value == "" then fallback else s.value
  }

  function AsWritten(texts: seq<string>): (row: seq<Cell>)
    ensures Texts(row) == texts
  {
    seq(|texts|, i requires 0 <= i < |texts| => Raw(texts[i]))
  }

  function BookingTexts(b: BookingLine): seq<string> {
    [b.id, Or(b.customer, "N/A"), Or(b.email, "N/A"), Or(b.venue, "N/A"), Or(b.facility, "N/A"), b.status, b.price,
     b.createdAt]
  }

  function PayoutTexts(p: PayoutLine): seq<string> {
    [p.id, p.org, p.amount, p.status, Or(p.provider, "MOCK"), Or(p.initiatedAt, "N/A"), Or(p.completedAt, "N/A")]
  }

  predicate CleanBooking(b: BookingLine) {
    Clean(b.id) && Clean(b.status) && Clean(b.price) && Clean(b.createdAt)
  }

  predicate CleanPayout(p: PayoutLine) {
    forall i :: 0 <= i < 7 ==> Clean(PayoutTexts(p)[i])
  }

  /** The eight columns of a booking; a missing or empty text reads N/A. */
  lemma BookingColumns(b: BookingLine)
    ensures var t := BookingTexts(b);
            && |t| == 8 && t[0] == b.id && t[5] == b.status && t[6] == b.price && t[7] == b.createdAt
            && t[1] == Shown(b.customer) && t[2] == Shown(b.email) && t[3] == Shown(b.venue)
            && t[4] == Shown(b.facility)
  {
  }

  /** The seven columns of a payout; a missing or empty provider reads MOCK, a missing date N/A. */
  lemma PayoutColumns(p: PayoutLine)
    ensures var t := PayoutTexts(p);
            && |t| == 7 && t[0] == p.id && t[1] == p.org && t[2] == p.amount && t[3] == p.status
            && t[4] == (if p.provider in {None, Some("")} then "MOCK" else p.provider.value)
            && t[5] == Shown(p.initiatedAt) && t[6] == Shown(p.completedAt)
  {
  }

  function Shown(s: Option<string>): string {
    match s
    case None => "N/A"
    case Some(text) => if |text| == 0 then "N/A" else text
  }

  /** The bookings report, read back, is the header and every booking, whatever its customer, venue or facility is
      called. */
  method ExportBookings(bookings: seq<BookingLine>) returns (csv: string)
    ensures Read(csv) == Some([BOOKING_HEADER]
                              + seq(|bookings|, i requires 0 <= i < |bookings| => BookingTexts(bookings[i])))
       <==> forall i :: 0 <= i < |bookings| ==> CleanBooking(bookings[i])
  {
    var rows: Table := [];
    for i := 0 to |bookings|
      invariant |rows| == i
      invariant forall k :: 0 <= k < i ==> rows[k] != [] && Texts(rows[k]) == BookingTexts(bookings[k])
      invariant forall k :: 0 <= k < i ==> (CleanRow(rows[k]) <==> CleanBooking(bookings[k]))
    {
      var b := bookings[i];
      var row := [Raw(b.id), Escaped(Or(b.customer, "N/A")), Escaped(Or(b.email, "N/A")), Escaped(Or(b.venue, "N/A")),
                  Escaped(Or(b.facility, "N/A")), Raw(b.status), Raw(b.price), Raw(b.createdAt)];
      BookingRowClean(b, row);
      rows := rows + [row];
    }
    assert AllTexts(rows) == seq(|bookings|, i requires 0 <= i < |bookings| => BookingTexts(bookings[i]));
    BookingHeaderClean();
    var table := [AsWritten(BOOKING_HEADER)] + rows;
    UnderHeader(BOOKING_HEADER, rows, table);
    csv := Print(table);
  }

  /** The payouts report writes all its cells as they are. */
  method ExportPayouts(payouts: seq<PayoutLine>) returns (csv: string)
    ensures Read(csv) == Some([PAYOUT_HEADER]
                              + seq(|payouts|, i requires 0 <= i < |payouts| => PayoutTexts(payouts[i])))
       <==> forall i :: 0 <= i < |payouts| ==> CleanPayout(payouts[i])
  {
    var rows: Table := [];
    for i := 0 to |payouts|
      invariant |rows| == i
      invariant forall k :: 0 <= k < i ==> rows[k] != [] && Texts(rows[k]) == PayoutTexts(payouts[k])
      invariant forall k :: 0 <= k < i ==> (CleanRow(rows[k]) <==> CleanPayout(payouts[k]))
    {
      var row := AsWritten(PayoutTexts(payouts[i]));
      WrittenClean(PayoutTexts(payouts[i]));
      rows := rows + [row];
    }
    assert AllTexts(rows) == seq(|payouts|, i requires 0 <= i < |payouts| => PayoutTexts(payouts[i]));
    PayoutHeaderClean();
    var table := [AsWritten(PAYOUT_HEADER)] + rows;
    UnderHeader(PAYOUT_HEADER, rows, table);
    csv := Print(table);
  }

  /** A clean header in front of a table changes nothing about its round trip. */
  lemma UnderHeader(header: seq<string>, rows: Table, t: Table)
    requires t == [AsWritten(header)] + rows && Printable(t) && CleanRow(AsWritten(header))
    ensures Read(Print(t)) == Some([header] + AllTexts(rows)) <==> CleanTable(rows)
  {
    assert AllTexts(t) == [header] + AllTexts(rows);
    CleanUnder(AsWritten(header), rows);
    RoundTripIff(t);
  }

  lemma CleanUnder(row: seq<Cell>, rows: Table)
    requires CleanRow(row)
    ensures CleanTable([row] + rows) <==> CleanTable(rows)
  {
    var t := [row] + rows;
    if CleanTable(t) {
      forall i | 0 <= i < |rows|
        ensures CleanRow(rows[i])
      {
        assert t[i + 1] == rows[i];
      }
    }
  }

  lemma WrittenClean(texts: seq<string>)
    ensures CleanRow(AsWritten(texts)) <==> forall i :: 0 <= i < |texts| ==> Clean(texts[i])
  {
    var row := AsWritten(texts);
    if CleanRow(row) {
      forall i | 0 <= i < |texts|
        ensures Clean(texts[i])
      {
        assert CleanCell(row[i]);
      }
    }
  }

  lemma BookingRowClean(b: BookingLine, row: seq<Cell>)
    requires row == [Raw(b.id), Escaped(Or(b.customer, "N/A")), Escaped(Or(b.email, "N/A")),
                     Escaped(Or(b.venue, "N/A")),
                     Escaped(Or(b.facility, "N/A")), Raw(b.status), Raw(b.price), Raw(b.createdAt)]
    ensures Texts(row) == BookingTexts(b) && (CleanRow(row) <==> CleanBooking(b))
  {
    if CleanRow(row) {
      assert CleanCell(row[0]) && CleanCell(row[5]) && CleanCell(row[6]) && CleanCell(row[7]);
    }
  }

  lemma BookingHeaderClean()
    ensures CleanRow(AsWritten(BOOKING_HEADER))
  {
    BookingHeaderStart();
    BookingHeaderEnd();
    WrittenClean(BOOKING_HEADER);
  }

  lemma BookingHeaderStart()
    ensures Clean("Booking ID") && Clean("Customer Name") && Clean("Customer Email") && Clean("Venue")
  {
  }

  lemma BookingHeaderEnd()
    ensures Clean("Facility") && Clean("Status") && Clean("Total Price (INR)") && Clean("Created At")
  {
  }

  lemma PayoutHeaderClean()
    ensures CleanRow(AsWritten(PAYOUT_HEADER))
  {
    PayoutHeaderStart();
    PayoutHeaderEnd();
    WrittenClean(PAYOUT_HEADER);
  }

  lemma PayoutHeaderStart()
    ensures Clean("Payout ID") && Clean("Organization ID") && Clean("Amount (INR)") && Clean("Status")
  {
  }

  lemma PayoutHeaderEnd()
    ensures Clean("Provider") && Clean("Initiated At") && Clean("Completed At")
  {
  }
}
