/**
 The session table of a managed device, one token list per line
 (src/aruba_session_tracker/parsers/datapath.py).

 Which texts are IPv4 addresses and which are counters is given by a `Lexer`; the parser only asks.
 */
module Datapath {
  import opened Wrappers
  import opened Digits

  datatype Lexer = Lexer(isIpv4: string -> bool, isCounter: string -> bool)

  const MAX_ROWS: nat := 20_000
  const INT31: nat := 0x7fff_ffff
  const INT63: nat := 0x7fff_ffff_ffff_ffff

  datatype ParseError =
    | Incomplete | BadHeader | BadPreamble | BadSeparator | DuplicateMarker | MarkerTooEarly | PromptBeforeMarker
    | TrailingData | CountTooLarge | UnrecognizedLine | LimitExceeded | Truncated | BadDestination | BadRow
    | DuplicateSession | NoCompletion | CountMismatch

  datatype Row = Row(
    sourceIp: string, destinationIp: string, protocol: nat, sourcePort: nat, destinationPort: nat, counter: string,
    priority: nat, tos: nat, age: nat, destination: seq<string>, tunnelAge: nat, packets: nat, bytes: nat,
    flags: string, cpu: nat)

  /** The part of a row that identifies its session on one controller. */
  datatype SessionKey = SessionKey(
    protocol: nat, sourceIp: string, destinationIp: string, sourcePort: nat, destinationPort: nat)

  function KeyOf(r: Row): SessionKey {
    SessionKey(r.protocol, r.sourceIp, r.destinationIp, r.sourcePort, r.destinationPort)
  }

  // ----- one row -----

  predicate IsDecimal(s: string) {
    s != "" && AllDigits(s)
  }

  /** `_bounded_decimal`. */
  function BoundedDecimal(s: string, maximum: nat): Option<nat> {
    if IsDecimal(s) && Value(s) <= maximum then Some(Value(s)) else None
  }

  predicate HexDigit(c: char) {
    IsDigit(c) || 'a' <= c <= 'f' || 'A' <= c <= 'F'
  }

  function HexValueOf(c: char): nat
    requires HexDigit(c)
  {
    if IsDigit(c) then DigitValue(c) else if 'a' <= c <= 'f' then (c - 'a') as int + 10 else (c - 'A') as int + 10
  }

  function HexValue(s: string): nat
    requires forall i :: 0 <= i < |s| ==> HexDigit(s[i])
  {
    if s == "" then 0 else 16 * HexValue(s[..|s| - 1]) + HexValueOf(s[|s| - 1])
  }

  predicate HexPrefixed(s: string) {
    |s| > 2 && s[0] == '0' && (s[1] == 'x' || s[1] == 'X')
  }

  /** `_mixed_nonnegative_int`: hexadecimal as soon as a letter shows it. */
  function MixedInt(s: string): Option<nat> {
    if IsDecimal(s) then Some(Value(s))
    else
      var body := if HexPrefixed(s) then s[2..] else s;
      if body != "" && forall i :: 0 <= i < |body| ==> HexDigit(body[i]) then Some(HexValue(body)) else None
  }

  /** `_parse_row`, for at least fourteen fields. The flags column is there unless the last but one field is a
      number. */
  function ParseRow(fields: seq<string>, lexer: Lexer): Result<Row, ParseError>
    requires |fields| >= 14
  {
    var cpu := |fields| - 1;
    var hasFlags := !IsDecimal(fields[cpu - 1]);
    var bytes := if hasFlags then cpu - 2 else cpu - 1;
    var tunnel := bytes - 2;
    var destination := fields[9..tunnel];
    if destination == [] then Err(BadRow)
    else
      var flags := if hasFlags && fields[cpu - 1] != "-" then fields[cpu - 1] else "";
      if !lexer.isCounter(fields[5]) then Err(BadRow)
      else
        var protocol, sport := BoundedDecimal(fields[2], 255), BoundedDecimal(fields[3], 65535);
        var dport, priority := BoundedDecimal(fields[4], 65535), BoundedDecimal(fields[6], INT31);
        var tos, age := BoundedDecimal(fields[7], 255), BoundedDecimal(fields[8], INT63);
        var tunnelAge, packets := MixedInt(fields[tunnel]), BoundedDecimal(fields[bytes - 1], INT63);
        var size, cpuId := BoundedDecimal(fields[bytes], INT63), BoundedDecimal(fields[cpu], INT31);
        if protocol.None? || sport.None? || dport.None? || priority.None? || tos.None? || age.None?
           || tunnelAge.None? || packets.None? || size.None? || cpuId.None? then Err(BadRow)
        else
          Ok(Row(fields[0], fields[1], protocol.value, sport.value, dport.value, fields[5], priority.value, tos.value,
                 age.value, destination, tunnelAge.value, packets.value, size.value, flags, cpuId.value))
  }

  // ----- printing a row -----

  /** How a row is printed: its flags as they are, as a dash, or not at all. */
  datatype FlagsColumn = Shown | Dash | Missing

  function PrintRow(r: Row, column: FlagsColumn): seq<string> {
    [r.sourceIp, r.destinationIp, Decimal(r.protocol), Decimal(r.sourcePort), Decimal(r.destinationPort), r.counter,
     Decimal(r.priority), Decimal(r.tos), Decimal(r.age)]
    + r.destination
    + [Decimal(r.tunnelAge), Decimal(r.packets), Decimal(r.bytes)]
    + (match column case Shown => [r.flags] case Dash => ["-"] case Missing => [])
    + [Decimal(r.cpu)]
  }

  /** A row that the table can show: flags are absent, or a text that is no number and no dash. */
  predicate Printable(r: Row, column: FlagsColumn, lexer: Lexer) {
    && lexer.isIpv4(r.sourceIp) && lexer.isIpv4(r.destinationIp) && lexer.isCounter(r.counter)
    && r.protocol <= 255 && r.sourcePort <= 65535 && r.destinationPort <= 65535 && r.priority <= INT31 && r.tos <= 255
    && r.age <= INT63 && r.packets <= INT63 && r.bytes <= INT63 && r.cpu <= INT31
    && r.destination != []
    && (if column.Shown? then r.flags != "" && r.flags != "-" && !AllDigits(r.flags) else r.flags == "")
  }

  lemma DecimalReads(n: nat, maximum: nat)
    requires n <= maximum
    ensures BoundedDecimal(Decimal(n), maximum) == Some(n) && MixedInt(Decimal(n)) == Some(n) && IsDecimal(Decimal(n))
  {
    ValueOfDecimal(n);
  }

  /** Where the columns of a printed row are. */
  lemma PrintedColumns(r: Row, column: FlagsColumn)
    ensures var f, n := PrintRow(r, column), |r.destination|;
            && |f| == 13 + n + (if column.Missing? then 0 else 1)
            && f[0] == r.sourceIp && f[1] == r.destinationIp && f[2] == Decimal(r.protocol)
            && f[3] == Decimal(r.sourcePort) && f[4] == Decimal(r.destinationPort) && f[5] == r.counter
            && f[6] == Decimal(r.priority) && f[7] == Decimal(r.tos) && f[8] == Decimal(r.age)
            && f[9..9 + n] == r.destination
            && f[9 + n] == Decimal(r.tunnelAge) && f[10 + n] == Decimal(r.packets) && f[11 + n] == Decimal(r.bytes)
            && f[|f| - 1] == Decimal(r.cpu)
            && (column.Shown? ==> f[12 + n] == r.flags) && (column.Dash? ==> f[12 + n] == "-")
  {
  }

  /** Printing a row and parsing it gives the row back, however its flags column is shown. */
  lemma RowRoundTrip(r: Row, column: FlagsColumn, lexer: Lexer)
    requires Printable(r, column, lexer)
    ensures |PrintRow(r, column)| >= 14 && ParseRow(PrintRow(r, column), lexer) == Ok(r)
  {
    PrintedColumns(r, column);
    DecimalReads(r.protocol, 255);
    DecimalReads(r.sourcePort, 65535);
    DecimalReads(r.destinationPort, 65535);
    DecimalReads(r.priority, INT31);
    DecimalReads(r.tos, 255);
    DecimalReads(r.age, INT63);
    DecimalReads(r.tunnelAge, r.tunnelAge);
    DecimalReads(r.packets, INT63);
    DecimalReads(r.bytes, INT63);
    DecimalReads(r.cpu, INT31);
    assert !AllDigits("-") by {
      assert "-"[0] == '-';
    }
  }

  /** Nothing is guessed: a row that is accepted has every column where the header says, and only the flags column
      may be missing. */
  lemma AcceptedRowColumns(fields: seq<string>, lexer: Lexer)
    requires |fields| >= 14 && ParseRow(fields, lexer).Ok?
    ensures var r := ParseRow(fields, lexer).value;
            var n := |r.destination|;
            && n >= 1 && fields[9..9 + n] == r.destination
            && |fields| == 13 + n + (if IsDecimal(fields[|fields| - 2]) then 0 else 1)
            && IsDecimal(fields[2]) && Value(fields[2]) == r.protocol
            && IsDecimal(fields[8]) && Value(fields[8]) == r.age
            && MixedInt(fields[9 + n]) == Some(r.tunnelAge)
            && IsDecimal(fields[10 + n]) && Value(fields[10 + n]) == r.packets
            && IsDecimal(fields[11 + n]) && Value(fields[11 + n]) == r.bytes
            && (r.flags != "" ==> fields[12 + n] == r.flags)
  {
  }

  // ----- the table -----

  /** A line of the output. A column separator is also a line of dashes. */
  datatype Line =
    | Blank | TableStart | Header | ColumnSeparator | Dashes | LegendStart | LegendMore
    | Entries(count: string) | Prompt | Fields(tokens: seq<string>)

  predicate WellFormedLine(l: Line) {
    l.Entries? ==> IsDecimal(l.count)
  }

  /** The position of the first line of a kind, or the length. */
  function FirstStart(lines: seq<Line>): (i: nat)
    ensures i <= |lines|
  {
    if lines == [] || lines[0].TableStart? then 0 else 1 + FirstStart(lines[1..])
  }

  function EntriesAt(lines: seq<Line>, from: nat): seq<nat>
    decreases |lines| - from
  {
    if from >= |lines| then []
    else (if lines[from].Entries? then [from] else []) + EntriesAt(lines, from + 1)
  }

  function PromptsAt(lines: seq<Line>, from: nat): seq<nat>
    decreases |lines| - from
  {
    if from >= |lines| then []
    else (if lines[from].Prompt? then [from] else []) + PromptsAt(lines, from + 1)
  }

  function NonBlank(lines: seq<Line>): seq<Line> {
    if lines == [] then [] else (if lines[0].Blank? then [] else [lines[0]]) + NonBlank(lines[1..])
  }

  predicate AnyPrompt(lines: seq<Line>) {
    exists i :: 0 <= i < |lines| && lines[i].Prompt?
  }

  lemma {:induction false} EntriesAtSound(lines: seq<Line>, from: nat)
    ensures forall e :: e in EntriesAt(lines, from) <==> from <= e < |lines| && lines[e].Entries?
    decreases |lines| - from
  {
    if from < |lines| {
      EntriesAtSound(lines, from + 1);
    }
  }

  lemma {:induction false} PromptsAtSound(lines: seq<Line>, from: nat)
    ensures forall e :: e in PromptsAt(lines, from) <==> from <= e < |lines| && lines[e].Prompt?
    decreases |lines| - from
  {
    if from < |lines| {
      PromptsAtSound(lines, from + 1);
    }
  }

  /** Where the rows end, and how many there should be. */
  datatype Completion = Completion(end: nat, declared: Option<nat>)

  /** `_completion_boundary`; `start` is the line of the table title. */
  function CompletionBoundary(lines: seq<Line>, start: nat, limit: nat): Result<Option<Completion>, ParseError>
    requires start < |lines| && AllWellFormed(lines)
  {
    EntriesAtSound(lines, 0);
    PromptsAtSound(lines, 0);
    var markers, prompts := EntriesAt(lines, 0), PromptsAt(lines, 0);
    if |markers| > 1 then Err(DuplicateMarker)
    else if |markers| == 1 then
      var at := markers[0];
      assert at in markers;
      if at < start then Err(MarkerTooEarly)
      else if AnyPrompt(lines[start..at]) then Err(PromptBeforeMarker)
      else
        var trailing := NonBlank(lines[at + 1..]);
        if trailing != [] && !(|trailing| == 1 && trailing[0].Prompt?) then Err(TrailingData)
        else
          assert WellFormedLine(lines[at]);
          var count := BoundedCount(lines[at].count, limit);
          if count.None? then Err(CountTooLarge) else Ok(Some(Completion(at, count)))
    else if |prompts| == 1 then
      assert prompts[0] in prompts;
      if NonBlank(lines[prompts[0] + 1..]) == [] && prompts[0] > start then Ok(Some(Completion(prompts[0], None)))
      else Ok(None)
    else Ok(None)
  }

  function CountHeaders(lines: seq<Line>): nat {
    if lines == [] then 0 else (if lines[0].Header? then 1 else 0) + CountHeaders(lines[1..])
  }

  function HeaderAt(lines: seq<Line>): (i: nat)
    ensures i <= |lines|
  {
    if lines == [] || lines[0].Header? then 0 else 1 + HeaderAt(lines[1..])
  }

  /** The lines before the header: blanks, dashes, and one flag legend. */
  predicate PreambleFrom(lines: seq<Line>, inLegend: bool, sawLegend: bool) {
    if lines == [] then true
    else
      match lines[0]
      case Blank => PreambleFrom(lines[1..], false, sawLegend)
      case Dashes => !inLegend && PreambleFrom(lines[1..], inLegend, sawLegend)
      case ColumnSeparator => !inLegend && PreambleFrom(lines[1..], inLegend, sawLegend)
      case LegendStart => !sawLegend && PreambleFrom(lines[1..], true, true)
      case LegendMore => inLegend && PreambleFrom(lines[1..], inLegend, sawLegend)
      case _ => false
  }

  function SkipBlanks(lines: seq<Line>): (r: seq<Line>)
    ensures |r| <= |lines|
  {
    if lines != [] && lines[0].Blank? then SkipBlanks(lines[1..]) else lines
  }

  /** `_validated_table_data_lines`. */
  function DataLines(region: seq<Line>): Result<seq<Line>, ParseError> {
    if CountHeaders(region) != 1 then Err(BadHeader)
    else
      var header := HeaderAt(region);
      if header >= |region| then Err(BadHeader)
      else if !PreambleFrom(region[..header], false, false) then Err(BadPreamble)
      else
        var after := SkipBlanks(region[header + 1..]);
        if after == [] || !after[0].ColumnSeparator? then Err(BadSeparator) else Ok(after[1..])
  }

  /** One data line: nothing, a row, or the reason why the table is refused. */
  function ReadLine(line: Line, lexer: Lexer): Result<Option<Row>, ParseError> {
    if line.Blank? then Ok(None)
    else if !line.Fields? || line.tokens == [] || !lexer.isIpv4(line.tokens[0]) then Err(UnrecognizedLine)
    else if |line.tokens| < 14 then Err(Truncated)
    else if !lexer.isIpv4(line.tokens[1]) then Err(BadDestination)
    else
      var r := ParseRow(line.tokens, lexer);
      if r.Err? then Err(r.error) else Ok(Some(r.value))
  }

  predicate HasSession(rows: seq<Row>, k: SessionKey) {
    exists i :: 0 <= i < |rows| && KeyOf(rows[i]) == k
  }

  /** The rows of the data lines; the limit is looked at before a line is read. */
  function ReadRows(data: seq<Line>, limit: nat, lexer: Lexer): Result<seq<Row>, ParseError> {
    if data == [] then Ok([])
    else
      var before := ReadRows(data[..|data| - 1], limit, lexer);
      if before.Err? then before else NextRow(before.value, data[|data| - 1], limit, lexer)
  }

  function NextRow(rows: seq<Row>, line: Line, limit: nat, lexer: Lexer): Result<seq<Row>, ParseError> {
    if line.Blank? then Ok(rows)
    else if !line.Fields? || line.tokens == [] || !lexer.isIpv4(line.tokens[0]) then Err(UnrecognizedLine)
    else if |rows| >= limit then Err(LimitExceeded)
    else
      var r := ReadLine(line, lexer);
      if r.Err? then Err(r.error)
      else if r.value.None? then Ok(rows)
      else if HasSession(rows, KeyOf(r.value.value)) then Err(DuplicateSession)
      else Ok(rows + [r.value.value])
  }

  function LimitOf(maximum: Option<nat>): nat {
    if maximum.Some? && maximum.value < MAX_ROWS then maximum.value else MAX_ROWS
  }

  /** `parse_datapath_sessions`. */
  function Parsed(lines: seq<Line>, maximum: Option<nat>, lexer: Lexer): Result<seq<Row>, ParseError>
    requires AllWellFormed(lines)
  {
    var start, limit := FirstStart(lines), LimitOf(maximum);
    if start == |lines| then Err(Incomplete)
    else
      var boundary := CompletionBoundary(lines, start, limit);
      if boundary.Err? then Err(boundary.error)
      else
        var data := DataLines(Region(lines, start, boundary.value));
        if data.Err? then Err(data.error)
        else Counted(ReadRows(data.value, limit, lexer), boundary.value)
  }

  /** The lines between the title and the completion marker. */
  function Region(lines: seq<Line>, start: nat, boundary: Option<Completion>): seq<Line> {
    var end := if boundary.Some? then boundary.value.end else |lines|;
    if start + 1 <= end <= |lines| then lines[start + 1..end] else []
  }

  /** The rows, if there was a marker and it declares their number or none. */
  function Counted(rows: Result<seq<Row>, ParseError>, boundary: Option<Completion>): Result<seq<Row>, ParseError> {
    if rows.Err? then rows
    else if boundary.None? then Err(NoCompletion)
    else if boundary.value.declared.Some? && |rows.value| != boundary.value.declared.value then Err(CountMismatch)
    else rows
  }

  predicate DistinctSessions(rows: seq<Row>) {
    forall i, j :: 0 <= i < j < |rows| ==> KeyOf(rows[i]) != KeyOf(rows[j])
  }

  function SessionsOf(rows: seq<Row>): set<SessionKey> {
    set i | 0 <= i < |rows| :: KeyOf(rows[i])
  }

  /** One turn of the loop over the data lines. */
  method ReadNext(rows: seq<Row>, seen: set<SessionKey>, line: Line, limit: nat, lexer: Lexer)
    returns (r: Result<Option<Row>, ParseError>)
    requires seen == SessionsOf(rows)
    ensures match r
            case Err(e) => NextRow(rows, line, limit, lexer) == Err(e)
            case Ok(None) => NextRow(rows, line, limit, lexer) == Ok(rows)
            case Ok(Some(row)) =>
              NextRow(rows, line, limit, lexer) == Ok(rows + [row]) && KeyOf(row) !in seen && |rows| < limit
  {
    if line.Blank? {
      return Ok(None);
    }
    if !line.Fields? || line.tokens == [] || !lexer.isIpv4(line.tokens[0]) {
      return Err(UnrecognizedLine);
    }
    if |rows| >= limit {
      return Err(LimitExceeded);
    }
    var row := ReadLine(line, lexer);
    if row.Err? {
      return Err(row.error);
    }
    assert HasSession(rows, KeyOf(row.value.value)) <==> KeyOf(row.value.value) in seen;
    if KeyOf(row.value.value) in seen {
      return Err(DuplicateSession);
    }
    r := row;
  }

  /** The loop over the data lines. */
  method ReadTable(data: seq<Line>, limit: nat, lexer: Lexer) returns (r: Result<seq<Row>, ParseError>)
    ensures r == ReadRows(data, limit, lexer)
    ensures r.Ok? ==> DistinctSessions(r.value) && |r.value| <= limit
  {
    var observations: seq<Row> := [];
    var seen: set<SessionKey> := {};
    for i := 0 to |data|
      invariant ReadRows(data[..i], limit, lexer) == Ok(observations)
      invariant seen == SessionsOf(observations)
      invariant DistinctSessions(observations) && |observations| <= limit
    {
      assert data[..i + 1][..i] == data[..i];
      var next := ReadNext(observations, seen, data[i], limit, lexer);
      if next.Err? {
        ReadRowsFails(data, i + 1, limit, lexer);
        return Err(next.error);
      }
      if next.value.Some? {
        SessionsSnoc(observations, next.value.value);
        seen := seen + {KeyOf(next.value.value)};
        observations := observations + [next.value.value];
      }
    }
    assert data[..|data|] == data;
    r := Ok(observations);
  }

  lemma SessionsSnoc(rows: seq<Row>, row: Row)
    ensures SessionsOf(rows + [row]) == SessionsOf(rows) + {KeyOf(row)}
    ensures DistinctSessions(rows) && KeyOf(row) !in SessionsOf(rows) ==> DistinctSessions(rows + [row])
  {
    var more := rows + [row];
    assert more[|rows|] == row;
    assert forall i :: 0 <= i < |rows| ==> more[i] == rows[i];
    forall k | k in SessionsOf(rows) ensures k in SessionsOf(more) {
      var i :| 0 <= i < |rows| && KeyOf(rows[i]) == k;
      assert KeyOf(more[i]) == k;
    }
  }

  /** An error in the first lines is the error of the table. */
  lemma {:induction false} ReadRowsFails(data: seq<Line>, n: nat, limit: nat, lexer: Lexer)
    requires n <= |data| && ReadRows(data[..n], limit, lexer).Err?
    ensures ReadRows(data, limit, lexer) == ReadRows(data[..n], limit, lexer)
    decreases |data|
  {
    if n == |data| {
      assert data[..n] == data;
    } else {
      assert data[..|data| - 1][..n] == data[..n];
      ReadRowsFails(data[..|data| - 1], n, limit, lexer);
    }
  }

  /** `parse_datapath_sessions`, with its loop. */
  method ParseSessions(lines: seq<Line>, maximum: Option<nat>, lexer: Lexer) returns (r: Result<seq<Row>, ParseError>)
    requires AllWellFormed(lines)
    ensures r == Parsed(lines, maximum, lexer)
    ensures r.Ok? ==> DistinctSessions(r.value) && |r.value| <= LimitOf(maximum)
  {
    var start, limit := FirstStart(lines), LimitOf(maximum);
    if start == |lines| {
      return Err(Incomplete);
    }
    var boundary := CompletionBoundary(lines, start, limit);
    if boundary.Err? {
      return Err(boundary.error);
    }
    var data := DataLines(Region(lines, start, boundary.value));
    if data.Err? {
      return Err(data.error);
    }
    var rows := ReadTable(data.value, limit, lexer);
    if rows.Err? {
      return rows;
    }
    if boundary.value.None? {
      return Err(NoCompletion);
    }
    var declared := boundary.value.value.declared;
    if declared.Some? && |rows.value| != declared.value {
      return Err(CountMismatch);
    }
    r := rows;
  }

  // ----- printing a table -----

  datatype PrintedRow = PrintedRow(row: Row, column: FlagsColumn)

  function RowLines(rows: seq<PrintedRow>): (lines: seq<Line>)
    ensures |lines| == |rows| && AllFields(lines)
  {
    seq(|rows|, i requires 0 <= i < |rows| => Fields(PrintRow(rows[i].row, rows[i].column)))
  }

  function RowsOf(printed: seq<PrintedRow>): (rows: seq<Row>)
    ensures |rows| == |printed| && forall i :: 0 <= i < |printed| ==> rows[i] == printed[i].row
  {
    seq(|printed|, i requires 0 <= i < |printed| => printed[i].row)
  }

  predicate AllFields(lines: seq<Line>) {
    forall i :: 0 <= i < |lines| ==> lines[i].Fields?
  }

  /** Title, header, separator, the rows, and a footer that declares `count` entries. */
  function Framed(body: seq<Line>, count: nat): seq<Line> {
    [TableStart, Header, ColumnSeparator] + body + [Entries(Decimal(count))]
  }

  function PrintTable(rows: seq<PrintedRow>, count: nat): seq<Line> {
    Framed(RowLines(rows), count)
  }

  predicate AllPrintable(rows: seq<PrintedRow>, lexer: Lexer) {
    forall i :: 0 <= i < |rows| ==> Printable(rows[i].row, rows[i].column, lexer)
  }

  predicate AllWellFormed(lines: seq<Line>) {
    forall i :: 0 <= i < |lines| ==> WellFormedLine(lines[i])
  }

  lemma FramedLines(body: seq<Line>, count: nat)
    requires AllFields(body)
    ensures var t := Framed(body, count);
            && |t| == |body| + 4 && AllWellFormed(t) && FirstStart(t) == 0
            && t[1..|body| + 3] == [Header, ColumnSeparator] + body
            && t[|body| + 3] == Entries(Decimal(count)) && t[|body| + 4..] == []
            && (forall i :: 0 <= i < |body| + 3 ==> !t[i].Entries? && !t[i].Prompt?)
  {
    var t := Framed(body, count);
    assert t == [TableStart] + ([Header, ColumnSeparator] + body) + [Entries(Decimal(count))];
    forall i | 0 <= i < |t| ensures WellFormedLine(t[i]) && (i < |body| + 3 ==> !t[i].Entries? && !t[i].Prompt?) {
      if 3 <= i < |body| + 3 {
        assert t[i] == body[i - 3];
      }
    }
  }

  lemma {:induction false} NoMarker(lines: seq<Line>, from: nat)
    requires forall i :: from <= i < |lines| ==> !lines[i].Entries?
    ensures EntriesAt(lines, from) == []
    decreases |lines| - from
  {
    if from < |lines| {
      NoMarker(lines, from + 1);
    }
  }

  lemma {:induction false} OneMarker(lines: seq<Line>, from: nat, at: nat)
    requires from <= at < |lines| && lines[at].Entries?
    requires forall i :: 0 <= i < |lines| && i != at ==> !lines[i].Entries?
    ensures EntriesAt(lines, from) == [at]
    decreases at - from
  {
    if from < at {
      OneMarker(lines, from + 1, at);
    } else {
      NoMarker(lines, from + 1);
    }
  }

  lemma {:induction false} NoHeaders(body: seq<Line>)
    requires AllFields(body)
    ensures CountHeaders(body) == 0
  {
    if body != [] {
      NoHeaders(body[1..]);
    }
  }

  lemma RegionData(body: seq<Line>)
    requires AllFields(body)
    ensures DataLines([Header, ColumnSeparator] + body) == Ok(body)
  {
    var region := [Header, ColumnSeparator] + body;
    NoHeaders(body);
    assert region[1..] == [ColumnSeparator] + body;
    assert region[1..][1..] == body;
    assert CountHeaders(region) == 1 + CountHeaders(region[1..]);
    assert region[..0] == [];
  }

  lemma PrintedRowNext(rows: seq<Row>, p: PrintedRow, limit: nat, lexer: Lexer)
    requires Printable(p.row, p.column, lexer) && !HasSession(rows, KeyOf(p.row)) && |rows| < limit
    ensures NextRow(rows, Fields(PrintRow(p.row, p.column)), limit, lexer) == Ok(rows + [p.row])
  {
    RowRoundTrip(p.row, p.column, lexer);
    PrintedColumns(p.row, p.column);
  }

  lemma RowLinesSnoc(rows: seq<PrintedRow>, p: PrintedRow)
    ensures RowLines(rows + [p]) == RowLines(rows) + [Fields(PrintRow(p.row, p.column))]
    ensures RowsOf(rows + [p]) == RowsOf(rows) + [p.row]
  {
  }

  lemma ReadRowsSnoc(data: seq<Line>, line: Line, limit: nat, lexer: Lexer)
    ensures ReadRows(data + [line], limit, lexer)
            == if ReadRows(data, limit, lexer).Err? then ReadRows(data, limit, lexer)
               else NextRow(ReadRows(data, limit, lexer).value, line, limit, lexer)
  {
    assert (data + [line])[..|data|] == data;
  }

  lemma DistinctInit(rows: seq<Row>, row: Row)
    requires DistinctSessions(rows + [row])
    ensures DistinctSessions(rows) && !HasSession(rows, KeyOf(row))
  {
    var more := rows + [row];
    assert more[|rows|] == row;
    assert forall i :: 0 <= i < |rows| ==> more[i] == rows[i];
  }

  /** The printed rows are read back as long as there is room for them. */
  lemma {:induction false} PrintedRowsRead(rows: seq<PrintedRow>, limit: nat, lexer: Lexer)
    requires AllPrintable(rows, lexer) && DistinctSessions(RowsOf(rows)) && |rows| <= limit
    ensures ReadRows(RowLines(rows), limit, lexer) == Ok(RowsOf(rows))
  {
    if rows == [] {
      assert RowLines(rows) == [] && RowsOf(rows) == [];
    } else {
      var init, last := rows[..|rows| - 1], rows[|rows| - 1];
      assert rows == init + [last];
      RowLinesSnoc(init, last);
      DistinctInit(RowsOf(init), last.row);
      PrintedRowsRead(init, limit, lexer);
      PrintedRowNext(RowsOf(init), last, limit, lexer);
      ReadRowsSnoc(RowLines(init), Fields(PrintRow(last.row, last.column)), limit, lexer);
    }
  }

  lemma FramedBoundary(body: seq<Line>, count: nat, limit: nat)
    requires AllFields(body)
    ensures var t := Framed(body, count);
            && |t| > 0 && AllWellFormed(t)
            && CompletionBoundary(t, 0, limit)
               == if count <= limit then Ok(Some(Completion(|body| + 3, Some(count)))) else Err(CountTooLarge)
  {
    var t := Framed(body, count);
    FramedLines(body, count);
    OneMarker(t, 0, |body| + 3);
    BoundedCountIff(Decimal(count), limit);
    ValueOfDecimal(count);
    assert !AnyPrompt(t[0..|body| + 3]);
  }

  /** The parser on a framed body: the footer is compared with the rows that the body holds. */
  lemma FramedParses(body: seq<Line>, count: nat, maximum: Option<nat>, lexer: Lexer)
    requires AllFields(body)
    ensures AllWellFormed(Framed(body, count))
    ensures var rows := ReadRows(body, LimitOf(maximum), lexer);
            Parsed(Framed(body, count), maximum, lexer)
            == if count > LimitOf(maximum) then Err(CountTooLarge)
               else if rows.Err? then rows
               else if |rows.value| != count then Err(CountMismatch)
               else rows
  {
    FramedLines(body, count);
    FramedBoundary(body, count, LimitOf(maximum));
    RegionData(body);
  }

  /** What the parser makes of a printed table, whatever its footer declares. */
  lemma PrintedTableParses(rows: seq<PrintedRow>, count: nat, maximum: Option<nat>, lexer: Lexer)
    requires AllPrintable(rows, lexer) && DistinctSessions(RowsOf(rows)) && |rows| <= LimitOf(maximum)
    ensures AllWellFormed(PrintTable(rows, count))
    ensures Parsed(PrintTable(rows, count), maximum, lexer)
            == if count > LimitOf(maximum) then Err(CountTooLarge)
               else if count != |rows| then Err(CountMismatch)
               else Ok(RowsOf(rows))
  {
    FramedParses(RowLines(rows), count, maximum, lexer);
    PrintedRowsRead(rows, LimitOf(maximum), lexer);
  }

  /** Printing a list of rows with different sessions and parsing the table gives the rows back. */
  lemma TableRoundTrip(rows: seq<PrintedRow>, maximum: Option<nat>, lexer: Lexer)
    requires AllPrintable(rows, lexer) && DistinctSessions(RowsOf(rows)) && |rows| <= LimitOf(maximum)
    ensures AllWellFormed(PrintTable(rows, |rows|))
    ensures Parsed(PrintTable(rows, |rows|), maximum, lexer) == Ok(RowsOf(rows))
  {
    PrintedTableParses(rows, |rows|, maximum, lexer);
  }

  lemma BoundaryDeclares(lines: seq<Line>, start: nat, limit: nat, at: nat)
    requires start < |lines| && AllWellFormed(lines) && at < |lines| && lines[at].Entries?
    requires CompletionBoundary(lines, start, limit).Ok?
    ensures WellFormedLine(lines[at])
    ensures CompletionBoundary(lines, start, limit).value == Some(Completion(at, Some(Value(lines[at].count))))
  {
    SoleMarker(lines, at);
    assert WellFormedLine(lines[at]);
    BoundedCountIff(lines[at].count, limit);
  }

  /** An accepted table never has another number of rows than its footer declares. */
  lemma CountIsKept(lines: seq<Line>, maximum: Option<nat>, lexer: Lexer, at: nat)
    requires AllWellFormed(lines) && at < |lines| && lines[at].Entries? && Parsed(lines, maximum, lexer).Ok?
    ensures WellFormedLine(lines[at]) && |Parsed(lines, maximum, lexer).value| == Value(lines[at].count)
  {
    BoundaryDeclares(lines, FirstStart(lines), LimitOf(maximum), at);
  }

  // ----- truncation -----

  function Without<T>(s: seq<T>, i: nat): (r: seq<T>)
    requires i < |s|
    ensures |r| == |s| - 1 && forall j :: 0 <= j < |r| ==> r[j] == s[if j < i then j else j + 1]
  {
    s[..i] + s[i + 1..]
  }

  lemma {:induction false} FirstStartIs(lines: seq<Line>, start: nat)
    requires start < |lines| && lines[start].TableStart?
    requires forall i :: 0 <= i < start ==> !lines[i].TableStart?
    ensures FirstStart(lines) == start
  {
    if start > 0 {
      FirstStartIs(lines[1..], start - 1);
    }
  }

  lemma {:induction false} FirstStartSound(lines: seq<Line>)
    ensures var start := FirstStart(lines);
            && (start < |lines| ==> lines[start].TableStart?)
            && forall i :: 0 <= i < start ==> !lines[i].TableStart?
  {
    if lines != [] && !lines[0].TableStart? {
      FirstStartSound(lines[1..]);
      forall i | 0 <= i < FirstStart(lines) ensures !lines[i].TableStart? {
        assert i > 0 ==> lines[i] == lines[1..][i - 1];
      }
    }
  }

  lemma StartKept(lines: seq<Line>, i: nat)
    requires FirstStart(lines) < i < |lines|
    ensures FirstStart(Without(lines, i)) == FirstStart(lines)
  {
    FirstStartSound(lines);
    FirstStartIs(Without(lines, i), FirstStart(lines));
  }

  /** Nothing but blank lines and perhaps a prompt. */
  predicate Trails(lines: seq<Line>) {
    var trailing := NonBlank(lines);
    trailing == [] || (|trailing| == 1 && trailing[0].Prompt?)
  }

  /** There is either more than one marker or only this one. */
  lemma SoleMarker(lines: seq<Line>, at: nat)
    requires at < |lines| && lines[at].Entries?
    ensures |EntriesAt(lines, 0)| > 1 || EntriesAt(lines, 0) == [at]
  {
    EntriesAtSound(lines, 0);
    assert at in EntriesAt(lines, 0);
  }

  /** Where an accepted footer stands. */
  lemma FooterStands(lines: seq<Line>, start: nat, limit: nat, at: nat)
    requires AllWellFormed(lines) && start < |lines| && at < |lines| && lines[at].Entries?
    requires CompletionBoundary(lines, start, limit).Ok?
    ensures EntriesAt(lines, 0) == [at] && start <= at && !AnyPrompt(lines[start..at]) && Trails(lines[at + 1..])
    ensures WellFormedLine(lines[at]) && BoundedCount(lines[at].count, limit).Some?
  {
    SoleMarker(lines, at);
    assert WellFormedLine(lines[at]);
  }

  lemma FooterCounts(l: Line, limit: nat)
    requires l.Entries? && WellFormedLine(l) && BoundedCount(l.count, limit).Some?
    ensures BoundedCount(l.count, limit) == Some(Value(l.count))
  {
    BoundedCountIff(l.count, limit);
  }

  lemma FooterAt(lines: seq<Line>, start: nat, limit: nat, end: nat, count: nat)
    requires AllWellFormed(lines) && start <= end < |lines| && lines[end].Entries? && WellFormedLine(lines[end])
    requires EntriesAt(lines, 0) == [end] && !AnyPrompt(lines[start..end]) && Trails(lines[end + 1..])
    requires BoundedCount(lines[end].count, limit) == Some(count)
    ensures CompletionBoundary(lines, start, limit) == Ok(Some(Completion(end, Some(count))))
  {
  }

  /** The footer moves up by a line. */
  lemma BoundaryMoves(lines: seq<Line>, start: nat, limit: nat, at: nat, end: nat, i: nat)
    requires AllWellFormed(lines) && start < i < at < |lines| && lines[at].Entries? && end + 1 == at
    requires CompletionBoundary(lines, start, limit).Ok?
    ensures WellFormedLine(lines[at]) && AllWellFormed(Without(lines, i))
    ensures CompletionBoundary(Without(lines, i), start, limit)
            == Ok(Some(Completion(end, Some(Value(lines[at].count)))))
  {
    var cut := Without(lines, i);
    FooterStands(lines, start, limit, at);
    FooterCounts(lines[at], limit);
    MarkerMoves(lines, at, end, i);
    assert cut[end + 1..] == lines[at + 1..] && cut[end] == lines[at];
    PromptsWithout(lines, start, at, end, i);
    FooterAt(cut, start, limit, end, Value(lines[at].count));
  }

  lemma MarkerMoves(lines: seq<Line>, at: nat, end: nat, i: nat)
    requires i < at < |lines| && lines[at].Entries? && end + 1 == at && EntriesAt(lines, 0) == [at]
    ensures EntriesAt(Without(lines, i), 0) == [end]
  {
    EntriesAtSound(lines, 0);
    OneMarker(Without(lines, i), 0, end);
  }

  lemma PromptsWithout(lines: seq<Line>, start: nat, at: nat, end: nat, i: nat)
    requires start < i < at < |lines| && end + 1 == at && !AnyPrompt(lines[start..at])
    ensures !AnyPrompt(Without(lines, i)[start..end])
  {
    forall j | start <= j < end ensures !Without(lines, i)[j].Prompt? {
      NoPromptBefore(lines, start, at, if j < i then j else j + 1);
    }
  }

  lemma NoPromptBefore(lines: seq<Line>, start: nat, at: nat, j: nat)
    requires start <= j < at <= |lines| && !AnyPrompt(lines[start..at])
    ensures !lines[j].Prompt?
  {
    assert lines[start..at][j - start] == lines[j];
  }

  /** Behind the footer of an accepted table there is nothing but blank lines and a prompt. */
  lemma RowsBeforeFooter(lines: seq<Line>, start: nat, limit: nat, at: nat, i: nat)
    requires AllWellFormed(lines) && start < |lines| && at < |lines| && lines[at].Entries?
    requires CompletionBoundary(lines, start, limit).Ok? && i < |lines| && lines[i].Fields?
    ensures i < at
  {
    SoleMarker(lines, at);
    if i > at {
      assert lines[at + 1..][i - at - 1] == lines[i];
      NonBlankKeeps(lines[at + 1..], i - at - 1);
    }
  }

  lemma {:induction false} NonBlankKeeps(lines: seq<Line>, i: nat)
    requires i < |lines| && !lines[i].Blank?
    ensures lines[i] in NonBlank(lines)
  {
    if i > 0 {
      NonBlankKeeps(lines[1..], i - 1);
    }
  }

  lemma {:induction false} NoRowInPreamble(lines: seq<Line>, inLegend: bool, sawLegend: bool, i: nat)
    requires PreambleFrom(lines, inLegend, sawLegend) && i < |lines|
    ensures !lines[i].Fields?
  {
    if i > 0 {
      var l := lines[0];
      NoRowInPreamble(lines[1..], l.LegendStart? || (inLegend && !l.Blank?), sawLegend || l.LegendStart?, i - 1);
    }
  }

  lemma {:induction false} HeadersWithout(lines: seq<Line>, i: nat)
    requires i < |lines| && lines[i].Fields?
    ensures CountHeaders(Without(lines, i)) == CountHeaders(lines)
  {
    if i == 0 {
      assert Without(lines, 0) == lines[1..];
    } else {
      assert Without(lines, i)[1..] == Without(lines[1..], i - 1);
      HeadersWithout(lines[1..], i - 1);
    }
  }

  lemma {:induction false} HeaderAtWithout(lines: seq<Line>, i: nat)
    requires HeaderAt(lines) < i < |lines|
    ensures HeaderAt(Without(lines, i)) == HeaderAt(lines)
  {
    if !lines[0].Header? {
      assert Without(lines, i)[1..] == Without(lines[1..], i - 1);
      HeaderAtWithout(lines[1..], i - 1);
    }
  }

  /** Blank lines are skipped before a row, never a row. */
  lemma {:induction false} SkippedWithout(lines: seq<Line>, i: nat)
    requires i < |lines| && lines[i].Fields?
    ensures var blanks := |lines| - |SkipBlanks(lines)|;
            && blanks <= i && SkipBlanks(lines)[i - blanks] == lines[i]
            && (i > blanks ==> SkipBlanks(Without(lines, i)) == Without(SkipBlanks(lines), i - blanks))
  {
    if lines[0].Blank? {
      SkippedWithout(lines[1..], i - 1);
      assert Without(lines, i)[1..] == Without(lines[1..], i - 1);
    }
  }

  lemma WithoutSlices<T>(s: seq<T>, h: nat, i: nat)
    requires h < i < |s|
    ensures Without(s, i)[..h] == s[..h] && Without(s, i)[h] == s[h]
    ensures Without(s, i)[h + 1..] == Without(s[h + 1..], i - h - 1)
  {
  }

  lemma RowsBehindHeader(region: seq<Line>, i: nat)
    requires DataLines(region).Ok? && i < |region| && region[i].Fields?
    ensures HeaderAt(region) < i
  {
    var header := HeaderAt(region);
    HeaderAtIs(region);
    if i < header {
      assert region[..header][i] == region[i];
      NoRowInPreamble(region[..header], false, false, i);
    }
  }

  /** The lines behind a header, without one of the rows. */
  lemma BehindHeader(rest: seq<Line>, j: nat) returns (k: nat)
    requires j < |rest| && rest[j].Fields?
    requires SkipBlanks(rest) != [] && SkipBlanks(rest)[0].ColumnSeparator?
    ensures var data, after := SkipBlanks(rest)[1..], SkipBlanks(Without(rest, j));
            && k < |data| && data[k] == rest[j]
            && after != [] && after[0].ColumnSeparator? && after[1..] == Without(data, k)
  {
    SkippedWithout(rest, j);
    k := j - (|rest| - |SkipBlanks(rest)|) - 1;
    WithoutSlices(SkipBlanks(rest), 0, k + 1);
  }

  /** The row is one of the data lines, and without it the others remain. */
  lemma DataWithout(region: seq<Line>, i: nat) returns (k: nat)
    requires DataLines(region).Ok? && i < |region| && region[i].Fields?
    ensures var data := DataLines(region).value;
            k < |data| && data[k] == region[i] && DataLines(Without(region, i)) == Ok(Without(data, k))
  {
    var header := HeaderAt(region);
    RowsBehindHeader(region, i);
    HeadersWithout(region, i);
    HeaderAtWithout(region, i);
    WithoutSlices(region, header, i);
    k := BehindHeader(region[header + 1..], i - header - 1);
  }

  lemma {:induction false} HeaderAtIs(lines: seq<Line>)
    ensures HeaderAt(lines) < |lines| ==> lines[HeaderAt(lines)].Header?
  {
    if lines != [] && !lines[0].Header? {
      HeaderAtIs(lines[1..]);
    }
  }

  lemma LastRow(rows: seq<Row>, line: Line, limit: nat, lexer: Lexer)
    requires NextRow(rows, line, limit, lexer).Ok? && line.Fields?
    ensures var next := NextRow(rows, line, limit, lexer).value;
            |next| == |rows| + 1 && Without(next, |rows|) == rows
  {
  }

  /** Without one of its lines the table loses that row and no other. */
  lemma {:induction false} ReadWithout(data: seq<Line>, k: nat, limit: nat, lexer: Lexer) returns (m: nat)
    requires ReadRows(data, limit, lexer).Ok? && k < |data| && data[k].Fields?
    ensures var rows := ReadRows(data, limit, lexer).value;
            m < |rows| && ReadRows(Without(data, k), limit, lexer) == Ok(Without(rows, m))
    decreases |data|
  {
    var init, last := data[..|data| - 1], data[|data| - 1];
    var before := ReadRows(init, limit, lexer).value;
    if k == |init| {
      assert Without(data, k) == init;
      m := |before|;
      LastRow(before, last, limit, lexer);
    } else {
      m := ReadWithout(init, k, limit, lexer);
      assert Without(data, k) == Without(init, k) + [last];
      ReadRowsSnoc(Without(init, k), last, limit, lexer);
      NextWithout(before, m, last, limit, lexer);
    }
  }

  lemma NextWithout(rows: seq<Row>, m: nat, line: Line, limit: nat, lexer: Lexer)
    requires m < |rows| && NextRow(rows, line, limit, lexer).Ok?
    ensures NextRow(Without(rows, m), line, limit, lexer)
            == Ok(Without(NextRow(rows, line, limit, lexer).value, m))
  {
    var next := NextRow(rows, line, limit, lexer).value;
    if next != rows {
      assert next == rows + [next[|rows|]];
      assert Without(next, m) == Without(rows, m) + [next[|rows|]];
    }
  }

  /** The number of rows between title and footer. */
  function Held(region: seq<Line>, limit: nat, lexer: Lexer): Option<nat> {
    var data := DataLines(region);
    if data.Err? then None
    else
      var rows := ReadRows(data.value, limit, lexer);
      if rows.Err? then None else Some(|rows.value|)
  }

  lemma AcceptedHolds(lines: seq<Line>, maximum: Option<nat>, lexer: Lexer, start: nat, at: nat)
    requires AllWellFormed(lines) && Parsed(lines, maximum, lexer).Ok?
    requires FirstStart(lines) == start < at < |lines| && lines[at].Entries?
    ensures WellFormedLine(lines[at]) && CompletionBoundary(lines, start, LimitOf(maximum)).Ok?
    ensures Held(lines[start + 1..at], LimitOf(maximum), lexer) == Some(Value(lines[at].count))
  {
    BoundaryDeclares(lines, start, LimitOf(maximum), at);
    assert Region(lines, start, Some(Completion(at, Some(Value(lines[at].count))))) == lines[start + 1..at];
  }

  lemma MismatchNoticed(lines: seq<Line>, maximum: Option<nat>, lexer: Lexer, start: nat, end: nat, declared: nat,
                        held: nat)
    requires AllWellFormed(lines) && FirstStart(lines) == start < end <= |lines| && declared != held
    requires CompletionBoundary(lines, start, LimitOf(maximum)) == Ok(Some(Completion(end, Some(declared))))
    requires Held(lines[start + 1..end], LimitOf(maximum), lexer) == Some(held)
    ensures Parsed(lines, maximum, lexer) == Err(CountMismatch)
  {
    assert Region(lines, start, Some(Completion(end, Some(declared)))) == lines[start + 1..end];
  }

  lemma HeldIs(region: seq<Line>, data: seq<Line>, rows: seq<Row>, limit: nat, lexer: Lexer)
    requires DataLines(region) == Ok(data) && ReadRows(data, limit, lexer) == Ok(rows)
    ensures Held(region, limit, lexer) == Some(|rows|)
  {
  }

  lemma OneRowLess(region: seq<Line>, i: nat, limit: nat, lexer: Lexer) returns (rest: nat)
    requires Held(region, limit, lexer).Some? && i < |region| && region[i].Fields?
    ensures Held(Without(region, i), limit, lexer) == Some(rest) && rest < Held(region, limit, lexer).value
  {
    var data := DataLines(region).value;
    var rows := ReadRows(data, limit, lexer).value;
    var k := DataWithout(region, i);
    var m := ReadWithout(data, k, limit, lexer);
    var left := Without(rows, m);
    rest := |left|;
    HeldIs(region, data, rows, limit, lexer);
    HeldIs(Without(region, i), Without(data, k), left, limit, lexer);
  }

  /** Without a row the table has the same title and footer, and holds fewer rows. */
  lemma RowLost(lines: seq<Line>, limit: nat, lexer: Lexer, start: nat, at: nat, i: nat)
    returns (cut: seq<Line>, end: nat, rest: nat)
    requires AllWellFormed(lines) && FirstStart(lines) == start < i < at < |lines|
    requires lines[at].Entries? && lines[i].Fields? && CompletionBoundary(lines, start, limit).Ok?
    requires Held(lines[start + 1..at], limit, lexer).Some?
    ensures cut == Without(lines, i) && AllWellFormed(cut) && FirstStart(cut) == start < end <= |cut|
    ensures WellFormedLine(lines[at])
    ensures CompletionBoundary(cut, start, limit) == Ok(Some(Completion(end, Some(Value(lines[at].count)))))
    ensures Held(cut[start + 1..end], limit, lexer) == Some(rest)
    ensures rest < Held(lines[start + 1..at], limit, lexer).value
  {
    var j;
    cut, end := Without(lines, i), at - 1;
    BoundaryMoves(lines, start, limit, at, end, i);
    StartKept(lines, i);
    j := RegionWithout(lines, start, at, end, i);
    rest := OneRowLess(lines[start + 1..at], j, limit, lexer);
  }

  lemma RowMissed(lines: seq<Line>, maximum: Option<nat>, lexer: Lexer, start: nat, at: nat, i: nat)
    requires AllWellFormed(lines) && FirstStart(lines) == start < i < at < |lines| && lines[at].Entries?
    requires lines[i].Fields? && CompletionBoundary(lines, start, LimitOf(maximum)).Ok? && WellFormedLine(lines[at])
    requires Held(lines[start + 1..at], LimitOf(maximum), lexer) == Some(Value(lines[at].count))
    ensures AllWellFormed(Without(lines, i)) && Parsed(Without(lines, i), maximum, lexer) == Err(CountMismatch)
  {
    var cut, end, rest := RowLost(lines, LimitOf(maximum), lexer, start, at, i);
    MismatchNoticed(cut, maximum, lexer, start, end, Value(lines[at].count), rest);
  }

  lemma AcceptedBoundary(lines: seq<Line>, maximum: Option<nat>, lexer: Lexer)
    requires AllWellFormed(lines) && Parsed(lines, maximum, lexer).Ok?
    ensures FirstStart(lines) < |lines| && CompletionBoundary(lines, FirstStart(lines), LimitOf(maximum)).Ok?
  {
  }

  /** Deleting any row of an accepted table that declares its count is noticed. A row stands behind the title; what
      stands before it is never read. */
  lemma TruncationRejected(lines: seq<Line>, maximum: Option<nat>, lexer: Lexer, at: nat, i: nat)
    requires AllWellFormed(lines) && Parsed(lines, maximum, lexer).Ok?
    requires at < |lines| && lines[at].Entries? && FirstStart(lines) < i < |lines| && lines[i].Fields?
    ensures AllWellFormed(Without(lines, i)) && Parsed(Without(lines, i), maximum, lexer) == Err(CountMismatch)
  {
    var start, limit := FirstStart(lines), LimitOf(maximum);
    AcceptedBoundary(lines, maximum, lexer);
    RowsBeforeFooter(lines, start, limit, at, i);
    AcceptedHolds(lines, maximum, lexer, start, at);
    RowMissed(lines, maximum, lexer, start, at, i);
  }

  lemma RegionWithout(lines: seq<Line>, start: nat, at: nat, end: nat, i: nat) returns (j: nat)
    requires start < i < at < |lines| && end + 1 == at
    ensures j < |lines[start + 1..at]| && lines[start + 1..at][j] == lines[i]
    ensures Without(lines, i)[start + 1..end] == Without(lines[start + 1..at], j)
  {
    j := i - start - 1;
    var cut, region := Without(lines, i)[start + 1..end], Without(lines[start + 1..at], j);
    forall k | 0 <= k < |cut| ensures cut[k] == region[k] {
      assert cut[k] == lines[if start + 1 + k < i then start + 1 + k else start + 2 + k];
    }
  }
}
