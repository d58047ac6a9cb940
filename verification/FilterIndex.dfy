/**
 The inverted index of the report's filter script, against a scan of all rows
 (the embedded script in src/aruba_session_tracker/storage/html_report.py:78-154 and 214-261).
 */
module FilterIndex {
  import opened Wrappers

  // ----- text -----

  predicate IsSpace(c: char) {
    c == ' ' || c == '\t' || c == '\n' || c == '\r'
  }

  function TrimLeft(s: string): (r: string)
    ensures r != "" ==> !IsSpace(r[0])
    ensures |r| <= |s|
  {
    if s != "" && IsSpace(s[0]) then TrimLeft(s[1..]) else s
  }

  function TrimRight(s: string): (r: string)
    ensures r != "" ==> s != "" && !IsSpace(r[|r| - 1]) && r[0] == s[0]
    ensures |r| <= |s|
  {
    if s != "" && IsSpace(s[|s| - 1]) then TrimRight(s[..|s| - 1]) else s
  }

  function Trim(s: string): (r: string)
    ensures Trimmed(r)
  {
    TrimRight(TrimLeft(s))
  }

  predicate Trimmed(s: string) {
    s != "" ==> !IsSpace(s[0]) && !IsSpace(s[|s| - 1])
  }

  function LowerChar(c: char): char {
    if 'A' <= c <= 'Z' then c + ('a' - 'A') else c
  }

  function Lower(s: string): (r: string)
    ensures |r| == |s|
    ensures forall i :: 0 <= i < |s| ==> r[i] == LowerChar(s[i])
  {
    seq(|s|, i requires 0 <= i < |s| => LowerChar(s[i]))
  }

  /** `normalize`. */
  function Normalize(s: string): string {
    Lower(Trim(s))
  }

  lemma TrimOfTrimmed(s: string)
    requires Trimmed(s)
    ensures Trim(s) == s
  {
  }

  lemma LowerOnlyDash(s: string)
    ensures Lower(s) == "-" <==> s == "-"
    ensures Lower(s) == "" <==> s == ""
  {
    if Lower(s) == "-" {
      assert Lower(s)[0] == '-' && s == [s[0]];
    }
  }

  // ----- cells -----

  /** A text of the page or of a control, with what `trim` and `normalize` make of it. */
  datatype Cell = Cell(text: string, clean: string, key: string)

  const EMPTY := Cell("", "", "")

  function Read(text: string): Cell {
    Cell(text, Trim(text), Normalize(text))
  }

  /** All that the index relies on. */
  predicate CellOk(c: Cell) {
    && (c.key == "" <==> c.clean == "") && (c.key == "-" <==> c.clean == "-")
    && (c.text == "" ==> c.clean == "") && (c.text == "-" ==> c.clean == "-")
  }

  /** The cell of the trimmed text. */
  function Cleaned(c: Cell): Cell {
    Cell(c.clean, c.clean, c.key)
  }

  lemma ReadOk(text: string)
    ensures CellOk(Read(text)) && Read(Trim(text)) == Cleaned(Read(text)) && Read("") == EMPTY
  {
    LowerOnlyDash(Trim(text));
    TrimOfTrimmed(Trim(text));
    TrimOfTrimmed("-");
    TrimOfTrimmed("");
    assert Lower("") == "";
  }

  // ----- rows and filters -----

  datatype Record = Record(sourceIp: Cell, destinationIp: Cell, sourcePort: Cell, destinationPort: Cell, protocol: Cell)

  predicate RecordOk(r: Record) {
    && CellOk(r.sourceIp) && CellOk(r.destinationIp) && CellOk(r.sourcePort) && CellOk(r.destinationPort)
    && CellOk(r.protocol)
  }

  predicate HistoryOk(history: seq<Record>) {
    forall i :: 0 <= i < |history| ==> RecordOk(history[i])
  }

  /** `toRecord`. */
  function ToRecord(sourceIp: string, destinationIp: string, sourcePort: string, destinationPort: string,
                    protocol: string): Record
  {
    Record(Read(sourceIp), Read(destinationIp), Read(sourcePort), Read(destinationPort), Read(protocol))
  }

  lemma ToRecordOk(sourceIp: string, destinationIp: string, sourcePort: string, destinationPort: string,
                   protocol: string)
    ensures RecordOk(ToRecord(sourceIp, destinationIp, sourcePort, destinationPort, protocol))
  {
    ReadOk(sourceIp);
    ReadOk(destinationIp);
    ReadOk(sourcePort);
    ReadOk(destinationPort);
    ReadOk(protocol);
  }

  datatype Kind = Ip | Port

  datatype Filters = Filters(ip: Cell, port: Cell, protocol: Cell)

  const UNFILTERED := Filters(EMPTY, EMPTY, EMPTY)

  function Side(r: Record, kind: Kind, source: bool): Cell {
    match kind
    case Ip => if source then r.sourceIp else r.destinationIp
    case Port => if source then r.sourcePort else r.destinationPort
  }

  function Key(r: Record, kind: Kind, source: bool): string {
    Side(r, kind, source).key
  }

  function FilterOf(st: Filters, kind: Kind): Cell {
    if kind.Ip? then st.ip else st.port
  }

  function WithFilter(st: Filters, kind: Kind, value: Cell): Filters {
    if kind.Ip? then st.(ip := value) else st.(port := value)
  }

  function Other(kind: Kind): Kind {
    if kind.Ip? then Port else Ip
  }

  /** `matchesIp` and `matchesPort`. */
  predicate MatchesKind(r: Record, kind: Kind, value: Cell) {
    value.key == "" || Key(r, kind, true) == value.key || Key(r, kind, false) == value.key
  }

  predicate MatchesProtocol(r: Record, value: Cell) {
    value.key == "" || r.protocol.key == value.key
  }

  /** `matchesAll`. */
  predicate MatchesAll(r: Record, st: Filters) {
    MatchesKind(r, Ip, st.ip) && MatchesKind(r, Port, st.port) && MatchesProtocol(r, st.protocol)
  }

  /** The filters other than the one for which candidates are sought. */
  predicate MatchesOthers(r: Record, kind: Kind, st: Filters) {
    MatchesKind(r, Other(kind), FilterOf(st, Other(kind))) && MatchesProtocol(r, st.protocol)
  }

  // ----- the index -----

  /** A text that `addDirectionalIndex` accepts. */
  predicate Indexable(c: Cell) {
    c.key != "" && c.clean != "" && c.clean != "-"
  }

  datatype Candidate = Candidate(value: Cell, sourceRows: seq<nat>, destinationRows: seq<nat>)

  datatype Index = Index(order: seq<string>, at: map<string, Candidate>)

  /** The text is indexed under this key. */
  predicate Hits(c: Cell, k: string) {
    Indexable(c) && c.key == k
  }

  /** `addDirectionalIndex`. */
  function Added(ix: Index, cell: Cell, source: bool, row: nat): Index {
    if !Indexable(cell) then ix
    else
      var k := cell.key;
      var c := if k in ix.at then ix.at[k] else Candidate(Cleaned(cell), [], []);
      Index(
        if k in ix.at then ix.order else ix.order + [k],
        ix.at[k := if source then c.(sourceRows := c.sourceRows + [row])
                   else c.(destinationRows := c.destinationRows + [row])])
  }

  /** Both sides of one row: source before destination. */
  function AddedRow(ix: Index, r: Record, kind: Kind, row: nat): Index {
    Added(Added(ix, Side(r, kind, true), true, row), Side(r, kind, false), false, row)
  }

  /** The index over the first `n` rows. */
  function Built(history: seq<Record>, kind: Kind, n: nat): Index
    requires n <= |history|
  {
    if n == 0 then Index([], map[]) else AddedRow(Built(history, kind, n - 1), history[n - 1], kind, n - 1)
  }

  /** A row of the first `n` that has the key on one side. */
  predicate Occurs(history: seq<Record>, kind: Kind, n: nat, source: bool, k: string, row: nat) {
    row < n <= |history| && Hits(Side(history[row], kind, source), k)
  }

  function RowsOf(ix: Index, k: string, source: bool): seq<nat> {
    if k !in ix.at then [] else if source then ix.at[k].sourceRows else ix.at[k].destinationRows
  }

  /** What an index entry says about the first `n` rows: its rows are those where the key occurs. */
  ghost predicate EntryFits(ix: Index, history: seq<Record>, kind: Kind, n: nat, k: string) {
    && (forall row: nat, source :: row in RowsOf(ix, k, source) <==> Occurs(history, kind, n, source, k, row))
    && (k in ix.at ==> Hits(ix.at[k].value, k) && Choosable(ix.at[k].value))
  }

  predicate DistinctKeys(order: seq<string>) {
    forall i, j :: 0 <= i < j < |order| ==> order[i] != order[j]
  }

  ghost predicate OrderFits(ix: Index) {
    DistinctKeys(ix.order) && forall k :: k in ix.order <==> k in ix.at
  }

  lemma AddedOrder(ix: Index, cell: Cell, source: bool, row: nat)
    requires OrderFits(ix)
    ensures OrderFits(Added(ix, cell, source, row))
  {
  }

  lemma {:induction false} BuiltOrder(history: seq<Record>, kind: Kind, n: nat)
    requires n <= |history|
    ensures OrderFits(Built(history, kind, n))
  {
    if n > 0 {
      BuiltOrder(history, kind, n - 1);
      var half := Added(Built(history, kind, n - 1), Side(history[n - 1], kind, true), true, n - 1);
      AddedOrder(Built(history, kind, n - 1), Side(history[n - 1], kind, true), true, n - 1);
      AddedOrder(half, Side(history[n - 1], kind, false), false, n - 1);
    }
  }

  /** What one addition does to one entry. */
  lemma AddedEntry(ix: Index, cell: Cell, source: bool, row: nat, k: string)
    ensures var next := Added(ix, cell, source, row);
            if Hits(cell, k) then
              && k in next.at
              && next.at[k].value == (if k in ix.at then ix.at[k].value else Cleaned(cell))
              && RowsOf(next, k, source) == RowsOf(ix, k, source) + [row]
              && RowsOf(next, k, !source) == RowsOf(ix, k, !source)
            else (k in next.at <==> k in ix.at) && (k in ix.at ==> next.at[k] == ix.at[k])
  {
  }

  lemma OccursStep(history: seq<Record>, kind: Kind, n: nat, source: bool, k: string, row: nat)
    requires n < |history|
    ensures Occurs(history, kind, n + 1, source, k, row) <==>
            Occurs(history, kind, n, source, k, row) || (row == n && Hits(Side(history[n], kind, source), k))
  {
  }

  lemma ValueStep(ix: Index, cell: Cell, source: bool, row: nat, k: string)
    requires CellOk(cell) && (k in ix.at ==> Hits(ix.at[k].value, k) && Choosable(ix.at[k].value))
    ensures var next := Added(ix, cell, source, row);
            k in next.at ==> Hits(next.at[k].value, k) && Choosable(next.at[k].value)
  {
    AddedEntry(ix, cell, source, row, k);
  }

  lemma RowsStep(ix: Index, s: Cell, d: Cell, n: nat, k: string)
    ensures var next := Added(Added(ix, s, true, n), d, false, n);
            && RowsOf(next, k, true) == RowsOf(ix, k, true) + (if Hits(s, k) then [n] else [])
            && RowsOf(next, k, false) == RowsOf(ix, k, false) + (if Hits(d, k) then [n] else [])
  {
    AddedEntry(ix, s, true, n, k);
    AddedEntry(Added(ix, s, true, n), d, false, n, k);
  }

  lemma EntryFrom(ix: Index, next: Index, history: seq<Record>, kind: Kind, n: nat, k: string)
    requires n < |history| && EntryFits(ix, history, kind, n, k)
    requires forall source :: RowsOf(next, k, source)
                              == RowsOf(ix, k, source) + (if Hits(Side(history[n], kind, source), k) then [n] else [])
    requires k in next.at ==> Hits(next.at[k].value, k) && Choosable(next.at[k].value)
    ensures EntryFits(next, history, kind, n + 1, k)
  {
    forall row: nat, source ensures row in RowsOf(next, k, source) <==> Occurs(history, kind, n + 1, source, k, row) {
      OccursStep(history, kind, n, source, k, row);
    }
  }

  lemma EntryStep(ix: Index, history: seq<Record>, kind: Kind, n: nat, k: string)
    requires n < |history| && RecordOk(history[n]) && EntryFits(ix, history, kind, n, k)
    ensures var half := Added(ix, Side(history[n], kind, true), true, n);
            EntryFits(Added(half, Side(history[n], kind, false), false, n), history, kind, n + 1, k)
  {
    var s, d := Side(history[n], kind, true), Side(history[n], kind, false);
    var half := Added(ix, s, true, n);
    RowsStep(ix, s, d, n, k);
    ValueStep(ix, s, true, n, k);
    ValueStep(half, d, false, n, k);
    EntryFrom(ix, Added(half, d, false, n), history, kind, n, k);
  }

  lemma BuiltStep(history: seq<Record>, kind: Kind, n: nat, k: string)
    requires 0 < n <= |history| && RecordOk(history[n - 1])
    requires EntryFits(Built(history, kind, n - 1), history, kind, n - 1, k)
    ensures EntryFits(Built(history, kind, n), history, kind, n, k)
  {
    EntryStep(Built(history, kind, n - 1), history, kind, n - 1, k);
  }

  lemma {:induction false} BuiltFits(history: seq<Record>, kind: Kind, n: nat, k: string)
    requires n <= |history| && HistoryOk(history)
    ensures EntryFits(Built(history, kind, n), history, kind, n, k)
  {
    if n == 0 {
      NoneFit(history, kind, k);
    } else {
      BuiltFits(history, kind, n - 1, k);
      BuiltStep(history, kind, n, k);
    }
  }

  lemma NoneFit(history: seq<Record>, kind: Kind, k: string)
    ensures EntryFits(Built(history, kind, 0), history, kind, 0, k)
  {
  }

  // ----- the protocol index -----

  /** `addProtocolIndex` looks for "-" before trimming. */
  predicate ProtocolIndexable(c: Cell) {
    c.key != "" && c.text != "" && c.text != "-"
  }

  function ProtocolRows(history: seq<Record>, k: string): set<nat> {
    set i: nat | i < |history| && ProtocolIndexable(history[i].protocol) && history[i].protocol.key == k
  }

  predicate HasKey(options: seq<Cell>, k: string) {
    exists i :: 0 <= i < |options| && options[i].key == k
  }

  function WithOption(options: seq<Cell>, cell: Cell): seq<Cell> {
    if ProtocolIndexable(cell) && !HasKey(options, cell.key) then options + [cell] else options
  }

  /** The options of the protocol selector: the first text of every key. */
  function ProtocolOptions(history: seq<Record>, n: nat): seq<Cell>
    requires n <= |history|
  {
    if n == 0 then [] else WithOption(ProtocolOptions(history, n - 1), history[n - 1].protocol)
  }

  lemma {:induction false} OptionsIndexable(history: seq<Record>, n: nat)
    requires n <= |history| && HistoryOk(history)
    ensures forall v :: v in ProtocolOptions(history, n) ==>
              ProtocolIndexable(v) && CellOk(v) && exists i :: 0 <= i < n && history[i].protocol == v
  {
    if n > 0 {
      OptionsIndexable(history, n - 1);
      var rest, text := ProtocolOptions(history, n - 1), history[n - 1].protocol;
      forall v | v in WithOption(rest, text)
        ensures ProtocolIndexable(v) && CellOk(v) && exists i :: 0 <= i < n && history[i].protocol == v
      {
        if v in rest {
          var i :| 0 <= i < n - 1 && history[i].protocol == v;
        } else {
          assert history[n - 1].protocol == v;
        }
      }
    }
  }

  lemma KeyStays(options: seq<Cell>, cell: Cell, k: string)
    ensures HasKey(options, k) ==> HasKey(WithOption(options, cell), k)
    ensures ProtocolIndexable(cell) ==> HasKey(WithOption(options, cell), cell.key)
  {
    var more := options + [cell];
    assert more[|options|] == cell;
    if HasKey(options, k) {
      var i :| 0 <= i < |options| && options[i].key == k;
      assert more[i] == options[i];
    }
  }

  lemma {:induction false} OptionsCover(history: seq<Record>, n: nat, i: nat, k: string)
    requires i < n <= |history| && ProtocolIndexable(history[i].protocol) && k == history[i].protocol.key
    ensures HasKey(ProtocolOptions(history, n), k)
  {
    if i < n - 1 {
      OptionsCover(history, n - 1, i, k);
    }
    KeyStays(ProtocolOptions(history, n - 1), history[n - 1].protocol, k);
  }

  // ----- eligible rows -----

  function DirectionalRows(history: seq<Record>, kind: Kind, k: string): set<nat> {
    set i: nat | i < |history| && (Occurs(history, kind, |history|, true, k, i)
                                   || Occurs(history, kind, |history|, false, k, i))
  }

  /** What `eligibleRowsForOtherFilters` intersects; None when no other filter is set. */
  function Eligible(history: seq<Record>, kind: Kind, st: Filters): Option<set<nat>> {
    var other := FilterOf(st, Other(kind));
    if other.text == "" && st.protocol.text == "" then None
    else if st.protocol.text == "" then Some(DirectionalRows(history, Other(kind), other.key))
    else if other.text == "" then Some(ProtocolRows(history, st.protocol.key))
    else Some(DirectionalRows(history, Other(kind), other.key) * ProtocolRows(history, st.protocol.key))
  }

  /** A value that an indexed candidate offers: it is its own trimmed text. */
  predicate Choosable(c: Cell) {
    Indexable(c) && CellOk(c) && c.text != ""
  }

  /** Filters that the controls can set: indexed values and protocol options. */
  ghost predicate Settable(history: seq<Record>, st: Filters) {
    && (st.ip == EMPTY || Choosable(st.ip)) && (st.port == EMPTY || Choosable(st.port))
    && (st.protocol == EMPTY || st.protocol in ProtocolOptions(history, |history|))
  }

  predicate BareDash(c: Cell) {
    c.text == "-"
  }

  predicate PaddedDash(c: Cell) {
    c.text != "-" && c.clean == "-"
  }

  /** A row whose protocol is a bare dash, beside a row whose protocol is a dash with blanks around it. */
  predicate DashClash(history: seq<Record>) {
    && (exists i :: 0 <= i < |history| && BareDash(history[i].protocol))
    && (exists i :: 0 <= i < |history| && PaddedDash(history[i].protocol))
  }

  lemma DirectionalMeaning(history: seq<Record>, kind: Kind, value: Cell, i: nat)
    requires i < |history| && RecordOk(history[i]) && Choosable(value)
    ensures i in DirectionalRows(history, kind, value.key) <==> MatchesKind(history[i], kind, value)
  {
  }

  lemma ProtocolMeaning(history: seq<Record>, value: Cell, i: nat)
    requires i < |history| && RecordOk(history[i]) && ProtocolIndexable(value) && CellOk(value)
    ensures i in ProtocolRows(history, value.key) <==>
            MatchesProtocol(history[i], value) && !(BareDash(history[i].protocol) && value.clean == "-")
  {
  }

  predicate RowEligible(history: seq<Record>, kind: Kind, st: Filters, i: nat) {
    Eligible(history, kind, st).None? || i in Eligible(history, kind, st).value
  }

  /** A row that the index admits passes the other filters; the converse fails only for a bare dash. */
  lemma EligibleMeaning(history: seq<Record>, kind: Kind, st: Filters, i: nat)
    requires i < |history| && HistoryOk(history) && Settable(history, st)
    ensures RowEligible(history, kind, st, i) <==>
            MatchesOthers(history[i], kind, st) && !(BareDash(history[i].protocol) && st.protocol.clean == "-")
  {
    var other := FilterOf(st, Other(kind));
    if other != EMPTY {
      DirectionalMeaning(history, Other(kind), other, i);
    }
    if st.protocol != EMPTY {
      OptionsIndexable(history, |history|);
      ProtocolMeaning(history, st.protocol, i);
    }
  }

  /** The indexed rows are the rows that a scan finds, for every setting of the controls, exactly when no bare dash
      meets a padded one. */
  lemma IndexAgreesIff(history: seq<Record>)
    requires HistoryOk(history)
    ensures (forall kind, st, i: nat :: i < |history| && Settable(history, st) ==>
              (RowEligible(history, kind, st, i) <==> MatchesOthers(history[i], kind, st)))
            <==> !DashClash(history)
  {
    if DashClash(history) {
      var i: nat :| i < |history| && BareDash(history[i].protocol);
      var j: nat :| j < |history| && PaddedDash(history[j].protocol);
      ClashShows(history, i, j);
    } else {
      forall kind, st, i: nat | i < |history| && Settable(history, st)
        ensures RowEligible(history, kind, st, i) <==> MatchesOthers(history[i], kind, st)
      {
        EligibleMeaning(history, kind, st, i);
        OptionsIndexable(history, |history|);
      }
    }
  }

  /** Choosing the padded dash in the protocol selector hides the row with the bare dash from the index. */
  lemma ClashShows(history: seq<Record>, i: nat, j: nat)
    requires HistoryOk(history) && i < |history| && j < |history|
    requires BareDash(history[i].protocol) && PaddedDash(history[j].protocol)
    ensures exists st :: Settable(history, st) && !RowEligible(history, Ip, st, i) && MatchesOthers(history[i], Ip, st)
  {
    assert RecordOk(history[i]) && RecordOk(history[j]);
    OptionsCover(history, |history|, j, history[j].protocol.key);
    OptionsIndexable(history, |history|);
    var options := ProtocolOptions(history, |history|);
    var m :| 0 <= m < |options| && options[m].key == history[j].protocol.key;
    var st := Filters(EMPTY, EMPTY, options[m]);
    assert options[m] in options;
    EligibleMeaning(history, Ip, st, i);
    assert Settable(history, st) && !RowEligible(history, Ip, st, i) && MatchesOthers(history[i], Ip, st);
  }

  /** `_filter_attribute`: the page never carries a bare dash. */
  function FilterAttribute(text: string): string {
    if text == "-" then "" else text
  }

  /** So the index agrees with a scan on every page that the report writer renders. */
  lemma RenderedNeverClash(history: seq<Record>)
    requires forall i :: 0 <= i < |history| ==> exists text :: history[i].protocol == Read(FilterAttribute(text))
    ensures !DashClash(history)
  {
    forall i | 0 <= i < |history| ensures !BareDash(history[i].protocol) {
      var text :| history[i].protocol == Read(FilterAttribute(text));
    }
  }

  // ----- candidates -----

  datatype Suggestion = Suggestion(value: Cell, source: bool, destination: bool)

  /** `hasEligibleRow`. */
  predicate HasEligible(rows: seq<nat>, eligible: Option<set<nat>>) {
    if eligible.None? then |rows| > 0 else exists i :: 0 <= i < |rows| && rows[i] in eligible.value
  }

  /** `candidateValues`, as a function of the index and the eligible rows. */
  function Candidates(ix: Index, order: seq<string>, eligible: Option<set<nat>>): seq<Suggestion>
    requires forall k :: k in order ==> k in ix.at
  {
    if order == [] then []
    else
      var rest, c := Candidates(ix, order[..|order| - 1], eligible), ix.at[order[|order| - 1]];
      var s, d := HasEligible(c.sourceRows, eligible), HasEligible(c.destinationRows, eligible);
      if s || d then rest + [Suggestion(c.value, s, d)] else rest
  }

  /** A scan of the rows: one that has the key on this side and passes the other filters. */
  predicate Found(history: seq<Record>, kind: Kind, st: Filters, k: string, source: bool) {
    exists i: nat ::
      i < |history| && Occurs(history, kind, |history|, source, k, i) && MatchesOthers(history[i], kind, st)
  }

  /** The candidates that a scan of the history finds, in the order of the keys. */
  function Scan(history: seq<Record>, kind: Kind, st: Filters, order: seq<string>): seq<Suggestion> {
    if order == [] then []
    else
      var rest, k := Scan(history, kind, st, order[..|order| - 1]), order[|order| - 1];
      var s, d := Found(history, kind, st, k, true), Found(history, kind, st, k, false);
      if s || d then rest + [Suggestion(FirstText(history, kind, |history|, k), s, d)] else rest
  }

  /** The keys of the first `n` rows, and the text with which a key first appears: source before destination. */
  function KeyOrder(history: seq<Record>, kind: Kind, n: nat): seq<string>
    requires n <= |history|
  {
    if n == 0 then []
    else
      var half := WithKey(KeyOrder(history, kind, n - 1), Side(history[n - 1], kind, true));
      WithKey(half, Side(history[n - 1], kind, false))
  }

  function WithKey(order: seq<string>, cell: Cell): seq<string> {
    if Indexable(cell) && cell.key !in order then order + [cell.key] else order
  }

  function FirstText(history: seq<Record>, kind: Kind, n: nat, k: string): Cell
    requires n <= |history|
  {
    if n == 0 then EMPTY
    else
      NextText(FirstText(history, kind, n - 1, k), Side(history[n - 1], kind, true), Side(history[n - 1], kind, false),
               k)
  }

  function NextText(before: Cell, s: Cell, d: Cell, k: string): Cell {
    if before != EMPTY then before else if Hits(s, k) then Cleaned(s) else if Hits(d, k) then Cleaned(d) else EMPTY
  }

  function TextOf(ix: Index, k: string): Cell {
    if k in ix.at then ix.at[k].value else EMPTY
  }

  lemma AddedText(ix: Index, s: Cell, d: Cell, n: nat, k: string)
    requires k in ix.at ==> ix.at[k].value != EMPTY
    ensures TextOf(Added(Added(ix, s, true, n), d, false, n), k) == NextText(TextOf(ix, k), s, d, k)
  {
    var half := Added(ix, s, true, n);
    AddedEntry(ix, s, true, n, k);
    AddedEntry(half, d, false, n, k);
    assert Hits(s, k) ==> Cleaned(s) != EMPTY;
  }

  lemma AddedKeys(ix: Index, cell: Cell, source: bool, row: nat)
    requires OrderFits(ix)
    ensures Added(ix, cell, source, row).order == WithKey(ix.order, cell)
  {
  }

  lemma AddedTwice(ix: Index, s: Cell, d: Cell, n: nat)
    requires OrderFits(ix)
    ensures Added(Added(ix, s, true, n), d, false, n).order == WithKey(WithKey(ix.order, s), d)
  {
    AddedKeys(ix, s, true, n);
    AddedOrder(ix, s, true, n);
    AddedKeys(Added(ix, s, true, n), d, false, n);
  }

  lemma {:induction false} BuiltKeys(history: seq<Record>, kind: Kind, n: nat)
    requires n <= |history|
    ensures Built(history, kind, n).order == KeyOrder(history, kind, n)
  {
    if n > 0 {
      BuiltKeys(history, kind, n - 1);
      BuiltOrder(history, kind, n - 1);
      AddedTwice(Built(history, kind, n - 1), Side(history[n - 1], kind, true), Side(history[n - 1], kind, false),
                 n - 1);
    }
  }

  lemma BuiltValue(history: seq<Record>, kind: Kind, n: nat, k: string)
    requires n <= |history| && HistoryOk(history)
    ensures k in Built(history, kind, n).at ==> Built(history, kind, n).at[k].value != EMPTY
  {
    BuiltFits(history, kind, n, k);
  }

  lemma {:induction false} BuiltText(history: seq<Record>, kind: Kind, n: nat, k: string)
    requires n <= |history| && HistoryOk(history)
    ensures FirstText(history, kind, n, k) == TextOf(Built(history, kind, n), k)
  {
    if n > 0 {
      BuiltText(history, kind, n - 1, k);
      BuiltValue(history, kind, n - 1, k);
      AddedText(Built(history, kind, n - 1), Side(history[n - 1], kind, true), Side(history[n - 1], kind, false),
                n - 1, k);
    }
  }

  lemma FoundIff(history: seq<Record>, kind: Kind, st: Filters, k: string, source: bool)
    requires HistoryOk(history) && Settable(history, st) && !DashClash(history)
    ensures Found(history, kind, st, k, source)
            <==> HasEligible(RowsOf(Built(history, kind, |history|), k, source), Eligible(history, kind, st))
  {
    BuiltFits(history, kind, |history|, k);
    IndexAgreesIff(history);
    var eligible := Eligible(history, kind, st);
    var rows := RowsOf(Built(history, kind, |history|), k, source);
    forall i: nat | i in rows
      ensures i < |history| && (RowEligible(history, kind, st, i) <==> MatchesOthers(history[i], kind, st))
    {
      assert Occurs(history, kind, |history|, source, k, i);
    }
    if Found(history, kind, st, k, source) {
      var i: nat :| i < |history| && Occurs(history, kind, |history|, source, k, i)
                    && MatchesOthers(history[i], kind, st);
      assert i in rows;
      var m :| 0 <= m < |rows| && rows[m] == i;
      assert RowEligible(history, kind, st, rows[m]);
    }
    if HasEligible(rows, eligible) {
      var m :| 0 <= m < |rows| && (eligible.None? || rows[m] in eligible.value);
      assert rows[m] in rows && RowEligible(history, kind, st, rows[m]);
      assert Occurs(history, kind, |history|, source, k, rows[m]);
    }
  }

  lemma {:induction false} CandidatesAre(history: seq<Record>, kind: Kind, st: Filters, order: seq<string>)
    requires HistoryOk(history) && Settable(history, st) && !DashClash(history)
    requires forall k :: k in order ==> k in Built(history, kind, |history|).at
    ensures Candidates(Built(history, kind, |history|), order, Eligible(history, kind, st))
            == Scan(history, kind, st, order)
  {
    if order != [] {
      var k := order[|order| - 1];
      CandidatesAre(history, kind, st, order[..|order| - 1]);
      FoundIff(history, kind, st, k, true);
      FoundIff(history, kind, st, k, false);
      BuiltText(history, kind, |history|, k);
    }
  }

  function Answer(history: seq<Record>, kind: Kind, st: Filters): seq<Suggestion> {
    BuiltOrder(history, kind, |history|);
    Candidates(Built(history, kind, |history|), Built(history, kind, |history|).order, Eligible(history, kind, st))
  }

  /** The indexed answer is the answer of a scan: the same values, with the same directions, in the same order. */
  lemma AnswerIsScan(history: seq<Record>, kind: Kind, st: Filters)
    requires HistoryOk(history) && Settable(history, st) && !DashClash(history)
    ensures Answer(history, kind, st) == Scan(history, kind, st, KeyOrder(history, kind, |history|))
  {
    BuiltOrder(history, kind, |history|);
    BuiltKeys(history, kind, |history|);
    CandidatesAre(history, kind, st, Built(history, kind, |history|).order);
  }

  // ----- a suggestion always leaves a visible row -----

  /** Setting the filter to this value leaves a row of the history visible. */
  predicate LeavesRow(history: seq<Record>, kind: Kind, st: Filters, value: Cell) {
    exists i: nat :: i < |history| && MatchesAll(history[i], WithFilter(st, kind, value))
  }

  lemma CandidateLeavesRow(history: seq<Record>, kind: Kind, st: Filters, k: string, source: bool)
    requires HistoryOk(history) && Settable(history, st) && k in Built(history, kind, |history|).at
    requires HasEligible(RowsOf(Built(history, kind, |history|), k, source), Eligible(history, kind, st))
    ensures LeavesRow(history, kind, st, Built(history, kind, |history|).at[k].value)
  {
    BuiltFits(history, kind, |history|, k);
    var c, eligible := Built(history, kind, |history|).at[k], Eligible(history, kind, st);
    var rows := RowsOf(Built(history, kind, |history|), k, source);
    var m :| 0 <= m < |rows| && (eligible.None? || rows[m] in eligible.value);
    assert rows[m] in rows && Occurs(history, kind, |history|, source, k, rows[m]);
    EligibleMeaning(history, kind, st, rows[m]);
    assert MatchesKind(history[rows[m]], kind, c.value);
    assert MatchesAll(history[rows[m]], WithFilter(st, kind, c.value));
  }

  lemma {:induction false} CandidatesLeaveRows(history: seq<Record>, kind: Kind, st: Filters, order: seq<string>,
                                               s: Suggestion)
    requires HistoryOk(history) && Settable(history, st)
    requires forall k :: k in order ==> k in Built(history, kind, |history|).at
    requires s in Candidates(Built(history, kind, |history|), order, Eligible(history, kind, st))
    ensures LeavesRow(history, kind, st, s.value) && Choosable(s.value)
  {
    var k, init, ix := order[|order| - 1], order[..|order| - 1], Built(history, kind, |history|);
    if s in Candidates(ix, init, Eligible(history, kind, st)) {
      CandidatesLeaveRows(history, kind, st, init, s);
    } else {
      BuiltFits(history, kind, |history|, k);
      CandidateLeavesRow(history, kind, st, k, s.source);
    }
  }

  /** Choosing any suggestion leaves at least one row of the history visible, also under a dash clash. */
  lemma SuggestionLeavesRow(history: seq<Record>, kind: Kind, st: Filters, s: Suggestion)
    requires HistoryOk(history) && Settable(history, st) && s in Answer(history, kind, st)
    ensures LeavesRow(history, kind, st, s.value) && Choosable(s.value)
  {
    BuiltOrder(history, kind, |history|);
    CandidatesLeaveRows(history, kind, st, Built(history, kind, |history|).order, s);
  }

  /** Clearing a filter never takes a row away. */
  lemma ClearingLeavesRow(history: seq<Record>, kind: Kind, st: Filters, value: Cell, cleared: Kind)
    requires LeavesRow(history, kind, st, value)
    ensures LeavesRow(history, kind, WithFilter(st, cleared, EMPTY), value)
  {
    var i: nat :| i < |history| && MatchesAll(history[i], WithFilter(st, kind, value));
    assert MatchesAll(history[i], WithFilter(WithFilter(st, cleared, EMPTY), kind, value));
  }
}
