/**
 The state of the report's filter script: index, lazily built row sets, candidate caches, filters and open
 suggestion lists (the embedded script in src/aruba_session_tracker/storage/html_report.py:89-261, 313-320,
 374-389 and 469-502).  Every method keeps `Valid`, so it holds in every state that a user can reach.
 */
module FilterScript {
  import opened Wrappers
  import opened FilterIndex

  datatype ProtocolEntry = ProtocolEntry(value: Cell, rows: seq<nat>)

  /** `matchRank` below 3: the query occurs in the value. */
  predicate Contains(value: string, query: string) {
    query <= value || (value != "" && Contains(value[1..], query))
  }

  /** `suggestionsFor`, without its sorting and its length limit. */
  function Matching(candidates: seq<Suggestion>, query: Cell): seq<Suggestion> {
    if candidates == [] || query.key == "" then []
    else
      var rest, last := Matching(candidates[..|candidates| - 1], query), candidates[|candidates| - 1];
      if Contains(last.value.key, query.key) then rest + [last] else rest
  }

  lemma {:induction false} MatchingIn(candidates: seq<Suggestion>, query: Cell)
    ensures forall s :: s in Matching(candidates, query) ==> s in candidates
  {
    if candidates != [] {
      MatchingIn(candidates[..|candidates| - 1], query);
    }
  }

  function ToSet(rows: seq<nat>): set<nat> {
    set i | i in rows
  }

  // ----- the protocol entries of the first `n` rows -----

  function WithProtocol(entries: map<string, ProtocolEntry>, cell: Cell, row: nat): map<string, ProtocolEntry> {
    if !ProtocolIndexable(cell) then entries
    else
      var k := cell.key;
      var entry := if k in entries then entries[k] else ProtocolEntry(cell, []);
      entries[k := entry.(rows := entry.rows + [row])]
  }

  function BuiltProtocols(history: seq<Record>, n: nat): map<string, ProtocolEntry>
    requires n <= |history|
  {
    if n == 0 then map[] else WithProtocol(BuiltProtocols(history, n - 1), history[n - 1].protocol, n - 1)
  }

  function ProtocolEntryRows(entries: map<string, ProtocolEntry>, k: string): seq<nat> {
    if k in entries then entries[k].rows else []
  }

  predicate HasProtocol(history: seq<Record>, n: nat, k: string, row: nat) {
    row < n <= |history| && ProtocolIndexable(history[row].protocol) && history[row].protocol.key == k
  }

  lemma {:induction false} ProtocolsAre(history: seq<Record>, n: nat, k: string)
    requires n <= |history|
    ensures forall row: nat ::
              row in ProtocolEntryRows(BuiltProtocols(history, n), k) <==> HasProtocol(history, n, k, row)
  {
    if n > 0 {
      ProtocolsAre(history, n - 1, k);
      ProtocolAdds(BuiltProtocols(history, n - 1), history[n - 1].protocol, n - 1, k);
    }
  }

  lemma ProtocolAdds(entries: map<string, ProtocolEntry>, cell: Cell, row: nat, k: string)
    ensures ProtocolEntryRows(WithProtocol(entries, cell, row), k)
            == ProtocolEntryRows(entries, k) + if ProtocolIndexable(cell) && cell.key == k then [row] else []
  {
  }

  lemma ProtocolSet(history: seq<Record>, k: string)
    ensures ToSet(ProtocolEntryRows(BuiltProtocols(history, |history|), k)) == ProtocolRows(history, k)
  {
    ProtocolsAre(history, |history|, k);
    forall row: nat ensures row in ProtocolRows(history, k) <==> HasProtocol(history, |history|, k, row) {
    }
  }

  lemma DirectionalSet(history: seq<Record>, kind: Kind, k: string)
    requires HistoryOk(history)
    ensures var ix := Built(history, kind, |history|);
            ToSet(RowsOf(ix, k, true)) + ToSet(RowsOf(ix, k, false)) == DirectionalRows(history, kind, k)
  {
    BuiltFits(history, kind, |history|, k);
  }

  /** A cache that is not empty holds the candidates under the present filters. */
  predicate CacheFits(history: seq<Record>, kind: Kind, filters: Filters, cache: Option<seq<Suggestion>>) {
    cache.Some? ==> cache.value == Answer(history, kind, filters)
  }

  predicate Offerable(history: seq<Record>, kind: Kind, filters: Filters, s: Suggestion) {
    LeavesRow(history, kind, filters, s.value) && Choosable(s.value)
  }

  /** Whatever an open list offers leaves a row visible. */
  predicate OpenFits(history: seq<Record>, kind: Kind, filters: Filters, open: seq<Suggestion>) {
    forall s :: s in open ==> Offerable(history, kind, filters, s)
  }

  lemma MatchingFits(history: seq<Record>, kind: Kind, filters: Filters, query: Cell)
    requires HistoryOk(history) && Settable(history, filters)
    ensures OpenFits(history, kind, filters, Matching(Answer(history, kind, filters), query))
  {
    MatchingIn(Answer(history, kind, filters), query);
    forall s | s in Matching(Answer(history, kind, filters), query) ensures Offerable(history, kind, filters, s) {
      SuggestionLeavesRow(history, kind, filters, s);
    }
  }

  lemma ClearingFits(history: seq<Record>, kind: Kind, filters: Filters, open: seq<Suggestion>, cleared: Kind)
    requires OpenFits(history, kind, filters, open)
    ensures OpenFits(history, kind, WithFilter(filters, cleared, EMPTY), open)
  {
    forall s | s in open ensures Offerable(history, kind, WithFilter(filters, cleared, EMPTY), s) {
      assert Offerable(history, kind, filters, s);
      ClearingLeavesRow(history, kind, filters, s.value, cleared);
    }
  }

  /** `applyFilters` shows at least one row of the history. */
  predicate ShowsRow(history: seq<Record>, filters: Filters) {
    exists i :: 0 <= i < |history| && MatchesAll(history[i], filters)
  }

  lemma SelectingFits(history: seq<Record>, kind: Kind, filters: Filters, open: seq<Suggestion>, s: Suggestion)
    requires Settable(history, filters) && OpenFits(history, kind, filters, open) && s in open
    ensures Settable(history, WithFilter(filters, kind, s.value))
    ensures ShowsRow(history, WithFilter(filters, kind, s.value))
  {
    assert Offerable(history, kind, filters, s);
    var i: nat :| i < |history| && MatchesAll(history[i], WithFilter(filters, kind, s.value));
  }

  /** The rows that are in all the sets, found by walking the smallest. */
  function Common(sets: seq<set<nat>>): set<nat>
    requires sets != []
  {
    set row | row in sets[0] && forall j :: 1 <= j < |sets| ==> row in sets[j]
  }

  lemma CommonOf(a: set<nat>, b: set<nat>)
    ensures Common([a]) == a && Common([a, b]) == a * b == Common([b, a])
  {
    assert forall row :: row in Common([a, b]) ==> row in [a, b][1];
    assert forall row :: row in Common([b, a]) ==> row in [b, a][1];
  }

  // ----- the part of the state that events change -----

  datatype Ui = Ui(
    filters: Filters, ipCache: Option<seq<Suggestion>>, portCache: Option<seq<Suggestion>>,
    ipOpen: seq<Suggestion>, portOpen: seq<Suggestion>)

  function OpenIn(u: Ui, kind: Kind): seq<Suggestion> {
    if kind.Ip? then u.ipOpen else u.portOpen
  }

  function Closed(u: Ui, kind: Kind): Ui {
    if kind.Ip? then u.(ipOpen := []) else u.(portOpen := [])
  }

  /** Caches are right, and open lists only offer what leaves a row visible. */
  ghost predicate Sound(history: seq<Record>, u: Ui) {
    && Settable(history, u.filters)
    && CacheFits(history, Ip, u.filters, u.ipCache) && CacheFits(history, Port, u.filters, u.portCache)
    && OpenFits(history, Ip, u.filters, u.ipOpen) && OpenFits(history, Port, u.filters, u.portOpen)
  }

  /** A new filter drops both caches and closes both lists. */
  function Refiltered(filters: Filters): Ui {
    Ui(filters, None, None, [], [])
  }

  lemma RefilteredSound(history: seq<Record>, filters: Filters)
    requires Settable(history, filters)
    ensures Sound(history, Refiltered(filters))
  {
  }

  lemma SelectSound(history: seq<Record>, u: Ui, kind: Kind, s: Suggestion)
    requires Sound(history, u) && s in OpenIn(u, kind)
    ensures Sound(history, Refiltered(WithFilter(u.filters, kind, s.value)))
    ensures ShowsRow(history, WithFilter(u.filters, kind, s.value))
  {
    SelectingFits(history, kind, u.filters, OpenIn(u, kind), s);
    RefilteredSound(history, WithFilter(u.filters, kind, s.value));
  }

  lemma ProtocolSound(history: seq<Record>, u: Ui, value: Cell)
    requires Sound(history, u) && (value == EMPTY || value in ProtocolOptions(history, |history|))
    ensures Sound(history, Refiltered(u.filters.(protocol := value)))
  {
    RefilteredSound(history, u.filters.(protocol := value));
  }

  /** The input event: text that differs from the selected value clears the filter. */
  function Typed(u: Ui, kind: Kind, text: string): Ui {
    var closed := Closed(u, kind);
    if FilterOf(u.filters, kind).text != "" && text != FilterOf(u.filters, kind).text
    then closed.(filters := WithFilter(u.filters, kind, EMPTY), ipCache := None, portCache := None)
    else closed
  }

  lemma ClosedSound(history: seq<Record>, u: Ui, kind: Kind)
    requires Sound(history, u)
    ensures Sound(history, Closed(u, kind))
  {
  }

  lemma TypedSound(history: seq<Record>, u: Ui, kind: Kind, text: string)
    requires Sound(history, u)
    ensures Sound(history, Typed(u, kind, text))
  {
    ClosedSound(history, u, kind);
    ClearingFits(history, Ip, u.filters, Closed(u, kind).ipOpen, kind);
    ClearingFits(history, Port, u.filters, Closed(u, kind).portOpen, kind);
  }

  /** The loop of `candidateValues`. */
  method CollectFrom(ix: Index, eligible: Option<set<nat>>) returns (found: seq<Suggestion>)
    requires forall k :: k in ix.order ==> k in ix.at
    ensures found == Candidates(ix, ix.order, eligible)
  {
    found := [];
    for i := 0 to |ix.order|
      invariant found == Candidates(ix, ix.order[..i], eligible)
    {
      var c := ix.at[ix.order[i]];
      assert ix.order[..i + 1][..i] == ix.order[..i];
      var source, destination := HasEligible(c.sourceRows, eligible), HasEligible(c.destinationRows, eligible);
      if source || destination {
        found := found + [Suggestion(c.value, source, destination)];
      }
    }
    assert ix.order[..|ix.order|] == ix.order;
  }

  class FilterUi {
    const history: seq<Record>
    var ipIndex: Index
    var portIndex: Index
    var protocols: map<string, ProtocolEntry>
    var options: seq<Cell>
    var rowSets: map<(Kind, string), set<nat>>        // the memoised rowSet of the directional candidates
    var protocolSets: map<string, set<nat>>           // the memoised rowSet of the protocol candidates
    var filters: Filters
    var ipCache: Option<seq<Suggestion>>
    var portCache: Option<seq<Suggestion>>
    var ipOpen: seq<Suggestion>
    var portOpen: seq<Suggestion>

    function IndexOf(kind: Kind): Index
      reads this
    {
      if kind.Ip? then ipIndex else portIndex
    }

    function CacheOf(kind: Kind): Option<seq<Suggestion>>
      reads this
    {
      if kind.Ip? then ipCache else portCache
    }

    ghost predicate Indexed()
      reads this`ipIndex, this`portIndex, this`protocols, this`options
    {
      HistoryOk(history) && IndexedUpTo(|history|)
    }

    ghost predicate Memoised()
      reads this`rowSets, this`protocolSets
    {
      && (forall kind, k :: (kind, k) in rowSets ==> rowSets[(kind, k)] == DirectionalRows(history, kind, k))
      && (forall k :: k in protocolSets ==> protocolSets[k] == ProtocolRows(history, k))
    }

    function View(): Ui
      reads this`filters, this`ipCache, this`portCache, this`ipOpen, this`portOpen
    {
      Ui(filters, ipCache, portCache, ipOpen, portOpen)
    }

    ghost predicate Valid()
      reads this
    {
      Indexed() && Memoised() && Sound(history, View())
    }

    constructor (history: seq<Record>)
      requires HistoryOk(history)
      ensures this.history == history && Valid() && filters == UNFILTERED
    {
      this.history := history;
      ipIndex, portIndex, protocols, options := Index([], map[]), Index([], map[]), map[], [];
      rowSets, protocolSets := map[], map[];
      filters := UNFILTERED;
      ipCache, portCache, ipOpen, portOpen := None, None, [], [];
      new;
      BuildIndexes();
    }

    /** The indexes after the first `n` rows. */
    predicate IndexedUpTo(n: nat)
      requires n <= |history|
      reads this`ipIndex, this`portIndex, this`protocols, this`options
    {
      && ipIndex == Built(history, Ip, n) && portIndex == Built(history, Port, n)
      && protocols == BuiltProtocols(history, n) && options == ProtocolOptions(history, n)
    }

    /** `historyRecords.forEach`. */
    method BuildIndexes()
      requires IndexedUpTo(0)
      modifies this`ipIndex, this`portIndex, this`protocols, this`options
      ensures IndexedUpTo(|history|)
    {
      for row := 0 to |history|
        invariant IndexedUpTo(row)
      {
        AddRecord(row);
      }
    }

    method AddRecord(row: nat)
      requires row < |history| && IndexedUpTo(row)
      modifies this`ipIndex, this`portIndex, this`protocols, this`options
      ensures IndexedUpTo(row + 1)
    {
      var record := history[row];
      AddDirectionalIndex(Ip, record.sourceIp, true, row);
      AddDirectionalIndex(Ip, record.destinationIp, false, row);
      AddDirectionalIndex(Port, record.sourcePort, true, row);
      AddDirectionalIndex(Port, record.destinationPort, false, row);
      AddProtocolIndex(record.protocol, row);
    }

    method AddDirectionalIndex(kind: Kind, cell: Cell, source: bool, row: nat)
      modifies this`ipIndex, this`portIndex
      ensures ipIndex == if kind.Ip? then Added(old(ipIndex), cell, source, row) else old(ipIndex)
      ensures portIndex == if kind.Port? then Added(old(portIndex), cell, source, row) else old(portIndex)
    {
      var clean, key := cell.clean, cell.key;
      if key == "" || clean == "" || clean == "-" {
        return;
      }
      var ix := IndexOf(kind);
      if key !in ix.at {
        ix := Index(ix.order + [key], ix.at[key := Candidate(Cleaned(cell), [], [])]);
      }
      var c := ix.at[key];
      c := if source then c.(sourceRows := c.sourceRows + [row]) else c.(destinationRows := c.destinationRows + [row]);
      ix := ix.(at := ix.at[key := c]);
      if kind.Ip? {
        ipIndex := ix;
      } else {
        portIndex := ix;
      }
    }

    method AddProtocolIndex(cell: Cell, row: nat)
      modifies this`protocols, this`options
      ensures protocols == WithProtocol(old(protocols), cell, row)
      ensures options == WithOption(old(options), cell)
    {
      var key := cell.key;
      if key == "" || cell.text == "" || cell.text == "-" {
        return;
      }
      if !HasKey(options, key) {
        options := options + [cell];
      }
      var entry := if key in protocols then protocols[key] else ProtocolEntry(cell, []);
      protocols := protocols[key := entry.(rows := entry.rows + [row])];
    }

    /** `directionalRowSet` of the candidate of a key; no candidate gives the empty set. */
    method DirectionalRowSet(kind: Kind, key: string) returns (rows: set<nat>)
      requires Indexed() && Memoised()
      modifies this`rowSets
      ensures rows == DirectionalRows(history, kind, key) && Memoised()
    {
      DirectionalSet(history, kind, key);
      if key !in IndexOf(kind).at {
        return {};
      }
      if (kind, key) !in rowSets {
        var c := IndexOf(kind).at[key];
        rowSets := rowSets[(kind, key) := ToSet(c.sourceRows) + ToSet(c.destinationRows)];
      }
      rows := rowSets[(kind, key)];
    }

    /** `protocolRowSet`. */
    method ProtocolRowSet(key: string) returns (rows: set<nat>)
      requires Indexed() && Memoised()
      modifies this`protocolSets
      ensures rows == ProtocolRows(history, key) && Memoised()
    {
      ProtocolSet(history, key);
      if key !in protocols {
        return {};
      }
      if key !in protocolSets {
        protocolSets := protocolSets[key := ToSet(protocols[key].rows)];
      }
      rows := protocolSets[key];
    }

    /** `eligibleRowsForOtherFilters`. */
    method EligibleRows(kind: Kind) returns (eligible: Option<set<nat>>)
      requires Indexed() && Memoised()
      modifies this`rowSets, this`protocolSets
      ensures eligible == Eligible(history, kind, filters) && Memoised()
    {
      var other := FilterOf(filters, Other(kind));
      var sets: seq<set<nat>> := [];
      if other.text != "" {
        var rows := DirectionalRowSet(Other(kind), other.key);
        sets := sets + [rows];
      }
      if filters.protocol.text != "" {
        var rows := ProtocolRowSet(filters.protocol.key);
        sets := sets + [rows];
      }
      if sets == [] {
        return None;
      }
      CommonOf(sets[0], sets[|sets| - 1]);
      if |sets| == 2 && |sets[1]| < |sets[0]| {
        sets := [sets[1], sets[0]];
      }
      assert sets == if |sets| == 1 then [sets[0]] else [sets[0], sets[1]];
      eligible := Some(Common(sets));
    }

    /** `candidateValues`: from the cache, or from the index and then cached. */
    method CandidateValues(kind: Kind) returns (found: seq<Suggestion>)
      requires Valid()
      modifies this`rowSets, this`protocolSets, this`ipCache, this`portCache
      ensures Valid() && found == Answer(history, kind, filters) && CacheOf(kind) == Some(found)
    {
      if CacheOf(kind).Some? {
        return CacheOf(kind).value;
      }
      var eligible := EligibleRows(kind);
      found := Collect(kind, eligible);
      if kind.Ip? {
        ipCache := Some(found);
      } else {
        portCache := Some(found);
      }
    }

    method Collect(kind: Kind, eligible: Option<set<nat>>) returns (found: seq<Suggestion>)
      requires Indexed() && eligible == Eligible(history, kind, filters)
      ensures found == Answer(history, kind, filters)
    {
      BuiltOrder(history, kind, |history|);
      found := CollectFrom(IndexOf(kind), eligible);
    }

    /** `renderSuggestions`: what the list of one input offers. */
    method RenderSuggestions(kind: Kind, query: Cell)
      requires Valid()
      modifies this
      ensures Valid() && filters == old(filters)
      ensures OpenIn(View(), kind) == Matching(Answer(history, kind, filters), query)
    {
      var candidates := CandidateValues(kind);
      var offered := Matching(candidates, query);
      MatchingFits(history, kind, filters, query);
      if kind.Ip? {
        ipOpen := offered;
      } else {
        portOpen := offered;
      }
    }

    method InvalidateCaches()
      modifies this`ipCache, this`portCache
      ensures ipCache == portCache == None
    {
      ipCache := None;
      portCache := None;
    }

    method CloseAll()
      modifies this`ipOpen, this`portOpen
      ensures ipOpen == portOpen == []
    {
      ipOpen := [];
      portOpen := [];
    }

    // The events below do not touch the index or its memo, so of `Valid` they only have to keep `Sound`.

    /** `selectCandidate`, of a value that an open list offers: a row of the history stays visible. */
    method SelectCandidate(kind: Kind, s: Suggestion)
      requires Sound(history, View()) && s in OpenIn(View(), kind)
      modifies this`filters, this`ipCache, this`portCache, this`ipOpen, this`portOpen
      ensures Sound(history, View()) && View() == Refiltered(WithFilter(old(filters), kind, s.value))
      ensures ShowsRow(history, filters)
    {
      SelectSound(history, View(), kind, s);
      filters := WithFilter(filters, kind, s.value);
      InvalidateCaches();
      CloseAll();
    }

    method InputChanged(kind: Kind, text: string)
      requires Sound(history, View())
      modifies this`filters, this`ipCache, this`portCache, this`ipOpen, this`portOpen
      ensures Sound(history, View()) && View() == Typed(old(View()), kind, text)
    {
      TypedSound(history, View(), kind, text);
      if kind.Ip? {
        ipOpen := [];
      } else {
        portOpen := [];
      }
      if FilterOf(filters, kind).text != "" && text != FilterOf(filters, kind).text {
        filters := WithFilter(filters, kind, EMPTY);
        InvalidateCaches();
      }
    }

    /** The change event of the protocol selector. */
    method SelectProtocol(value: Cell)
      requires Sound(history, View()) && (value == EMPTY || value in ProtocolOptions(history, |history|))
      modifies this`filters, this`ipCache, this`portCache, this`ipOpen, this`portOpen
      ensures Sound(history, View()) && View() == Refiltered(old(filters).(protocol := value))
    {
      ProtocolSound(history, View(), value);
      filters := filters.(protocol := value);
      InvalidateCaches();
      CloseAll();
    }

    method Reset()
      requires Sound(history, View())
      modifies this`filters, this`ipCache, this`portCache, this`ipOpen, this`portOpen
      ensures Sound(history, View()) && View() == Refiltered(UNFILTERED)
    {
      RefilteredSound(history, UNFILTERED);
      filters := UNFILTERED;
      InvalidateCaches();
      CloseAll();
    }

    /** In every reachable state a cache that is not empty is what a scan of the history finds. */
    lemma CacheIsScan(kind: Kind)
      requires Valid() && CacheOf(kind).Some? && !DashClash(history)
      ensures CacheOf(kind).value == Scan(history, kind, filters, KeyOrder(history, kind, |history|))
    {
      AnswerIsScan(history, kind, filters);
    }
  }
}
