/**
 Choosing the release to keep among several owned candidates
 (`select_release_candidates` in tools/continuous_release_state.py:311-409).
 */
module ReleaseSelection {
  import opened Wrappers
  import opened Release

  datatype PublishedAt = Never | At(time: nat) | BadTimestamp

  /** An asset of the service's answer. An upload that never finished is in the state "starter". */
  datatype RawAsset =
    | Starter(name: AssetName, id: int, blank: bool)
    | Uploaded(asset: Asset, wellFormed: bool)

  datatype Document = Document(
    id: int, publishedAt: PublishedAt, draft: bool, prerelease: bool, tagged: bool, wellFormed: bool,
    body: Body, assets: seq<RawAsset>)

  datatype SelectionError =
    | NoCandidates | BadId | BadTime | NotWorkflowOwned | BadStarter | BadMetadata | NotContinuous | BadNames
    | ManyPublished | ManyHistorical | ManyNonEmpty | NotDisposable | NoDurableMarker | DuplicateStarter

  datatype Selection = Selection(keeper: int, cleanup: set<int>, cleanupAssets: set<int>)

  // ----- one candidate -----

  function Retained(assets: seq<RawAsset>): seq<RawAsset> {
    if assets == [] then []
    else
      var rest := Retained(assets[..|assets| - 1]);
      if assets[|assets| - 1].Uploaded? then rest + [assets[|assets| - 1]] else rest
  }

  function StarterIds(assets: seq<RawAsset>): seq<int> {
    if assets == [] then []
    else
      var rest := StarterIds(assets[..|assets| - 1]);
      if assets[|assets| - 1].Starter? then rest + [assets[|assets| - 1].id] else rest
  }

  /** A starter asset may be deleted only from a draft, and only when it is an empty upload of the workflow. */
  predicate DisposableStarter(a: RawAsset, draft: bool) {
    a.Starter? ==> draft && OwnedName(a.name) && a.id > 0 && a.blank
  }

  function RetainedNames(assets: seq<RawAsset>): seq<AssetName> {
    seq(|Retained(assets)|, i requires 0 <= i < |Retained(assets)| =>
      var a := Retained(assets)[i]; if a.Uploaded? then a.asset.name else a.name)
  }

  predicate Sound(d: Document) {
    && d.id > 0 && !d.publishedAt.BadTimestamp?
    && HasLegacyOwnership(d.body)
    && (forall i :: 0 <= i < |d.assets| ==> DisposableStarter(d.assets[i], d.draft))
    && d.wellFormed && (forall i :: 0 <= i < |d.assets| ==> d.assets[i].Uploaded? ==> d.assets[i].wellFormed)
    && d.tagged && d.prerelease
    && OwnedNames(RetainedNames(d.assets), d.draft)
  }

  predicate WasPublished(d: Document) {
    !d.publishedAt.Never?
  }

  predicate HoldsAssets(d: Document) {
    Retained(d.assets) != []
  }

  /** What may be thrown away beside the keeper. */
  predicate Disposable(d: Document) {
    d.draft && !HoldsAssets(d) && !WasPublished(d)
  }

  predicate Marked(d: Document) {
    ParseState(d.body).Ok? && ParseState(d.body).value.Some?
  }

  // ----- the specification -----

  predicate DistinctIds(documents: seq<Document>) {
    forall i, j :: 0 <= i < j < |documents| ==> documents[i].id != documents[j].id
  }

  predicate DistinctInts(s: seq<int>) {
    forall i, j :: 0 <= i < j < |s| ==> s[i] != s[j]
  }

  function AllStarters(documents: seq<Document>): seq<int> {
    if documents == [] then []
    else AllStarters(documents[..|documents| - 1]) + StarterIds(documents[|documents| - 1].assets)
  }

  /** The keeper is published; if nothing is, it was published once; if nothing was, it holds assets; if nothing
      does, it has the smallest ID. */
  predicate IsKeeper(s: set<Document>, k: Document) {
    && k in s
    && if exists d :: d in s && !d.draft then !k.draft
       else if exists d :: d in s && WasPublished(d) then WasPublished(k)
       else if exists d :: d in s && HoldsAssets(d) then HoldsAssets(k)
       else forall d :: d in s ==> k.id <= d.id
  }

  /** There is a keeper, and all the others may go. */
  predicate Choosable(s: set<Document>, k: Document) {
    IsKeeper(s, k) && forall d :: d in s && d != k ==> Disposable(d) && Marked(d)
  }

  function IdsBeside(documents: seq<Document>, k: Document): set<int> {
    set d | d in documents && d != k :: d.id
  }

  function Ints(s: seq<int>): set<int> {
    set x | x in s
  }

  /** Everything about the candidates but the choice of the keeper. */
  predicate SoundAll(documents: seq<Document>) {
    && documents != [] && DistinctIds(documents) && (forall d :: d in documents ==> Sound(d))
    && DistinctInts(AllStarters(documents))
  }

  ghost predicate Accepted(documents: seq<Document>, sel: Selection) {
    && SoundAll(documents)
    && exists k :: Choosable(SetOf(documents), k)
        && sel == Selection(k.id, IdsBeside(documents, k), Ints(AllStarters(documents)))
  }

  function SetOf(documents: seq<Document>): set<Document> {
    set d | d in documents
  }

  // ----- the loops of the source -----

  method CheckAssets(document: Document) returns (r: Result<(seq<RawAsset>, seq<int>), SelectionError>)
    ensures r.Ok? <==> forall i :: 0 <= i < |document.assets| ==> DisposableStarter(document.assets[i], document.draft)
    ensures r.Ok? ==> r.value == (Retained(document.assets), StarterIds(document.assets))
  {
    var retained: seq<RawAsset>, starters: seq<int> := [], [];
    for i := 0 to |document.assets|
      invariant retained == Retained(document.assets[..i]) && starters == StarterIds(document.assets[..i])
      invariant forall j :: 0 <= j < i ==> DisposableStarter(document.assets[j], document.draft)
    {
      var asset := document.assets[i];
      assert document.assets[..i + 1][..i] == document.assets[..i];
      if asset.Uploaded? {
        retained := retained + [asset];
        continue;
      }
      if !document.draft || !OwnedName(asset.name) || asset.id <= 0 || !asset.blank {
        return Err(BadStarter);
      }
      starters := starters + [asset.id];
    }
    assert document.assets[..|document.assets|] == document.assets;
    r := Ok((retained, starters));
  }

  /** One turn of the first loop. */
  method CheckCandidate(document: Document, seen: set<int>) returns (r: Result<seq<int>, SelectionError>)
    ensures r.Ok? <==> Sound(document) && document.id !in seen
    ensures r.Ok? ==> r.value == StarterIds(document.assets)
  {
    if document.id <= 0 || document.id in seen {
      return Err(BadId);
    }
    if document.publishedAt.BadTimestamp? {
      return Err(BadTime);
    }
    if !HasLegacyOwnership(document.body) {
      return Err(NotWorkflowOwned);
    }
    var checked := CheckAssets(document);
    if checked.Err? {
      return Err(checked.error);
    }
    if !document.wellFormed
       || exists i :: 0 <= i < |document.assets| && document.assets[i].Uploaded? && !document.assets[i].wellFormed {
      return Err(BadMetadata);
    }
    if !document.tagged || !document.prerelease {
      return Err(NotContinuous);
    }
    if !OwnedNames(RetainedNames(document.assets), document.draft) {
      return Err(BadNames);
    }
    r := Ok(checked.value.1);
  }

  function Filter(documents: seq<Document>, keep: Document -> bool): seq<Document> {
    if documents == [] then []
    else
      var rest := Filter(documents[..|documents| - 1], keep);
      if keep(documents[|documents| - 1]) then rest + [documents[|documents| - 1]] else rest
  }

  lemma {:induction false} FilterSound(documents: seq<Document>, keep: Document -> bool)
    ensures forall d :: d in Filter(documents, keep) <==> d in documents && keep(d)
    ensures DistinctIds(documents) ==> DistinctIds(Filter(documents, keep))
  {
    if documents != [] {
      var init, last := documents[..|documents| - 1], documents[|documents| - 1];
      FilterSound(init, keep);
      assert documents == init + [last];
      if DistinctIds(documents) {
        var kept := Filter(init, keep);
        forall i | 0 <= i < |kept| ensures kept[i].id != last.id {
          assert kept[i] in init;
        }
      }
    }
  }

  /** `min(candidates, key=id)`. */
  method Smallest(documents: seq<Document>) returns (k: Document)
    requires documents != []
    ensures k in documents && forall d :: d in documents ==> k.id <= d.id
  {
    k := documents[0];
    for i := 1 to |documents|
      invariant k in documents && forall j :: 0 <= j < i ==> k.id <= documents[j].id
    {
      if documents[i].id < k.id {
        k := documents[i];
      }
    }
  }

  ghost predicate Many(documents: seq<Document>) {
    exists a, b :: a in documents && b in documents && a != b
  }

  lemma ManyWhenLong(documents: seq<Document>)
    requires DistinctIds(documents)
    ensures |documents| > 1 <==> Many(documents)
  {
    if |documents| > 1 {
      assert documents[0] in documents && documents[1] in documents && documents[0].id != documents[1].id;
    }
  }

  /** The choice of the keeper. Whenever it fails, two candidates could not be told apart. */
  method ChooseKeeper(candidates: seq<Document>) returns (r: Result<Document, SelectionError>)
    requires candidates != [] && DistinctIds(candidates)
    ensures r.Ok? ==> IsKeeper(SetOf(candidates), r.value)
    ensures r.Err? ==> forall k :: k in candidates ==> !Choosable(SetOf(candidates), k)
  {
    var published := Filter(candidates, (d: Document) => !d.draft);
    FilterSound(candidates, (d: Document) => !d.draft);
    ManyWhenLong(published);
    if |published| > 1 {
      Crowded(candidates, published);
      return Err(ManyPublished);
    }
    if published != [] {
      assert published[0] in published;
      return Ok(published[0]);
    }
    var historical := Filter(candidates, WasPublished);
    FilterSound(candidates, WasPublished);
    ManyWhenLong(historical);
    if |historical| > 1 {
      Crowded(candidates, historical);
      return Err(ManyHistorical);
    }
    assert forall d :: d in candidates ==> d !in published ==> d.draft;
    if historical != [] {
      assert historical[0] in historical;
      return Ok(historical[0]);
    }
    assert forall d :: d in candidates ==> d !in historical ==> !WasPublished(d);
    var nonEmpty := Filter(candidates, HoldsAssets);
    FilterSound(candidates, HoldsAssets);
    ManyWhenLong(nonEmpty);
    if |nonEmpty| > 1 {
      Crowded(candidates, nonEmpty);
      return Err(ManyNonEmpty);
    }
    if nonEmpty != [] {
      assert nonEmpty[0] in nonEmpty;
      return Ok(nonEmpty[0]);
    }
    assert forall d :: d in candidates ==> d !in nonEmpty ==> !HoldsAssets(d);
    var k := Smallest(candidates);
    r := Ok(k);
  }

  /** Two candidates that are not disposable: whichever is kept, the other blocks the choice. */
  lemma Crowded(candidates: seq<Document>, several: seq<Document>)
    requires Many(several) && forall d :: d in several ==> d in candidates && !Disposable(d)
    ensures forall k :: k in candidates ==> !Choosable(SetOf(candidates), k)
  {
    var a, b :| a in several && b in several && a != b;
    forall k | k in candidates ensures !Choosable(SetOf(candidates), k) {
      var other := if k == a then b else a;
      assert other in SetOf(candidates) && other != k;
    }
  }

  /** The second loop: everything but the keeper must be disposable. */
  method Sweep(candidates: seq<Document>, keeper: Document) returns (r: Result<set<int>, SelectionError>)
    requires DistinctIds(candidates) && keeper in candidates
    ensures r.Ok? <==> forall d :: d in candidates && d != keeper ==> Disposable(d) && Marked(d)
    ensures r.Ok? ==> r.value == IdsBeside(candidates, keeper)
  {
    var cleanup: set<int> := {};
    for i := 0 to |candidates|
      invariant forall j :: 0 <= j < i && candidates[j] != keeper ==> Disposable(candidates[j]) && Marked(candidates[j])
      invariant cleanup == set j | 0 <= j < i && candidates[j] != keeper :: candidates[j].id
    {
      var d := candidates[i];
      assert d.id == keeper.id <==> d == keeper;
      if d.id == keeper.id {
        continue;
      }
      if !d.draft || HoldsAssets(d) || WasPublished(d) {
        assert d in candidates && d != keeper && !Disposable(d);
        return Err(NotDisposable);
      }
      if !Marked(d) {
        assert d in candidates && d != keeper;
        return Err(NoDurableMarker);
      }
      cleanup := cleanup + {d.id};
    }
    assert cleanup == IdsBeside(candidates, keeper) by {
      forall x | x in IdsBeside(candidates, keeper) ensures x in cleanup {
        var d :| d in candidates && d != keeper && d.id == x;
        var j :| 0 <= j < |candidates| && candidates[j] == d;
        assert candidates[j].id == x;
      }
    }
    r := Ok(cleanup);
  }

  /** The first loop: every candidate is checked, and the unfinished uploads are collected. */
  method CheckAll(documents: seq<Document>) returns (r: Result<seq<int>, SelectionError>)
    ensures r.Ok? <==> DistinctIds(documents) && forall d :: d in documents ==> Sound(d)
    ensures r.Ok? ==> r.value == AllStarters(documents)
  {
    var starters: seq<int> := [];
    var seen: set<int> := {};
    for i := 0 to |documents|
      invariant forall d :: d in documents[..i] ==> Sound(d)
      invariant seen == IdsOf(documents[..i]) && DistinctIds(documents[..i])
      invariant starters == AllStarters(documents[..i])
    {
      var checked := CheckCandidate(documents[i], seen);
      CheckedNext(documents, i);
      if checked.Err? {
        return Err(checked.error);
      }
      starters := starters + checked.value;
      seen := seen + {documents[i].id};
    }
    assert documents[..|documents|] == documents;
    r := Ok(starters);
  }

  function IdsOf(documents: seq<Document>): set<int> {
    set d | d in documents :: d.id
  }

  /** One more candidate: it is refused exactly when the list cannot be accepted because of it. */
  lemma CheckedNext(documents: seq<Document>, i: nat)
    requires i < |documents| && DistinctIds(documents[..i])
    ensures documents[..i + 1] == documents[..i] + [documents[i]]
    ensures AllStarters(documents[..i + 1]) == AllStarters(documents[..i]) + StarterIds(documents[i].assets)
    ensures IdsOf(documents[..i + 1]) == IdsOf(documents[..i]) + {documents[i].id}
    ensures documents[i].id !in IdsOf(documents[..i]) ==> DistinctIds(documents[..i + 1])
    ensures documents[i].id in IdsOf(documents[..i]) ==> !DistinctIds(documents)
    ensures documents[i] in documents
  {
    var before, d := documents[..i], documents[i];
    assert documents[..i + 1] == before + [d];
    StartersSnoc(before, d);
    if d.id in IdsOf(before) {
      var e :| e in before && e.id == d.id;
      var j :| 0 <= j < |before| && before[j] == e;
      assert documents[j].id == documents[i].id;
    } else {
      forall j | 0 <= j < i ensures documents[j].id != d.id {
        assert documents[j] in before;
      }
    }
  }

  /** `select_release_candidates`. */
  method Select(documents: seq<Document>) returns (r: Result<Selection, SelectionError>)
    ensures r.Ok? ==> Accepted(documents, r.value)
    ensures r.Err? ==> forall sel :: !Accepted(documents, sel)
  {
    if documents == [] {
      return Err(NoCandidates);
    }
    var starters := CheckAll(documents);
    if starters.Err? {
      assert !SoundAll(documents);
      return Err(starters.error);
    }
    var keeper := ChooseKeeper(documents);
    if keeper.Err? {
      NoneChosen(documents);
      return Err(keeper.error);
    }
    var cleanup := Sweep(documents, keeper.value);
    if cleanup.Err? {
      OnlyKeeper(documents, keeper.value);
      return Err(cleanup.error);
    }
    DistinctSize(starters.value);
    if |starters.value| != |Ints(starters.value)| {
      assert !SoundAll(documents);
      return Err(DuplicateStarter);
    }
    r := Ok(Selection(keeper.value.id, cleanup.value, Ints(starters.value)));
    assert Choosable(SetOf(documents), keeper.value);
  }

  lemma NoneChosen(documents: seq<Document>)
    requires forall k :: k in documents ==> !Choosable(SetOf(documents), k)
    ensures forall sel :: !Accepted(documents, sel)
  {
    forall k ensures !Choosable(SetOf(documents), k) {
      if k !in documents {
        assert k !in SetOf(documents);
      }
    }
  }

  /** A keeper that cannot be chosen leaves nothing to choose. */
  lemma OnlyKeeper(documents: seq<Document>, k: Document)
    requires documents != [] && DistinctIds(documents) && IsKeeper(SetOf(documents), k)
    requires !(forall d :: d in documents && d != k ==> Disposable(d) && Marked(d))
    ensures forall sel :: !Accepted(documents, sel)
  {
    IdsTell(documents);
    forall other | other in documents ensures !Choosable(SetOf(documents), other) {
      if Choosable(SetOf(documents), other) {
        KeepersAgree(SetOf(documents), k, other);
      }
    }
    NoneChosen(documents);
  }

  lemma IdsTell(documents: seq<Document>)
    requires DistinctIds(documents)
    ensures SetDistinct(SetOf(documents))
  {
  }

  predicate SetDistinct(s: set<Document>) {
    forall a, b :: a in s && b in s && a.id == b.id ==> a == b
  }

  lemma KeepersAgree(s: set<Document>, k: Document, other: Document)
    requires IsKeeper(s, k) && Choosable(s, other) && SetDistinct(s)
    ensures k == other
  {
  }

  lemma {:induction false} DistinctSize(s: seq<int>)
    ensures |s| >= |Ints(s)|
    ensures |s| == |Ints(s)| <==> DistinctInts(s)
  {
    if s != [] {
      var init, last := s[..|s| - 1], s[|s| - 1];
      DistinctSize(init);
      assert s == init + [last];
      assert Ints(s) == Ints(init) + {last};
      if last in init {
        var i :| 0 <= i < |init| && init[i] == last;
        assert s[i] == s[|s| - 1];
        assert Ints(init) + {last} == Ints(init);
      } else {
        assert DistinctInts(s) <==> DistinctInts(init);
      }
    }
  }

  // ----- what a selection means -----

  /** The selection partitions the candidates, and nothing published, previously published or holding assets is
      ever deleted. */
  lemma SelectionPartitions(documents: seq<Document>, sel: Selection)
    requires Accepted(documents, sel)
    ensures {sel.keeper} + sel.cleanup == set d | d in documents :: d.id
    ensures sel.keeper !in sel.cleanup
    ensures forall d :: d in documents && d.id in sel.cleanup ==> d.draft && !WasPublished(d) && !HoldsAssets(d)
  {
    var k :| Choosable(SetOf(documents), k)
             && sel == Selection(k.id, IdsBeside(documents, k), Ints(AllStarters(documents)));
    assert k in documents;
    IdsTell(documents);
    forall d | d in documents && d.id in sel.cleanup ensures d != k && Disposable(d) {
      var e :| e in documents && e != k && e.id == d.id;
      assert e in SetOf(documents) && d in SetOf(documents);
    }
  }

  lemma StartersSnoc(documents: seq<Document>, d: Document)
    ensures AllStarters(documents + [d]) == AllStarters(documents) + StarterIds(d.assets)
  {
    assert (documents + [d])[..|documents|] == documents;
  }

  lemma {:induction false} StartersAsMultiset(front: seq<Document>, d: Document, back: seq<Document>)
    ensures multiset(AllStarters(front + [d] + back))
            == multiset(AllStarters(front + back)) + multiset(StarterIds(d.assets))
  {
    if back == [] {
      StartersSnoc(front, d);
      assert front + [d] + back == front + [d] && front + back == front;
    } else {
      var init, last := back[..|back| - 1], back[|back| - 1];
      StartersAsMultiset(front, d, init);
      assert front + [d] + back == (front + [d] + init) + [last];
      assert front + back == (front + init) + [last];
      StartersSnoc(front + [d] + init, last);
      StartersSnoc(front + init, last);
    }
  }

  lemma TakeOut(s: seq<Document>, x: Document) returns (front: seq<Document>, back: seq<Document>)
    requires x in s
    ensures s == front + [x] + back && multiset(front + back) == multiset(s) - multiset{x}
  {
    var i :| 0 <= i < |s| && s[i] == x;
    front, back := s[..i], s[i + 1..];
    assert s == front + [x] + back;
  }

  /** Reordering the candidates reorders the starter assets. */
  lemma {:induction false} StartersPermute(a: seq<Document>, b: seq<Document>)
    requires multiset(a) == multiset(b)
    ensures multiset(AllStarters(a)) == multiset(AllStarters(b))
    decreases |a|
  {
    if a == [] {
      assert |multiset(b)| == 0;
    } else {
      var init, last := a[..|a| - 1], a[|a| - 1];
      assert a == init + [last];
      assert last in multiset(a);
      var front, back := TakeOut(b, last);
      assert multiset(init) == multiset(a) - multiset{last};
      StartersPermute(init, front + back);
      StartersAsMultiset(front, last, back);
      StartersSnoc(init, last);
    }
  }

  lemma DistinctByMultiset(s: seq<int>)
    ensures DistinctInts(s) <==> forall x :: multiset(s)[x] <= 1
  {
    if DistinctInts(s) {
      forall x ensures multiset(s)[x] <= 1 {
        CountDistinct(s, x);
      }
    } else {
      var i, j :| 0 <= i < j < |s| && s[i] == s[j];
      assert s == s[..j] + s[j..];
      assert s[i] in s[..j] && s[j] in s[j..];
      assert multiset(s)[s[i]] >= 2;
    }
  }

  lemma {:induction false} CountDistinct(s: seq<int>, x: int)
    requires DistinctInts(s)
    ensures multiset(s)[x] <= 1
  {
    if s != [] {
      var init, last := s[..|s| - 1], s[|s| - 1];
      assert s == init + [last];
      CountDistinct(init, x);
      if last == x {
        assert x !in init;
      }
    }
  }

  lemma DistinctIdsPermute(a: seq<Document>, b: seq<Document>)
    requires multiset(a) == multiset(b) && DistinctIds(a)
    ensures DistinctIds(b)
  {
    forall i, j | 0 <= i < j < |b| ensures b[i].id != b[j].id {
      if b[i].id == b[j].id {
        assert b[i] in multiset(b) && b[j] in multiset(b);
        assert b[i] == b[j] by {
          var k :| 0 <= k < |a| && a[k] == b[i];
          var l :| 0 <= l < |a| && a[l] == b[j];
        }
        assert b == b[..j] + b[j..];
        assert b[i] in b[..j] && b[j] in b[j..];
        assert multiset(b)[b[i]] >= 2;
        OnceEach(a, b[i]);
      }
    }
  }

  lemma {:induction false} OnceEach(a: seq<Document>, d: Document)
    requires DistinctIds(a)
    ensures multiset(a)[d] <= 1
  {
    if a != [] {
      var init, last := a[..|a| - 1], a[|a| - 1];
      assert a == init + [last];
      OnceEach(init, d);
      if last == d {
        assert d !in init;
      }
    }
  }

  lemma SameElements<T>(a: seq<T>, b: seq<T>)
    requires multiset(a) == multiset(b)
    ensures forall x :: x in a <==> x in b
  {
    forall x ensures x in a <==> x in b {
      assert x in a <==> x in multiset(a);
      assert x in b <==> x in multiset(b);
    }
  }

  lemma SoundPermute(a: seq<Document>, b: seq<Document>)
    requires multiset(a) == multiset(b) && SoundAll(a)
    ensures SoundAll(b) && SetOf(a) == SetOf(b) && Ints(AllStarters(a)) == Ints(AllStarters(b))
  {
    DistinctIdsPermute(a, b);
    StartersPermute(a, b);
    DistinctByMultiset(AllStarters(a));
    DistinctByMultiset(AllStarters(b));
    SameElements(a, b);
    SameElements(AllStarters(a), AllStarters(b));
    assert a[0] in b;
  }

  /** The order in which the service lists the candidates does not matter. */
  lemma OrderIndependent(a: seq<Document>, b: seq<Document>, sel: Selection)
    requires multiset(a) == multiset(b) && Accepted(a, sel)
    ensures Accepted(b, sel)
  {
    SoundPermute(a, b);
    SameElements(a, b);
    var k :| Choosable(SetOf(a), k) && sel == Selection(k.id, IdsBeside(a, k), Ints(AllStarters(a)));
    assert IdsBeside(a, k) == IdsBeside(b, k);
    assert Choosable(SetOf(b), k);
  }

  /** There is at most one selection. */
  lemma SelectionUnique(documents: seq<Document>, one: Selection, two: Selection)
    requires Accepted(documents, one) && Accepted(documents, two)
    ensures one == two
  {
    var k :| Choosable(SetOf(documents), k)
             && one == Selection(k.id, IdsBeside(documents, k), Ints(AllStarters(documents)));
    var l :| Choosable(SetOf(documents), l)
             && two == Selection(l.id, IdsBeside(documents, l), Ints(AllStarters(documents)));
    IdsTell(documents);
    KeepersAgree(SetOf(documents), k, l);
  }
}
