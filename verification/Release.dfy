/**
 The planner of the continuous release (tools/continuous_release_state.py).

 Commits and digests are compared without regard to case in the source; here they are numbers.  A release body
 is known by the ownership and state markers that it holds, and an asset name by the pattern that it matches.
 */
module Release {
  import opened Wrappers

  datatype Stage = Staging | AssetsVerified | Ready

  datatype Action =
    | CreateDraft | ValidateLegacy | HideAndMarkStaging | MarkStaging | ReplaceAssets | VerifyDraftDownload
    | MarkAssetsVerified | AlignTag | MarkReady | Publish | VerifyPublic | Done

  datatype AssetName =
    | Zip(version: nat) | Sidecar(version: nat) | Sbom(version: nat) | Temporary(n: nat) | Foreign(n: nat)

  datatype Asset = Asset(name: AssetName, size: nat, digest: nat)

  datatype Desired = Desired(commit: nat, version: nat, sha256: nat, size: nat)

  datatype Marker = Valid(stage: Stage, desired: Desired) | Malformed

  datatype Body = Body(owners: seq<nat>, markers: seq<Marker>)

  /** `tagged` says that the tag name is "continuous"; `tag` is the commit that this tag points to. */
  datatype Snapshot = Snapshot(
    draft: bool, prerelease: bool, body: Body, target: nat, tag: Option<nat>, assets: seq<Asset>, tagged: bool)

  datatype State = State(stage: Stage, desired: Desired)

  datatype Kind = SingleZip | LegacyTrio

  datatype Error =
    | NotPrerelease | WrongTagName | NotOwned | BadMarkers | BadAssets
    | ReadyZipMismatch | ReadyTagMismatch | ReadyTargetMismatch

  datatype Flags = Flags(legacyValidated: bool, authenticated: bool, publicVerified: bool)

  /** `render_body`. */
  function Rendered(stage: Stage, d: Desired): Body {
    Body([d.commit], [Valid(stage, d)])
  }

  predicate HasLegacyOwnership(b: Body) {
    |b.owners| == 1
  }

  /** `parse_state`. */
  function ParseState(b: Body): Result<Option<State>, Error> {
    if b.markers == [] then Ok(None)
    else if |b.markers| != 1 then Err(BadMarkers)
    else if b.markers[0].Malformed? then Err(BadMarkers)
    else if b.owners != [b.markers[0].desired.commit] then Err(BadMarkers)
    else Ok(Some(State(b.markers[0].stage, b.markers[0].desired)))
  }

  function Names(assets: seq<Asset>): seq<AssetName> {
    seq(|assets|, i requires 0 <= i < |assets| => assets[i].name)
  }

  predicate Distinct(names: seq<AssetName>) {
    forall i, j :: 0 <= i < j < |names| ==> names[i] != names[j]
  }

  function ZipsOf(names: seq<AssetName>): (zips: seq<AssetName>)
    ensures forall i :: 0 <= i < |zips| ==> zips[i].Zip? && zips[i] in names
  {
    if names == [] then []
    else (if names[0].Zip? then [names[0]] else []) + ZipsOf(names[1..])
  }

  /** `classify_asset_names`. */
  function Classify(names: seq<AssetName>): Result<Kind, Error> {
    if !Distinct(names) then Err(BadAssets)
    else if |names| == 1 then if names[0].Zip? then Ok(SingleZip) else Err(BadAssets)
    else if |names| == 3 then
      var zips := ZipsOf(names);
      if |zips| != 1 then Err(BadAssets)
      else
        var v := zips[0].version;
        if (set n | n in names) != {zips[0], Sidecar(v), Sbom(v)} then Err(BadAssets) else Ok(LegacyTrio)
    else Err(BadAssets)
  }

  predicate OwnedName(n: AssetName) {
    !n.Foreign?
  }

  /** `validate_owned_asset_names`. */
  predicate OwnedNames(names: seq<AssetName>, draft: bool) {
    if draft then forall i :: 0 <= i < |names| ==> OwnedName(names[i]) else Classify(names).Ok?
  }

  function ExactAsset(d: Desired): Asset {
    Asset(Zip(d.version), d.size, d.sha256)
  }

  predicate HasExactAsset(assets: seq<Asset>, d: Desired) {
    assets == [ExactAsset(d)]
  }

  function AssetsNamed(assets: seq<Asset>, n: AssetName): seq<Asset> {
    if assets == [] then []
    else (if assets[0].name == n then [assets[0]] else []) + AssetsNamed(assets[1..], n)
  }

  /** `_desired_from_snapshot` agrees with the marker. */
  predicate ZipAgrees(d: Desired, assets: seq<Asset>) {
    var found := AssetsNamed(assets, Zip(d.version));
    |found| == 1 && found[0] == ExactAsset(d)
  }

  function Published(s: Snapshot, state: Option<State>, d: Desired, flags: Flags): Result<Action, Error>
    requires Classify(Names(s.assets)).Ok?
  {
    var ready := state.Some? && state.value.stage.Ready?;
    if ready && !ZipAgrees(state.value.desired, s.assets) then Err(ReadyZipMismatch)
    else if ready && s.tag != Some(state.value.desired.commit) then Err(ReadyTagMismatch)
    else if ready && s.target != state.value.desired.commit then Err(ReadyTargetMismatch)
    else if state.Some? && !ready then Ok(HideAndMarkStaging)
    else if state.Some? && state.value.desired == d && HasExactAsset(s.assets, d) && s.tag == Some(d.commit)
    then Ok(if flags.publicVerified then Done else VerifyPublic)
    else if Classify(Names(s.assets)).value.LegacyTrio? && !flags.legacyValidated then Ok(ValidateLegacy)
    else Ok(HideAndMarkStaging)
  }

  function Drafted(s: Snapshot, state: Option<State>, d: Desired, flags: Flags): Action {
    if state.None? || state.value.desired != d then MarkStaging
    else if s.target != d.commit then MarkStaging
    else if state.value.stage.Staging? then
      if !HasExactAsset(s.assets, d) then ReplaceAssets
      else if flags.authenticated then MarkAssetsVerified else VerifyDraftDownload
    else if !HasExactAsset(s.assets, d) then MarkStaging
    else if state.value.stage.AssetsVerified? then if s.tag == Some(d.commit) then MarkReady else AlignTag
    else if s.tag != Some(d.commit) then AlignTag
    else Publish
  }

  /** `next_action`. */
  function NextAction(snapshot: Option<Snapshot>, d: Desired, flags: Flags): Result<Action, Error> {
    if snapshot.None? then Ok(CreateDraft)
    else
      var s := snapshot.value;
      if !s.prerelease then Err(NotPrerelease)
      else if !s.tagged then Err(WrongTagName)
      else if !HasLegacyOwnership(s.body) then Err(NotOwned)
      else if ParseState(s.body).Err? then Err(ParseState(s.body).error)
      else if !OwnedNames(Names(s.assets), s.draft) then Err(BadAssets)
      else if !s.draft then Published(s, ParseState(s.body).value, d, flags)
      else Ok(Drafted(s, ParseState(s.body).value, d, flags))
  }

  // ----- what the planner accepts -----

  /** The marker of a published release that says it is ready. */
  predicate SaysReady(b: Body, d: Desired) {
    b == Body([d.commit], [Valid(Ready, d)])
  }

  /** A workflow-owned prerelease: one owner, at most one marker, and that marker agrees with the owner. */
  predicate Owned(s: Snapshot) {
    && s.prerelease && s.tagged && |s.body.owners| == 1
    && (s.body.markers == []
        || (|s.body.markers| == 1 && s.body.markers[0].Valid? && s.body.markers[0].desired.commit == s.body.owners[0]))
  }

  /** What a published ready release promises: its tag, its target and its ZIP are those of the marker. */
  predicate Consistent(s: Snapshot, d: Desired) {
    s.tag == Some(d.commit) && s.target == d.commit && ZipAgrees(d, s.assets)
  }

  ghost predicate Acceptable(s: Snapshot) {
    && Owned(s) && OwnedNames(Names(s.assets), s.draft)
    && (!s.draft ==> forall d :: SaysReady(s.body, d) ==> Consistent(s, d))
  }

  /** Whether the planner raises depends on the release alone: never on the desired release or the flags. */
  lemma AcceptanceIff(s: Snapshot, d: Desired, flags: Flags)
    ensures NextAction(Some(s), d, flags).Ok? <==> Acceptable(s)
  {
    if Owned(s) && s.body.markers != [] {
      assert s.body.owners == [s.body.owners[0]];
      assert s.body.markers == [s.body.markers[0]];
      var m := s.body.markers[0];
      assert m.stage.Ready? ==> SaysReady(s.body, m.desired);
    }
    if NextAction(Some(s), d, flags).Ok? && ParseState(s.body).value.Some? {
      assert s.body.owners[0] == s.body.markers[0].desired.commit;
    }
  }

  /** The planner reports success only for a published release that is exactly the desired one. */
  lemma DoneMeansPublished(s: Snapshot, d: Desired, flags: Flags)
    requires NextAction(Some(s), d, flags) == Ok(Done)
    ensures !s.draft && SaysReady(s.body, d) && s.tag == Some(d.commit) && s.target == d.commit
    ensures s.assets == [ExactAsset(d)] && flags.publicVerified
  {
    assert s.body.markers == [s.body.markers[0]];
  }
}
