/**
 The workflow that performs the planner's actions, with crashes and restarts
 (tools/publish_continuous.ps1:139-177 and 355-593, driving tools/continuous_release_state.py:412-480).
 */
module ReleaseDriver {
  import opened Wrappers
  import opened Release

  /** The hosting service: the release, if there is one, and the commit of the tag. */
  datatype Remote = Remote(release: Option<Snapshot>, tag: Option<nat>)

  function Seen(r: Remote): Option<Snapshot> {
    if r.release.None? then None else Some(r.release.value.(tag := r.tag))
  }

  function Next(r: Remote, d: Desired, flags: Flags): Result<Action, Error> {
    NextAction(Seen(r), d, flags)
  }

  const FRESH := Flags(false, false, false)

  /** `Set-ReleaseMetadata`. */
  function WithMetadata(r: Remote, d: Desired, stage: Stage, draft: bool): Remote
    requires r.release.Some?
  {
    r.(release := Some(r.release.value.(
         draft := draft, prerelease := true, body := Rendered(stage, d), target := d.commit, tagged := true)))
  }

  function WithAssets(r: Remote, assets: seq<Asset>): Remote
    requires r.release.Some?
  {
    r.(release := Some(r.release.value.(assets := assets)))
  }

  /** What a completed action leaves on the hosting service. */
  function RemoteAfter(r: Remote, d: Desired, a: Action): Remote
    requires r.release.None? <==> a.CreateDraft?
  {
    match a
    case CreateDraft => r.(release := Some(Snapshot(true, true, Rendered(Staging, d), d.commit, None, [], true)))
    case HideAndMarkStaging => WithMetadata(r, d, Staging, true)
    case MarkStaging => WithMetadata(r, d, Staging, true)
    case ReplaceAssets => WithAssets(r, [ExactAsset(d)])
    case MarkAssetsVerified => WithMetadata(r, d, AssetsVerified, true)
    case AlignTag => r.(tag := Some(d.commit))
    case MarkReady => WithMetadata(r, d, Ready, true)
    case Publish => WithMetadata(r, d, Ready, false)
    case _ => r
  }

  /** The volatile flags of a run. */
  function FlagsAfter(flags: Flags, a: Action): Flags {
    match a
    case ValidateLegacy => flags.(legacyValidated := true)
    case HideAndMarkStaging => flags.(authenticated := false)
    case MarkStaging => flags.(authenticated := false)
    case ReplaceAssets => flags.(authenticated := false)
    case VerifyDraftDownload => flags.(authenticated := true)
    case VerifyPublic => flags.(publicVerified := true)
    case _ => flags
  }

  /** What an interrupted action may leave: nothing done, all done, or some assets already deleted. */
  datatype Interruption = Before | After | Deleted(assets: nat)

  function RemoteInterrupted(r: Remote, d: Desired, a: Action, i: Interruption): Remote
    requires r.release.None? <==> a.CreateDraft?
  {
    match i
    case Before => r
    case After => RemoteAfter(r, d, a)
    case Deleted(n) =>
      if a.ReplaceAssets? && n <= |r.release.value.assets| then WithAssets(r, r.release.value.assets[n..]) else r
  }

  /** `Set-ReleaseDraftState` in the failure handler; it may not get through. */
  function Hidden(r: Remote): Remote {
    if r.release.None? then r else r.(release := Some(r.release.value.(draft := true)))
  }

  // ----- runs -----

  /** One workflow run: the release that it wants, its volatile flags, and whether it changed anything yet. */
  datatype World = World(remote: Remote, desired: Desired, flags: Flags, started: bool)

  datatype Event =
    | Perform                                       // the next action completes
    | Crash(interruption: Interruption, hides: bool)  // the run ends inside it; the handler may hide the release
    | Restart(desired: Desired)                     // another run, perhaps for another commit

  /** The actions before which the script notes that it may have to hide the release. */
  predicate StartsTransaction(a: Action) {
    a.CreateDraft? || a.HideAndMarkStaging? || a.MarkStaging? || a.ReplaceAssets? || a.AlignTag? || a.Publish?
  }

  predicate Planned(w: World) {
    Next(w.remote, w.desired, w.flags).Ok?
  }

  function Plan(w: World): Action
    requires Planned(w)
  {
    Next(w.remote, w.desired, w.flags).value
  }

  lemma CreatesOnlyWhenAbsent(w: World)
    requires Planned(w)
    ensures w.remote.release.None? <==> Plan(w).CreateDraft?
  {
  }

  function Apply(w: World, e: Event): World
    requires Planned(w)
  {
    CreatesOnlyWhenAbsent(w);
    match e
    case Perform =>
      World(RemoteAfter(w.remote, w.desired, Plan(w)), w.desired, FlagsAfter(w.flags, Plan(w)),
            w.started || StartsTransaction(Plan(w)))
    case Crash(interruption, hides) =>
      var left := RemoteInterrupted(w.remote, w.desired, Plan(w), interruption);
      World(if hides && (w.started || StartsTransaction(Plan(w))) then Hidden(left) else left, w.desired, FRESH, false)
    case Restart(d) => World(w.remote, d, FRESH, false)
  }

  /** A run of the driver stops where the planner raises. */
  function Execute(w: World, run: seq<Event>): World
    decreases |run|
  {
    if run == [] || !Planned(w) then w else Execute(Apply(w, run[0]), run[1..])
  }

  ghost predicate RemoteAcceptable(r: Remote) {
    Seen(r).Some? ==> Acceptable(Seen(r).value)
  }

  // ----- every state of the driver is accepted -----

  lemma NamesOfSuffix(assets: seq<Asset>, n: nat)
    requires n <= |assets| && OwnedNames(Names(assets), true)
    ensures OwnedNames(Names(assets[n..]), true)
  {
    var rest := Names(assets[n..]);
    forall i | 0 <= i < |rest| ensures OwnedName(rest[i]) {
      assert rest[i] == Names(assets)[n + i];
    }
  }

  /** Names that may be published may also be kept in a draft. */
  lemma PublishableIsOwned(names: seq<AssetName>)
    requires Classify(names).Ok?
    ensures OwnedNames(names, true)
  {
    if |names| == 3 {
      forall i | 0 <= i < |names| ensures OwnedName(names[i]) {
        assert names[i] in (set n | n in names);
      }
    }
  }

  lemma HidingKeepsAcceptable(r: Remote)
    requires RemoteAcceptable(r)
    ensures RemoteAcceptable(Hidden(r))
  {
    if r.release.Some? && !r.release.value.draft {
      PublishableIsOwned(Names(r.release.value.assets));
    }
  }

  lemma ExactIsPublishable(d: Desired)
    ensures Classify(Names([ExactAsset(d)])).Ok? && OwnedNames(Names([ExactAsset(d)]), true)
    ensures ZipAgrees(d, [ExactAsset(d)])
  {
    assert Names([ExactAsset(d)])[0] == Zip(d.version);
    assert [ExactAsset(d)][1..] == [];
  }

  /** A draft written by the script is accepted, whatever its assets are called by the workflow. */
  lemma DraftAcceptable(r: Remote, d: Desired, stage: Stage)
    requires r.release.Some? && OwnedNames(Names(r.release.value.assets), true)
    ensures RemoteAcceptable(WithMetadata(r, d, stage, true))
  {
  }

  lemma OwnedWhenAcceptable(s: Snapshot)
    requires Acceptable(s)
    ensures OwnedNames(Names(s.assets), true)
  {
    if !s.draft {
      PublishableIsOwned(Names(s.assets));
    }
  }

  lemma PublishAcceptable(w: World)
    requires Planned(w) && Plan(w).Publish?
    ensures RemoteAcceptable(WithMetadata(w.remote, w.desired, Ready, false))
    ensures HasExactAsset(w.remote.release.value.assets, w.desired) && w.remote.tag == Some(w.desired.commit)
  {
    ExactIsPublishable(w.desired);
  }

  lemma ActionKeepsAcceptable(w: World)
    requires RemoteAcceptable(w.remote) && Planned(w)
    requires w.remote.release.None? <==> Plan(w).CreateDraft?
    ensures RemoteAcceptable(RemoteAfter(w.remote, w.desired, Plan(w)))
  {
    if w.remote.release.Some? {
      OwnedWhenAcceptable(Seen(w.remote).value);
    }
    match Plan(w)
    case ReplaceAssets => ExactIsPublishable(w.desired);
    case Publish => PublishAcceptable(w);
    case HideAndMarkStaging => DraftAcceptable(w.remote, w.desired, Staging);
    case MarkStaging => DraftAcceptable(w.remote, w.desired, Staging);
    case MarkAssetsVerified => DraftAcceptable(w.remote, w.desired, AssetsVerified);
    case MarkReady => DraftAcceptable(w.remote, w.desired, Ready);
    case _ =>
  }

  lemma InterruptionKeepsAcceptable(w: World, i: Interruption)
    requires RemoteAcceptable(w.remote) && Planned(w)
    requires w.remote.release.None? <==> Plan(w).CreateDraft?
    ensures RemoteAcceptable(RemoteInterrupted(w.remote, w.desired, Plan(w), i))
  {
    match i
    case Before =>
    case After => ActionKeepsAcceptable(w);
    case Deleted(n) =>
      if Plan(w).ReplaceAssets? && n <= |w.remote.release.value.assets| {
        NamesOfSuffix(w.remote.release.value.assets, n);
      }
  }

  lemma AcceptableIsPlanned(w: World)
    ensures Planned(w) <==> RemoteAcceptable(w.remote)
  {
    if Seen(w.remote).Some? {
      AcceptanceIff(Seen(w.remote).value, w.desired, w.flags);
    }
  }

  lemma StepKeepsAcceptable(w: World, e: Event)
    requires RemoteAcceptable(w.remote) && Planned(w)
    ensures RemoteAcceptable(Apply(w, e).remote)
  {
    CreatesOnlyWhenAbsent(w);
    match e
    case Perform => ActionKeepsAcceptable(w);
    case Crash(interruption, hides) =>
      InterruptionKeepsAcceptable(w, interruption);
      HidingKeepsAcceptable(RemoteInterrupted(w.remote, w.desired, Plan(w), interruption));
    case Restart(_) =>
  }

  /** From any accepted release the planner never raises again, whatever crashes and whatever is desired next. */
  lemma {:induction false} NeverRaises(w: World, run: seq<Event>)
    requires RemoteAcceptable(w.remote)
    ensures RemoteAcceptable(Execute(w, run).remote) && Planned(Execute(w, run))
    decreases |run|
  {
    AcceptableIsPlanned(w);
    if run != [] {
      StepKeepsAcceptable(w, run[0]);
      NeverRaises(Apply(w, run[0]), run[1..]);
    }
  }

  /** A published release that says it is ready always agrees with its tag, its target and its ZIP. */
  lemma PublicReadyAgrees(w: World, run: seq<Event>, d: Desired)
    requires RemoteAcceptable(w.remote)
    requires var r := Execute(w, run).remote;
             r.release.Some? && !r.release.value.draft && SaysReady(r.release.value.body, d)
    ensures var r := Execute(w, run).remote;
            r.tag == Some(d.commit) && r.release.value.target == d.commit && ZipAgrees(d, r.release.value.assets)
  {
    NeverRaises(w, run);
    assert SaysReady(Seen(Execute(w, run).remote).value.body, d);
  }

  // ----- convergence -----

  /** How many actions are left at most. */
  function Rank(a: Action): nat {
    match a
    case Done => 0
    case VerifyPublic => 1
    case Publish => 2
    case MarkReady => 3
    case AlignTag => 4
    case MarkAssetsVerified => 5
    case VerifyDraftDownload => 6
    case ReplaceAssets => 7
    case MarkStaging => 8
    case CreateDraft => 8
    case HideAndMarkStaging => 8
    case ValidateLegacy => 9
  }

  lemma ParseRendered(stage: Stage, d: Desired)
    ensures ParseState(Rendered(stage, d)) == Ok(Some(State(stage, d)))
  {
  }

  lemma RankOfMark(w: World)
    requires RemoteAcceptable(w.remote) && Planned(w) && Planned(Apply(w, Perform))
    requires Plan(w).MarkStaging? || Plan(w).HideAndMarkStaging? || Plan(w).CreateDraft? || Plan(w).ReplaceAssets?
    ensures Rank(Plan(Apply(w, Perform))) < Rank(Plan(w))
  {
    ParseRendered(Staging, w.desired);
  }

  lemma RankOfReady(w: World)
    requires RemoteAcceptable(w.remote) && Planned(w) && Planned(Apply(w, Perform))
    requires Plan(w).MarkReady? || Plan(w).MarkAssetsVerified?
    ensures Rank(Plan(Apply(w, Perform))) < Rank(Plan(w))
  {
    ParseRendered(AssetsVerified, w.desired);
    ParseRendered(Ready, w.desired);
  }

  lemma RankOfRest(w: World)
    requires RemoteAcceptable(w.remote) && Planned(w) && Planned(Apply(w, Perform)) && !Plan(w).Done?
    requires !(Plan(w).MarkStaging? || Plan(w).HideAndMarkStaging? || Plan(w).CreateDraft? || Plan(w).ReplaceAssets?)
    requires !(Plan(w).MarkReady? || Plan(w).MarkAssetsVerified?)
    ensures Rank(Plan(Apply(w, Perform))) < Rank(Plan(w))
  {
  }

  /** Every completed action brings the run closer to its end. */
  lemma RankDecreases(w: World)
    requires RemoteAcceptable(w.remote) && Planned(w) && !Plan(w).Done?
    ensures var next := Apply(w, Perform);
            RemoteAcceptable(next.remote) && Planned(next) && Rank(Plan(next)) < Rank(Plan(w))
  {
    StepKeepsAcceptable(w, Perform);
    AcceptableIsPlanned(Apply(w, Perform));
    if Plan(w).MarkStaging? || Plan(w).HideAndMarkStaging? || Plan(w).CreateDraft? || Plan(w).ReplaceAssets? {
      RankOfMark(w);
    } else if Plan(w).MarkReady? || Plan(w).MarkAssetsVerified? {
      RankOfReady(w);
    } else {
      RankOfRest(w);
    }
  }

  /** The reconciliation loop of the script. It always completes within its bound of forty actions. */
  method Reconcile(start: Remote, desired: Desired) returns (final: Remote, completed: bool)
    requires RemoteAcceptable(start)
    ensures completed
    ensures final.release.Some? && !final.release.value.draft && SaysReady(final.release.value.body, desired)
    ensures final.tag == Some(desired.commit) && final.release.value.target == desired.commit
    ensures final.release.value.assets == [ExactAsset(desired)]
  {
    var w := World(start, desired, FRESH, false);
    completed := false;
    var attempt := 1;
    AcceptableIsPlanned(w);
    while attempt <= 40
      invariant RemoteAcceptable(w.remote) && Planned(w) && w.desired == desired
      invariant 1 <= attempt <= 41 && Rank(Plan(w)) + attempt <= 10
      invariant !completed
      decreases 41 - attempt
    {
      var action := Plan(w);
      if action.Done? {
        completed := true;
        DoneMeansPublished(Seen(w.remote).value, desired, w.flags);
        break;
      }
      RankDecreases(w);
      w := Apply(w, Perform);
      attempt := attempt + 1;
    }
    final := w.remote;
  }
}
