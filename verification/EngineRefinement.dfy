/**
 The runtime protocol keeps only what persistence depends on of a monitor engine. Here that engine is the image of
 the whole one: whatever the callers of an engine do, in any run, the engine of the protocol can do as well, and it
 then has committed the same polls (src/aruba_session_tracker/services/monitoring.py:216-270 and 423-465).
 */
module EngineRefinement {
  import opened Wrappers
  import opened EngineRuns
  import Runtime
  import Protocol = RuntimeSystem
  import Monitoring = MonitorEngines

  /** What the protocol keeps of the outcome of a poll. */
  type Digest = Monitoring.Prepared -> Runtime.Outcome

  function PayloadOf(owner: nat, digest: Digest, p: Monitoring.Prepared): Runtime.Payload {
    Runtime.MonitorPoll(owner, p.base.generation, p.base.epoch, digest(p))
  }

  /** The polls that the engine has committed, as the protocol knows them. */
  function PayloadsOf(owner: nat, digest: Digest, log: seq<Happening>): seq<Runtime.Payload> {
    if log == [] then []
    else
      var last := log[|log| - 1];
      PayloadsOf(owner, digest, log[..|log| - 1]) + if last.Committed? then [PayloadOf(owner, digest, last.p)] else []
  }

  /** A commit covers two locked blocks; between them the caller delivers what it committed. */
  predicate Delivers(w: World) {
    exists c :: c in w.callers && w.callers[c].Delivering?
  }

  /** The generations and the epoch are the same, and so are the committed polls. The reservation is the same but for
      the moment between the two blocks of a commit. A cached location was obtained under the present epoch. */
  predicate Stands(owner: nat, digest: Digest, w: World, g: Protocol.Engine) {
    && g.next == w.engine.prepareGeneration && g.epoch == w.engine.epoch
    && g.outstanding == (if Delivers(w) then None else w.engine.prepared)
    && g.committed == PayloadsOf(owner, digest, w.log)
    && (w.engine.location.Some? ==> g.location == Some(w.engine.epoch))
  }

  /** What a caller can do to an engine of the protocol. */
  datatype Operation = Prepare | Commit(y: Runtime.Payload) | GiveUp(generation: nat) | Forget

  function OnImage(owner: nat, g: Protocol.Engine, op: Operation): Option<Protocol.Engine> {
    match op
    case Prepare =>
      if g.outstanding.Some? then None else Some(g.(next := g.next + 1, outstanding := Some(g.next + 1)))
    case Commit(y) => if Protocol.Prepared(owner, g, y) then Some(Protocol.CommitPrepared(g, y)) else None
    case GiveUp(generation) => Some(if g.outstanding == Some(generation) then g.(outstanding := None) else g)
    case Forget => Some(g.(epoch := g.epoch + 1, location := None))
  }

  /** What a step of the engine is for its image: nothing, if a prepare is refused, and between its locked blocks. */
  function OperationOf(owner: nat, digest: Digest, w: World, e: Event): Option<Operation>
    requires Enabled(w, e)
  {
    match e
    case Begin(_) => if w.engine.prepared.Some? then None else Some(Prepare)
    case Calculate(_, _) => None
    case Install(c) => Some(Commit(PayloadOf(owner, digest, w.callers[c].p)))
    case Deliver(_) => None
    case Fail(c) => Some(GiveUp(GenerationOf(w.callers[c])))
    case Discard(c) => Some(GiveUp(GenerationOf(w.callers[c])))
    case Invalidate => Some(Forget)
  }

  function ImageStep(owner: nat, digest: Digest, w: World, g: Protocol.Engine, e: Event): Protocol.Engine
    requires Enabled(w, e)
  {
    var op := OperationOf(owner, digest, w, e);
    if op.Some? && OnImage(owner, g, op.value).Some? then OnImage(owner, g, op.value).value else g
  }

  lemma PayloadsSnoc(owner: nat, digest: Digest, log: seq<Happening>, h: Happening)
    ensures PayloadsOf(owner, digest, log + [h])
            == PayloadsOf(owner, digest, log) + if h.Committed? then [PayloadOf(owner, digest, h.p)] else []
  {
    assert (log + [h])[..|log|] == log;
  }

  lemma DeliversNext(owner: nat, config: Monitoring.Config, w: World, e: Event)
    requires OneOutstanding(w) && Enabled(w, e)
    ensures Delivers(Apply(owner, config, w, e)) <==>
            e.Install? || ((e.Begin? || e.Invalidate?) && Delivers(w))
  {
    if !e.Begin? && !e.Invalidate? {
      SoleCaller(w, e.c);
    }
    if e.Install? {
      assert Apply(owner, config, w, e).callers[e.c].Delivering?;
    }
  }

  lemma InstallRefines(owner: nat, config: Monitoring.Config, digest: Digest, w: World, g: Protocol.Engine, c: nat)
    requires OneOutstanding(w) && Enabled(w, Install(c)) && Stands(owner, digest, w, g)
    ensures OnImage(owner, g, OperationOf(owner, digest, w, Install(c)).value).Some?
    ensures Stands(owner, digest, Apply(owner, config, w, Install(c)), ImageStep(owner, digest, w, g, Install(c)))
  {
    SoleCaller(w, c);
    InstalledWorld(owner, config, w, c);
    DeliversNext(owner, config, w, Install(c));
    PayloadsSnoc(owner, digest, w.log, Committed(w.callers[c].p, w.callers[c].probe));
  }

  /** The steps that no caller takes alone. */
  lemma SharedRefines(owner: nat, config: Monitoring.Config, digest: Digest, w: World, g: Protocol.Engine, e: Event)
    requires OneOutstanding(w) && Enabled(w, e) && Stands(owner, digest, w, g) && (e.Begin? || e.Invalidate?)
    ensures Stands(owner, digest, Apply(owner, config, w, e), ImageStep(owner, digest, w, g, e))
  {
    var next := Apply(owner, config, w, e);
    DeliversNext(owner, config, w, e);
    if |next.log| > |w.log| {
      PayloadsSnoc(owner, digest, w.log, next.log[|w.log|]);
    }
  }

  lemma OwnRefines(owner: nat, config: Monitoring.Config, digest: Digest, w: World, g: Protocol.Engine, e: Event)
    requires OneOutstanding(w) && Enabled(w, e) && Stands(owner, digest, w, g)
    requires !e.Begin? && !e.Invalidate? && !e.Install?
    ensures Stands(owner, digest, Apply(owner, config, w, e), ImageStep(owner, digest, w, g, e))
  {
    SoleCaller(w, e.c);
    DeliversNext(owner, config, w, e);
  }

  /** The image accepts what the engine accepts, refuses a second prepare as the engine does, and stays its image. */
  lemma OperationRefines(owner: nat, config: Monitoring.Config, digest: Digest, w: World, g: Protocol.Engine, e: Event)
    requires OneOutstanding(w) && Enabled(w, e) && Stands(owner, digest, w, g)
    ensures var op := OperationOf(owner, digest, w, e); op.Some? ==> OnImage(owner, g, op.value).Some?
    ensures w.engine.prepared.Some? && !Delivers(w) ==> OnImage(owner, g, Prepare).None?
    ensures Stands(owner, digest, Apply(owner, config, w, e), ImageStep(owner, digest, w, g, e))
  {
    if e.Install? {
      InstallRefines(owner, config, digest, w, g, e.c);
    } else if e.Begin? || e.Invalidate? {
      SharedRefines(owner, config, digest, w, g, e);
    } else {
      OwnRefines(owner, config, digest, w, g, e);
    }
  }

  function ImageAfter(owner: nat, config: Monitoring.Config, digest: Digest, w: World, g: Protocol.Engine,
                      run: seq<Event>): Protocol.Engine
    requires Legal(owner, config, w, run)
    decreases |run|
  {
    if run == [] then g
    else
      ImageAfter(owner, config, digest, Apply(owner, config, w, run[0]), ImageStep(owner, digest, w, g, run[0]),
                 run[1..])
  }

  lemma {:induction false} RunRefines(owner: nat, config: Monitoring.Config, digest: Digest, w: World,
                                      g: Protocol.Engine, run: seq<Event>)
    requires Inv(owner, config, w) && Legal(owner, config, w, run) && Stands(owner, digest, w, g)
    ensures Stands(owner, digest, Execute(owner, config, w, run), ImageAfter(owner, config, digest, w, g, run))
    decreases |run|
  {
    if run != [] {
      OperationRefines(owner, config, digest, w, g, run[0]);
      StepKeepsInv(owner, config, w, run[0]);
      RunRefines(owner, config, digest, Apply(owner, config, w, run[0]), ImageStep(owner, digest, w, g, run[0]),
                 run[1..]);
    }
  }

  /** In every run of the engine the engine of the protocol is its image, and has committed the same polls in the same
      order. */
  lemma ImageIsKept(owner: nat, config: Monitoring.Config, digest: Digest, run: seq<Event>)
    requires Legal(owner, config, EMPTY, run)
    ensures Stands(owner, digest, Execute(owner, config, EMPTY, run),
                   ImageAfter(owner, config, digest, EMPTY, Protocol.NEW_ENGINE, run))
  {
    RunRefines(owner, config, digest, EMPTY, Protocol.NEW_ENGINE, run);
  }
}
