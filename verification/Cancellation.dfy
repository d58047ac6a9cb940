/**
 Cooperative cancellation with scoped abort callbacks
 (`CancellationToken` in src/aruba_session_tracker/collectors/ssh.py:75-132).
 */
module Cancellation {
  /** The token: whether it is set, and the registered callbacks in registration order. A callback is
      known here by the scope that registered it. */
  datatype Token = Token(isSet: bool, callbacks: seq<nat>)

  function Registered(t: Token, scope: nat): Token {
    if t.isSet then t else t.(callbacks := t.callbacks + [scope])
  }

  function Without(s: seq<nat>, x: nat): seq<nat> {
    if s == [] then []
    else if s[0] == x then Without(s[1..], x)
    else [s[0]] + Without(s[1..], x)
  }

  class CancellationToken {
    var isSet: bool
    var callbacks: seq<nat>

    function View(): Token
      reads this
    {
      Token(isSet, callbacks)
    }

    constructor ()
      ensures View() == Token(false, [])
    {
      isSet, callbacks := false, [];
    }

    /** The lock block of `cancel`: it hands out the callbacks once, to the first canceller. */
    method Cancel() returns (snapshot: seq<nat>)
      modifies this
      ensures isSet && callbacks == old(callbacks)
      ensures snapshot == if old(isSet) then [] else old(callbacks)
    {
      if isSet {
        return [];
      }
      isSet := true;
      snapshot := callbacks;
    }

    /** The first lock block of `abort_on_cancel`: register, or be told to run at once. */
    method Enter(scope: nat) returns (runNow: bool)
      modifies this
      ensures View() == Registered(old(View()), scope) && runNow == old(isSet)
    {
      if isSet {
        return true;
      }
      callbacks := callbacks + [scope];
      runNow := false;
    }

    /** The last lock block of `abort_on_cancel`; a scope that was told to run at once has nothing to remove. */
    method Leave(scope: nat, registered: bool)
      modifies this
      ensures isSet == old(isSet)
      ensures callbacks == if registered then Without(old(callbacks), scope) else old(callbacks)
    {
      if registered {
        callbacks := Without(callbacks, scope);
      }
    }
  }

  // ----- threads -----

  /** A scope runs its callback itself (`Running`) when it enters after cancellation. */
  datatype Scope = Outside | Running | Inside(registered: bool) | Left

  datatype Happening = Entered(scope: nat) | Cancelled | LeftScope(scope: nat)

  /** `pending` are the callbacks that cancelling threads still have to run; `runs` counts the calls. */
  datatype State = State(token: Token, scopes: map<nat, Scope>, pending: map<nat, seq<nat>>,
                         runs: multiset<nat>, log: seq<Happening>)

  datatype Event =
    | Enter(scope: nat)
    | RunNow(scope: nat, raises: bool)
    | Leave(scope: nat)
    | Cancel(thread: nat)
    | RunNext(thread: nat, raises: bool)

  const INITIAL := State(Token(false, []), map[], map[], multiset{}, [])

  function ScopeOf(st: State, scope: nat): Scope {
    if scope in st.scopes then st.scopes[scope] else Outside
  }

  predicate Enabled(st: State, e: Event) {
    match e
    case Enter(s) => ScopeOf(st, s).Outside?
    case RunNow(s, _) => ScopeOf(st, s).Running?
    case Leave(s) => ScopeOf(st, s).Inside?
    case Cancel(c) => c !in st.pending
    case RunNext(c, _) => c in st.pending && st.pending[c] != []
  }

  /** A callback that raises is suppressed: the flag of a call changes nothing. */
  function Apply(st: State, e: Event): State
    requires Enabled(st, e)
  {
    match e
    case Enter(s) =>
      st.(token := Registered(st.token, s),
          scopes := st.scopes[s := if st.token.isSet then Running else Inside(true)],
          log := st.log + [Entered(s)])
    case RunNow(s, _) => st.(scopes := st.scopes[s := Inside(false)], runs := st.runs + multiset{s})
    case Leave(s) =>
      st.(token := if st.scopes[s].registered then st.token.(callbacks := Without(st.token.callbacks, s)) else st.token,
          scopes := st.scopes[s := Left],
          log := st.log + [LeftScope(s)])
    case Cancel(c) =>
      if st.token.isSet then st.(pending := st.pending[c := []])
      else st.(token := st.token.(isSet := true), pending := st.pending[c := st.token.callbacks],
               log := st.log + [Cancelled])
    case RunNext(c, _) =>
      st.(pending := st.pending[c := st.pending[c][1..]], runs := st.runs + multiset{st.pending[c][0]})
  }

  predicate Legal(st: State, run: seq<Event>)
    decreases |run|
  {
    run == [] || (Enabled(st, run[0]) && Legal(Apply(st, run[0]), run[1..]))
  }

  function Execute(st: State, run: seq<Event>): State
    requires Legal(st, run)
    decreases |run|
  {
    if run == [] then st else Execute(Apply(st, run[0]), run[1..])
  }

  ghost predicate Reachable(st: State) {
    exists run :: Legal(INITIAL, run) && Execute(INITIAL, run) == st
  }

  // ----- when cancellation concerns a scope -----

  /** The scope was entered, and cancellation came while it had not ended yet. */
  ghost predicate Concerned(log: seq<Happening>, s: nat) {
    && Entered(s) in log
    && exists i :: 0 <= i < |log| && log[i] == Cancelled && LeftScope(s) !in log[..i]
  }

  function Count(s: seq<nat>, x: nat): nat {
    if s == [] then 0 else (if s[0] == x then 1 else 0) + Count(s[1..], x)
  }

  lemma {:induction false} CountWithout(s: seq<nat>, x: nat, y: nat)
    ensures Count(Without(s, x), y) == if x == y then 0 else Count(s, y)
  {
    if s != [] {
      CountWithout(s[1..], x, y);
    }
  }

  lemma {:induction false} CountSnoc(s: seq<nat>, x: nat, y: nat)
    ensures Count(s + [x], y) == Count(s, y) + if x == y then 1 else 0
  {
    if s == [] {
      assert s + [x] == [x];
    } else {
      assert (s + [x])[1..] == s[1..] + [x];
      CountSnoc(s[1..], x, y);
    }
  }

  /** One thread at most has callbacks left: the one that set the token. */
  function LeftToRun(st: State, s: nat, holder: nat): nat {
    if holder in st.pending then Count(st.pending[holder], s) else 0
  }

  function Truth(b: bool): nat {
    if b then 1 else 0
  }

  ghost predicate LogFits(st: State) {
    && (st.token.isSet <==> Cancelled in st.log)
    && (forall s :: Entered(s) in st.log <==> !ScopeOf(st, s).Outside?)
    && (forall s :: LeftScope(s) in st.log <==> ScopeOf(st, s).Left?)
  }

  /** `holder` is the thread that set the token. A scope's callback is registered, or left to run, or has run. */
  ghost predicate ScopeFits(st: State, holder: nat, s: nat) {
    var scope := ScopeOf(st, s);
    if !st.token.isSet then
      && Count(st.token.callbacks, s) == Truth(scope == Inside(true))
      && st.runs[s] == 0 && !scope.Running? && (scope.Inside? ==> scope.registered)
    else
      st.runs[s] + LeftToRun(st, s, holder) + Truth(scope.Running?) == Truth(Concerned(st.log, s))
  }

  ghost predicate ThreadsFit(st: State, holder: nat) {
    && (!st.token.isSet ==> st.pending == map[])
    && (forall c :: c in st.pending && c != holder ==> st.pending[c] == [])
  }

  ghost predicate Inv(st: State, holder: nat) {
    LogFits(st) && ThreadsFit(st, holder) && forall s :: ScopeFits(st, holder, s)
  }

  lemma ConcernedSnoc(log: seq<Happening>, h: Happening, s: nat)
    requires h != Cancelled
    ensures Concerned(log + [h], s) <==>
            (Entered(s) in log || h == Entered(s))
            && exists i :: 0 <= i < |log| && log[i] == Cancelled && LeftScope(s) !in log[..i]
  {
    var more := log + [h];
    assert forall i :: 0 <= i < |log| ==> more[i] == log[i] && more[..i] == log[..i];
    assert Entered(s) in more <==> Entered(s) in log || h == Entered(s);
  }

  lemma ConcernedNow(log: seq<Happening>, s: nat)
    requires Cancelled !in log
    ensures Concerned(log + [Cancelled], s) <==> Entered(s) in log && LeftScope(s) !in log
    ensures !Concerned(log, s)
  {
    var more := log + [Cancelled];
    assert more[|log|] == Cancelled && more[..|log|] == log;
    assert forall i :: 0 <= i < |log| ==> more[i] == log[i];
  }

  /** A scope entered after cancellation is concerned. */
  lemma LateEntry(log: seq<Happening>, s: nat)
    requires Cancelled in log && LeftScope(s) !in log
    ensures exists i :: 0 <= i < |log| && log[i] == Cancelled && LeftScope(s) !in log[..i]
  {
    var i :| 0 <= i < |log| && log[i] == Cancelled;
    assert LeftScope(s) !in log[..i];
  }

  lemma EnterKeepsInv(st: State, holder: nat, s: nat)
    requires Inv(st, holder) && Enabled(st, Enter(s))
    ensures Inv(Apply(st, Enter(s)), holder)
  {
    var next := Apply(st, Enter(s));
    forall t ensures ScopeFits(next, holder, t) {
      assert ScopeFits(st, holder, t);
      ConcernedSnoc(st.log, Entered(s), t);
      CountSnoc(st.token.callbacks, s, t);
      if st.token.isSet && t == s {
        LateEntry(st.log, s);
      }
    }
  }

  lemma RunNowKeepsInv(st: State, holder: nat, s: nat, raises: bool)
    requires Inv(st, holder) && Enabled(st, RunNow(s, raises))
    ensures Inv(Apply(st, RunNow(s, raises)), holder)
  {
    var next := Apply(st, RunNow(s, raises));
    forall t ensures ScopeFits(next, holder, t) {
      assert ScopeFits(st, holder, t);
      assert ScopeFits(st, holder, s);
    }
  }

  lemma LeaveKeepsInv(st: State, holder: nat, s: nat)
    requires Inv(st, holder) && Enabled(st, Leave(s))
    ensures Inv(Apply(st, Leave(s)), holder)
  {
    var next := Apply(st, Leave(s));
    forall t ensures ScopeFits(next, holder, t) {
      assert ScopeFits(st, holder, t);
      assert ScopeFits(st, holder, s);
      ConcernedSnoc(st.log, LeftScope(s), t);
      CountWithout(st.token.callbacks, s, t);
    }
  }

  lemma CancelKeepsInv(st: State, holder: nat, c: nat)
    requires Inv(st, holder) && Enabled(st, Cancel(c))
    ensures Inv(Apply(st, Cancel(c)), if st.token.isSet then holder else c)
  {
    var next, h := Apply(st, Cancel(c)), if st.token.isSet then holder else c;
    if !st.token.isSet {
      assert next.log[|st.log|] == Cancelled;
      forall t ensures ScopeFits(next, h, t) {
        assert ScopeFits(st, holder, t);
        ConcernedNow(st.log, t);
      }
    } else {
      forall t ensures ScopeFits(next, h, t) {
        assert ScopeFits(st, holder, t);
      }
    }
  }

  lemma RunNextKeepsInv(st: State, holder: nat, c: nat, raises: bool)
    requires Inv(st, holder) && Enabled(st, RunNext(c, raises))
    ensures Inv(Apply(st, RunNext(c, raises)), holder)
  {
    var next := Apply(st, RunNext(c, raises));
    forall t ensures ScopeFits(next, holder, t) {
      assert ScopeFits(st, holder, t);
    }
  }

  lemma StepKeepsInv(st: State, holder: nat, e: Event)
    requires Inv(st, holder) && Enabled(st, e)
    ensures Inv(Apply(st, e), if e.Cancel? && !st.token.isSet then e.thread else holder)
  {
    match e
    case Enter(s) => EnterKeepsInv(st, holder, s);
    case RunNow(s, raises) => RunNowKeepsInv(st, holder, s, raises);
    case Leave(s) => LeaveKeepsInv(st, holder, s);
    case Cancel(c) => CancelKeepsInv(st, holder, c);
    case RunNext(c, raises) => RunNextKeepsInv(st, holder, c, raises);
  }

  lemma {:induction false} RunKeepsInv(st: State, holder: nat, run: seq<Event>) returns (last: nat)
    requires Inv(st, holder) && Legal(st, run)
    ensures Inv(Execute(st, run), last)
    decreases |run|
  {
    last := holder;
    if run != [] {
      StepKeepsInv(st, holder, run[0]);
      last := if run[0].Cancel? && !st.token.isSet then run[0].thread else holder;
      last := RunKeepsInv(Apply(st, run[0]), last, run[1..]);
    }
  }

  // ----- the theorems -----

  /** No cancelling thread has a callback left, and no scope is about to run its own. */
  predicate Quiet(st: State) {
    (forall c :: c in st.pending ==> st.pending[c] == []) && forall s :: s in st.scopes ==> !st.scopes[s].Running?
  }

  lemma ReachableInv(st: State)
    requires Reachable(st)
    ensures exists h :: Inv(st, h)
  {
    var run :| Legal(INITIAL, run) && Execute(INITIAL, run) == st;
    forall s ensures ScopeFits(INITIAL, 0, s) {
    }
    var h := RunKeepsInv(INITIAL, 0, run);
  }

  /** A callback never runs twice, and never when cancellation does not concern its scope. */
  lemma AtMostOnce(st: State, s: nat)
    requires Reachable(st)
    ensures st.runs[s] <= 1
    ensures st.runs[s] == 1 ==> Concerned(st.log, s)
  {
    ReachableInv(st);
    var h :| Inv(st, h);
    assert ScopeFits(st, h, s);
  }

  /** Once every thread has done its work, the callback has run exactly once if and only if cancellation came
      before its scope ended, whether or not other callbacks raised. */
  lemma ExactlyOnceWhenConcerned(st: State, s: nat)
    requires Reachable(st) && Quiet(st)
    ensures st.runs[s] == if Concerned(st.log, s) then 1 else 0
  {
    ReachableInv(st);
    var h :| Inv(st, h);
    assert ScopeFits(st, h, s);
    if !st.token.isSet {
      ConcernedNow(st.log, s);
    }
  }
}
