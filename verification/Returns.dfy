/**
 CloseAllForwarders returns (server/fwdsvc.go:95-111): in every fair infinite run of the service, when
 Accept has given each unfinished forwarder its client connection and no Close came before that.
 */
module Returns {
  import opened Basics
  import opened Service
  import F = Forwarder
  import C = Cascade
  import H = Handshake
  import T = Traffic

  datatype Label = Act(a: Action) | Stutter

  ghost predicate StepOk(s: State, l: Label, t: State) {
    match l
    case Act(a) => Enabled(s, a) && t == Next(s, a)
    case Stutter => t == s
  }

  ghost predicate IsRun(ss: nat -> State, ls: nat -> Label) {
    forall n: nat :: StepAt(ss, ls, n)
  }

  ghost predicate StepAt(ss: nat -> State, ls: nat -> Label, n: nat) { StepOk(ss(n), ls(n), ss(n + 1)) }

  // ---------------------------------------------------------------- fairness

  predicate IsCtlAction(a: Action, c: nat) { (IsDoor(a) || IsHeld(a)) && a.c == c }

  predicate Acts(l: Label, c: nat) { l.Act? && IsCtlAction(l.a, c) }

  ghost predicate Blocked(s: State, c: nat) { forall a :: IsCtlAction(a, c) ==> !Enabled(s, a) }

  ghost predicate CtlServed(ss: nat -> State, ls: nat -> Label, c: nat, n: nat) {
    exists m: nat :: m >= n && (Blocked(ss(m), c) || Acts(ls(m), c))
  }

  /** A controller that can go on does so. */
  ghost predicate CtlFair(ss: nat -> State, ls: nat -> Label, c: nat) {
    forall n: nat :: CtlServed(ss, ls, c, n)
  }

  function FwdOf(s: State, f: nat): F.Fwd { if f < |s.fwds| then s.fwds[f] else F.New() }

  function FwdLabel(l: Label, f: nat): C.Label {
    if l.Act? && l.a.Forward? && l.a.i == f then C.Act(l.a.a)
    else if l.Act? && l.a.Remove? && l.a.i == f then C.Retire
    else C.Stutter
  }

  /** What forwarder f does in the run, from its n-th state on. */
  function FwdRun(ss: nat -> State, f: nat, n: nat): nat -> F.Fwd { (i: nat) => FwdOf(ss(n + i), f) }

  function FwdLabels(ls: nat -> Label, f: nat, n: nat): nat -> C.Label { (i: nat) => FwdLabel(ls(n + i), f) }

  /** The goroutines of every forwarder are scheduled as module Cascade asks. */
  ghost predicate FwdFair(ss: nat -> State, ls: nat -> Label) {
    forall f: nat, n: nat, g: C.Scope :: C.Fair(FwdRun(ss, f, n), FwdLabels(ls, f, n), g)
  }

  // ---------------------------------------------------------------- one call of CloseAllForwarders

  predicate OnTime(f: F.Fwd) { f.chanClosed || (F.HasClient(f) && !f.early) }

  predicate AllOnTime(s: State) { forall f :: 0 <= f < |s.fwds| ==> OnTime(s.fwds[f]) }

  predicate InCall(h: Held) { !h.Free? }

  /** Controller c is inside CloseAllForwarders at h. */
  ghost predicate Closing(s: State, c: nat, h: Held) {
    Reachable(s) && IsCtl(s, c, Holding(h)) && InCall(h) && AllOnTime(s)
  }

  lemma ClosingParks(s: State, c: nat, h: Held)
    requires Closing(s, c, h)
    ensures !s.crashed && H.Parked(s.lpc) && forall d :: 0 <= d < |s.ctls| && d != c ==> !H.Holds(s.ctls[d])
    ensures s.listMux == Some(c) <==> h.Walking?
    ensures s.listMux.Some? ==> s.listMux.value == c
    ensures forall i :: 0 <= i < |s.list| ==> s.list[i] < |s.fwds|
  {
    T.ReachableInv(s);
    assert H.Holds(s.ctls[c]);
  }

  lemma FwdStaysOnTime(f: F.Fwd, a: F.Action)
    requires F.Enabled(f, a) && OnTime(f)
    ensures OnTime(F.Next(f, a))
  {
    C.NextKeepsLabels(f, a);
    if !f.chanClosed { C.ClosersStayOnTime(f, a); }
  }

  /** A step of anybody else. */
  lemma OtherStep(s: State, c: nat, h: Held, a: Action)
    requires Closing(s, c, h) && Enabled(s, a) && !IsCtlAction(a, c)
    ensures Closing(Next(s, a), c, h) && |Next(s, a).fwds| == |s.fwds|
    ensures h.Walking? ==> Next(s, a).list == s.list
  {
    ExtendReachable(s, a);
    ClosingParks(s, c, h);
    if IsFwd(a) { FwdStepOnTime(s, a); } else { OthersTouchNoFwd(s, c, a); }
  }

  lemma FwdStepOnTime(s: State, a: Action)
    requires Reachable(s) && AllOnTime(s) && IsFwd(a) && FwdEnabled(s, a)
    ensures AllOnTime(FwdNext(s, a))
  {
    T.ReachableInv(s);
    forall f | 0 <= f < |s.fwds| ensures OnTime(FwdNext(s, a).fwds[f]) {
      assert OnTime(s.fwds[f]) && F.StageInv(s.fwds[f]);
      if a.Forward? && a.i == f { FwdStaysOnTime(s.fwds[f], a.a); }
    }
  }

  lemma OthersTouchNoFwd(s: State, c: nat, a: Action)
    requires H.Parked(s.lpc) && !IsFwd(a) && Enabled(s, a) && !IsCtlAction(a, c)
    requires c < |s.ctls| && forall d :: 0 <= d < |s.ctls| && d != c ==> !H.Holds(s.ctls[d])
    ensures Next(s, a).fwds == s.fwds && Next(s, a).list == s.list
    ensures c < |Next(s, a).ctls| && Next(s, a).ctls[c] == s.ctls[c]
  {
  }

  /** The run up to m, as long as c does nothing. */
  lemma {:induction false} Waits(ss: nat -> State, ls: nat -> Label, c: nat, h: Held, n: nat, m: nat)
    requires IsRun(ss, ls) && n <= m && Closing(ss(n), c, h)
    requires forall i: nat :: n <= i < m ==> !Acts(ls(i), c)
    ensures Closing(ss(m), c, h) && |ss(m).fwds| == |ss(n).fwds|
    ensures h.Walking? ==> ss(m).list == ss(n).list
    decreases m
  {
    if n < m {
      Waits(ss, ls, c, h, n, m - 1);
      assert StepAt(ss, ls, m - 1) && !Acts(ls(m - 1), c);
      WaitStep(ss(m - 1), c, h, ls(m - 1), ss(m));
    }
  }

  lemma WaitStep(s: State, c: nat, h: Held, l: Label, t: State)
    requires Closing(s, c, h) && StepOk(s, l, t) && !Acts(l, c)
    ensures Closing(t, c, h) && |t.fwds| == |s.fwds| && (h.Walking? ==> t.list == s.list)
  {
    if l.Act? { OtherStep(s, c, h, l.a); }
  }

  /** The first thing c does from n on, when it does one by m. */
  lemma {:induction false} FirstAct(ls: nat -> Label, c: nat, n: nat, m: nat) returns (k: nat)
    requires n <= m && Acts(ls(m), c)
    ensures n <= k <= m && Acts(ls(k), c) && forall i: nat :: n <= i < k ==> !Acts(ls(i), c)
    decreases m - n
  {
    if Acts(ls(n), c) { return n; }
    k := FirstAct(ls, c, n + 1, m);
  }

  /** A controller that is not blocked as long as it waits gets on. */
  lemma Moves(ss: nat -> State, ls: nat -> Label, c: nat, h: Held, n: nat) returns (k: nat)
    requires IsRun(ss, ls) && CtlFair(ss, ls, c) && Closing(ss(n), c, h) && !h.Joining?
    ensures k >= n && Closing(ss(k), c, h) && Acts(ls(k), c) && StepOk(ss(k), ls(k), ss(k + 1))
    ensures h.Walking? ==> ss(k).list == ss(n).list
  {
    var j := WillAct(ss, ls, c, h, n);
    k := FirstAct(ls, c, n, j);
    Waits(ss, ls, c, h, n, k);
    assert StepAt(ss, ls, k);
  }

  lemma WillAct(ss: nat -> State, ls: nat -> Label, c: nat, h: Held, n: nat) returns (j: nat)
    requires IsRun(ss, ls) && CtlFair(ss, ls, c) && Closing(ss(n), c, h) && !h.Joining?
    ensures j >= n && Acts(ls(j), c)
  {
    assert CtlServed(ss, ls, c, n);
    var m: nat :| m >= n && (Blocked(ss(m), c) || Acts(ls(m), c));
    if i: nat :| n <= i <= m && Acts(ls(i), c) { return i; }
    Waits(ss, ls, c, h, n, m);
    NotBlocked(ss(m), c, h);
    assert false;
  }

  lemma NotBlocked(s: State, c: nat, h: Held)
    requires Closing(s, c, h) && (h.Joining? ==> AllReturned(s, h.calls))
    ensures !Blocked(s, c)
  {
    ClosingParks(s, c, h);
    var a := match h case WalkWant => WalkLock(c)
                     case Walking(at, _) => if at < |s.list| then WalkStep(c) else WalkEnd(c)
                     case _ => Joined(c);
    assert IsCtlAction(a, c) && Enabled(s, a);
  }

  /** What c does there. */
  lemma OwnStep(s: State, c: nat, h: Held, a: Action)
    requires Closing(s, c, h) && Enabled(s, a) && IsCtlAction(a, c) && !h.Joining?
    ensures c < |Next(s, a).ctls| && Next(s, a).ctls[c].Holding? && Closing(Next(s, a), c, Next(s, a).ctls[c].h)
    ensures var g := Next(s, a).ctls[c].h;
      if h.WalkWant? then g == Walking(0, [])
      else if h.at < |s.list| then g.Walking? && g.at == h.at + 1 && Next(s, a).list == s.list
      else g == Joining(h.calls)
  {
    ExtendReachable(s, a);
    ClosingParks(s, c, h);
    OwnStepOnTime(s, a);
  }

  lemma OwnStepOnTime(s: State, a: Action)
    requires AllOnTime(s) && (IsHeld(a) || IsDoor(a)) && Enabled(s, a)
    ensures AllOnTime(Next(s, a))
  {
  }

  lemma {:induction false} WalkEnds(ss: nat -> State, ls: nat -> Label, c: nat, h: Held, n: nat)
      returns (k: nat, calls: seq<CallRef>)
    requires IsRun(ss, ls) && CtlFair(ss, ls, c) && Closing(ss(n), c, h) && h.Walking?
    ensures k >= n && Closing(ss(k), c, Joining(calls))
    decreases |ss(n).list| - h.at
  {
    var m, g := WalkGoesOn(ss, ls, c, h, n);
    if g.Joining? { k, calls := m, g.calls; } else { k, calls := WalkEnds(ss, ls, c, g, m); }
  }

  lemma WalkGoesOn(ss: nat -> State, ls: nat -> Label, c: nat, h: Held, n: nat) returns (k: nat, g: Held)
    requires IsRun(ss, ls) && CtlFair(ss, ls, c) && Closing(ss(n), c, h) && h.Walking?
    ensures k >= n && Closing(ss(k), c, g)
    ensures g.Joining? || (g.Walking? && |ss(k).list| - g.at < |ss(n).list| - h.at && g.at <= |ss(k).list|)
  {
    var m := Moves(ss, ls, c, h, n);
    OwnStep(ss(m), c, h, ls(m).a);
    k, g := m + 1, ss(m + 1).ctls[c].h;
  }

  // ---------------------------------------------------------------- its forwarders end

  /** While c joins, a forwarder takes its own steps only. */
  lemma ProjectedStep(s: State, c: nat, h: Held, l: Label, t: State, f: nat)
    requires Closing(s, c, h) && h.Joining? && StepOk(s, l, t) && !Acts(l, c) && f < |s.fwds|
    ensures C.StepOk(FwdOf(s, f), FwdLabel(l, f), FwdOf(t, f))
  {
    ClosingParks(s, c, h);
    if l.Act? {
      if !IsFwd(l.a) { OthersTouchNoFwd(s, c, l.a); }
      else {
        T.ReachableInv(s);
        assert F.Inv(s.fwds[f]) && OnTime(s.fwds[f]);
        ProjectedFwdStep(s, l.a, f);
      }
    }
  }

  lemma ProjectedFwdStep(s: State, a: Action, f: nat)
    requires IsFwd(a) && Enabled(s, a) && f < |s.fwds| && F.Inv(s.fwds[f]) && OnTime(s.fwds[f])
    ensures C.StepOk(FwdOf(s, f), FwdLabel(Act(a), f), FwdOf(Next(s, a), f))
  {
  }

  lemma Projects(ss: nat -> State, ls: nat -> Label, c: nat, h: Held, n: nat, f: nat)
    requires IsRun(ss, ls) && Closing(ss(n), c, h) && h.Joining? && f < |ss(n).fwds|
    requires forall i: nat :: n <= i ==> !Acts(ls(i), c)
    ensures C.IsRun(FwdRun(ss, f, n), FwdLabels(ls, f, n))
  {
    forall i: nat ensures C.StepAt(FwdRun(ss, f, n), FwdLabels(ls, f, n), i) {
      Waits(ss, ls, c, h, n, n + i);
      assert StepAt(ss, ls, n + i);
      ProjectedStep(ss(n + i), c, h, ls(n + i), ss(n + i + 1), f);
    }
  }

  lemma FwdRunAt(ss: nat -> State, f: nat, n: nat, i: nat)
    ensures FwdRun(ss, f, n)(i) == FwdOf(ss(n + i), f)
  {
  }

  lemma ForwarderEnds(ss: nat -> State, ls: nat -> Label, c: nat, h: Held, n: nat, f: nat) returns (k: nat)
    requires IsRun(ss, ls) && FwdFair(ss, ls) && Closing(ss(n), c, h) && h.Joining?
    requires forall i: nat :: n <= i ==> !Acts(ls(i), c)
    requires f < |ss(n).fwds| && ss(n).fwds[f].callers != []
    ensures k >= n && f < |ss(k).fwds| && C.Over(ss(k).fwds[f])
  {
    var fs, gs := FwdRun(ss, f, n), FwdLabels(ls, f, n);
    Projects(ss, ls, c, h, n, f);
    FwdRunAt(ss, f, n, 0);
    T.ReachableInv(ss(n));
    assert F.Inv(fs(0)) && OnTime(fs(0));
    var i := EndsOnTime(fs, gs);
    Waits(ss, ls, c, h, n, n + i);
    k := n + i;
    FwdRunAt(ss, f, n, i);
  }

  lemma EndsOnTime(fs: nat -> F.Fwd, gs: nat -> C.Label) returns (i: nat)
    requires C.IsRun(fs, gs) && (forall g :: C.Fair(fs, gs, g)) && F.Inv(fs(0)) && OnTime(fs(0)) && fs(0).callers != []
    ensures C.Over(fs(i))
  {
    if fs(0).chanClosed {
      i := C.RestEnds(fs, gs, 0);
    } else {
      C.CascadeTerminates(fs, gs, 0);
      i :| C.Over(fs(i));
    }
  }

  predicate HasReturned(s: State, r: CallRef) {
    r.f < |s.fwds| && r.k < |s.fwds[r.f].callers| && s.fwds[r.f].callers[r.k].Returned?
  }

  lemma StaysReturned(s: State, c: nat, h: Held, l: Label, t: State, r: CallRef)
    requires Closing(s, c, h) && StepOk(s, l, t) && !Acts(l, c) && HasReturned(s, r)
    ensures HasReturned(t, r)
  {
    ClosingParks(s, c, h);
    if l.Act? {
      if IsFwd(l.a) { FwdStaysReturned(s, l.a, r); } else { OthersTouchNoFwd(s, c, l.a); }
    }
  }

  lemma FwdStaysReturned(s: State, a: Action, r: CallRef)
    requires IsFwd(a) && FwdEnabled(s, a) && HasReturned(s, r)
    ensures HasReturned(FwdNext(s, a), r)
  {
    if a.Forward? { C.NextKeepsCallers(s.fwds[a.i], a.a); }
  }

  lemma {:induction false} ReturnedStays(ss: nat -> State, ls: nat -> Label, c: nat, h: Held, n: nat, m: nat, r: CallRef)
    requires IsRun(ss, ls) && n <= m && Closing(ss(n), c, h) && HasReturned(ss(n), r)
    requires forall i: nat :: n <= i ==> !Acts(ls(i), c)
    ensures HasReturned(ss(m), r)
    decreases m
  {
    if n < m {
      ReturnedStays(ss, ls, c, h, n, m - 1, r);
      ReturnedNext(ss, ls, c, h, n, m - 1, r);
    }
  }

  lemma ReturnedNext(ss: nat -> State, ls: nat -> Label, c: nat, h: Held, n: nat, m: nat, r: CallRef)
    requires IsRun(ss, ls) && n <= m && Closing(ss(n), c, h) && HasReturned(ss(m), r)
    requires forall i: nat :: n <= i ==> !Acts(ls(i), c)
    ensures HasReturned(ss(m + 1), r)
  {
    Waits(ss, ls, c, h, n, m);
    assert StepAt(ss, ls, m);
    StaysReturned(ss(m), c, h, ls(m), ss(m + 1), r);
  }

  /** The first j of the Close calls have returned from k on. */
  lemma {:induction false} CallsReturn(ss: nat -> State, ls: nat -> Label, c: nat, h: Held, n: nat, j: nat) returns (k: nat)
    requires IsRun(ss, ls) && FwdFair(ss, ls) && Closing(ss(n), c, h) && h.Joining? && j <= |h.calls|
    requires forall i: nat :: n <= i ==> !Acts(ls(i), c)
    ensures k >= n && forall i :: 0 <= i < j ==> HasReturned(ss(k), h.calls[i])
    decreases j
  {
    if j == 0 { return n; }
    var m := CallsReturn(ss, ls, c, h, n, j - 1);
    Waits(ss, ls, c, h, n, m);
    k := CallReturns(ss, ls, c, h, m, j - 1);
    forall i | 0 <= i < j - 1 ensures HasReturned(ss(k), h.calls[i]) {
      ReturnedStays(ss, ls, c, h, m, k, h.calls[i]);
    }
  }

  lemma CallReturns(ss: nat -> State, ls: nat -> Label, c: nat, h: Held, n: nat, j: nat) returns (k: nat)
    requires IsRun(ss, ls) && FwdFair(ss, ls) && Closing(ss(n), c, h) && h.Joining? && j < |h.calls|
    requires forall i: nat :: n <= i ==> !Acts(ls(i), c)
    ensures k >= n && HasReturned(ss(k), h.calls[j])
  {
    CallIsValid(ss(n), c, h, j);
    k := ForwarderEnds(ss, ls, c, h, n, h.calls[j].f);
    Waits(ss, ls, c, h, n, k);
    CallIsValid(ss(k), c, h, j);
  }

  lemma CallIsValid(s: State, c: nat, h: Held, j: nat)
    requires Closing(s, c, h) && h.Joining? && j < |h.calls|
    ensures h.calls[j].f < |s.fwds| && h.calls[j].k < |s.fwds[h.calls[j].f].callers|
  {
    T.ReachableInv(s);
    assert T.CtlInv(s, s.ctls[c]) && T.ValidCalls(s, h.calls);
  }

  /** The wait for them does not last for ever. */
  lemma JoinActs(ss: nat -> State, ls: nat -> Label, c: nat, h: Held, n: nat)
    requires IsRun(ss, ls) && FwdFair(ss, ls) && CtlFair(ss, ls, c) && Closing(ss(n), c, h) && h.Joining?
    ensures exists m: nat :: n <= m && Acts(ls(m), c)
  {
    if forall i: nat :: n <= i ==> !Acts(ls(i), c) {
      var k := CallsReturn(ss, ls, c, h, n, |h.calls|);
      assert CtlServed(ss, ls, c, k);
      var m: nat :| m >= k && (Blocked(ss(m), c) || Acts(ls(m), c));
      Waits(ss, ls, c, h, n, k);
      Waits(ss, ls, c, h, n, m);
      forall i | 0 <= i < |h.calls| ensures HasReturned(ss(m), h.calls[i]) {
        ReturnedStays(ss, ls, c, h, k, m, h.calls[i]);
      }
      NotBlocked(ss(m), c, h);
      assert false;
    }
  }

  lemma JoinedIsSilent(s: State, c: nat, h: Held, a: Action)
    requires Closing(s, c, h) && h.Joining? && Enabled(s, a) && IsCtlAction(a, c)
    ensures T.Quieted(Next(s, a), c) && T.Silent(Next(s, a))
  {
    ExtendReachable(s, a);
    assert a == Joined(c);
    QuietedIsSilent(Next(s, a), c);
  }

  lemma QuietedIsSilent(s: State, c: nat)
    requires Reachable(s) && T.Quieted(s, c)
    ensures T.Silent(s)
  {
    T.ReachableInv(s);
    T.QuietedIsSilent(s, c);
  }

  lemma JoinEnds(ss: nat -> State, ls: nat -> Label, c: nat, h: Held, n: nat) returns (k: nat)
    requires IsRun(ss, ls) && FwdFair(ss, ls) && CtlFair(ss, ls, c) && Closing(ss(n), c, h) && h.Joining?
    ensures k >= n && T.Quieted(ss(k), c) && T.Silent(ss(k))
  {
    JoinActs(ss, ls, c, h, n);
    var j: nat :| n <= j && Acts(ls(j), c);
    var m := FirstAct(ls, c, n, j);
    Waits(ss, ls, c, h, n, m);
    assert StepAt(ss, ls, m);
    k := m + 1;
    JoinedIsSilent(ss(m), c, h, ls(m).a);
  }

  /**
   CloseAllForwarders returns: in every fair run, whatever the peers, the listener, the other
   controllers and the forwarders do in between, a call made while every unfinished forwarder has
   been given its client connection, and none was closed before that, comes back, and then every
   forwarder is over. The fair schedule lets every write return.
   */
  lemma CloseAllReturns(ss: nat -> State, ls: nat -> Label, c: nat, n: nat)
    requires IsRun(ss, ls) && FwdFair(ss, ls) && CtlFair(ss, ls, c)
    requires Closing(ss(n), c, WalkWant)
    ensures exists k: nat :: k >= n && T.Quieted(ss(k), c) && T.Silent(ss(k))
  {
    var m := Moves(ss, ls, c, WalkWant, n);
    OwnStep(ss(m), c, WalkWant, ls(m).a);
    var k, calls := WalkEnds(ss, ls, c, Walking(0, []), m + 1);
    var e := JoinEnds(ss, ls, c, Joining(calls), k);
  }
}
