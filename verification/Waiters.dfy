/**
 When a Suspend can return (server/fwdsvc.go:80-86), in every state of the service: the exact condition
 of module Answer without its restriction on what the other controllers are doing.
 */
module Waiters {
  import opened Basics
  import opened Service
  import opened Handshake
  import opened Answer
  import F = Forwarder
  import C = Cascade
  import T = Traffic
  import D = Driven

  // ---------------------------------------------------------------- runs without another Suspend

  ghost predicate Leads(s: State, t: State) {
    exists acts: seq<Action> :: Legal(s, acts) && NoSuspend(acts) && After(s, acts) == t
  }

  lemma LeadsSelf(s: State)
    ensures Leads(s, s)
  {
    assert Legal(s, []) && NoSuspend([]) && After(s, []) == s;
  }

  lemma LeadsOn(o: State, s: State, a: Action)
    requires Leads(o, s) && Enabled(s, a) && !a.Suspend? && Reachable(s)
    ensures Leads(o, Next(s, a)) && Reachable(Next(s, a))
  {
    var acts: seq<Action> :| Legal(o, acts) && NoSuspend(acts) && After(o, acts) == s;
    AppendStep(o, acts, a);
    assert NoSuspend(acts + [a]);
    ExtendReachable(s, a);
  }

  lemma GateInv(s: State)
    requires Reachable(s)
    ensures Inv(s)
  {
    T.ReachableInv(s);
  }

  /** Some run without another Suspend leads to where c can take a token. */
  ghost predicate CanReceiveBy(s: State, c: nat) {
    exists t: State :: Leads(s, t) && Enabled(t, Receive(c))
  }

  predicate WaitingAt(s: State, c: nat) { IsCtl(s, c, Waiting) }

  predicate SomeWant(s: State) { exists d :: 0 <= d < |s.ctls| && s.ctls[d].RaiseWant? }

  predicate SomeSet(s: State) { exists d :: 0 <= d < |s.ctls| && s.ctls[d].RaiseSet? }

  predicate SomeHolds(s: State) { exists d :: 0 <= d < |s.ctls| && Holds(s.ctls[d]) }

  /**
   A token is there. Or the listener has not exited, and: if it runs, the flag is up or will be
   raised; if it is parked, somebody is still waiting to raise the flag, and it will be lowered
   before, or is down with nobody raising it already.
   */
  predicate Hopeful(s: State) {
    || s.tokens == 1
    || (s.lpc != Exited &&
        if Parked(s.lpc) then SomeWant(s) && (if s.flag then SomeHolds(s) else !SomeSet(s))
        else s.flag || SomeWant(s) || SomeSet(s))
  }

  // ---------------------------------------------------------------- the flag is up

  function LockSteps(s: State): nat {
    if s.lock.ByCtl? then (if s.lock.c < |s.ctls| && s.ctls[s.lock.c].RaiseSet? then 2 else 1)
    else if s.lock.ByListener? then 1 else 0
  }

  lemma OnwardHelps(s: State, c: nat)
    requires Reachable(s) && Answering(s) && WaitingAt(s, c) && s.tokens == 0
    ensures Enabled(s, Onward(s)) && !Onward(s).Suspend?
    ensures var t := Next(s, Onward(s)); WaitingAt(t, c) && (t.tokens == 1 || Answering(t))
  {
    T.ReachableInv(s);
    AnswerNotBlocked(s);
    OnwardKeepsFlag(s, c);
  }

  lemma OnwardKeepsFlag(s: State, c: nat)
    requires Inv(s) && Answering(s) && WaitingAt(s, c) && s.tokens == 0 && Enabled(s, Onward(s))
    ensures var t := Next(s, Onward(s)); WaitingAt(t, c) && (t.tokens == 1 || Answering(t))
  {
  }

  function AnswerSteps(s: State): nat { 3 * StepsToToken(s.lpc) + LockSteps(s) }

  lemma OnwardNears(s: State)
    requires Inv(s) && Answering(s) && s.tokens == 0 && Enabled(s, Onward(s))
    ensures var t := Next(s, Onward(s)); t.tokens == 1 || AnswerSteps(t) < AnswerSteps(s)
  {
  }

  lemma {:induction false} FromAnswering(o: State, s: State, c: nat)
    requires Leads(o, s) && Reachable(s) && WaitingAt(s, c) && (s.tokens == 1 || Answering(s))
    ensures CanReceiveBy(o, c)
    decreases AnswerSteps(s)
  {
    if s.tokens == 1 {
      GateInv(s);
      assert Enabled(s, Receive(c));
    } else {
      GateInv(s);
      OnwardHelps(s, c);
      OnwardNears(s);
      LeadsOn(o, s, Onward(s));
      var t := Next(s, Onward(s));
      if t.tokens == 1 {
        GateInv(t);
        assert Enabled(t, Receive(c));
      } else { FromAnswering(o, t, c); }
    }
  }

  // ---------------------------------------------------------------- the flag is down

  predicate Raiser(s: State, d: nat) { d < |s.ctls| && Raising(s.ctls[d]) }

  predicate Runs(s: State) { !Parked(s.lpc) && s.lpc != Exited }

  /** Towards raising the flag by d. */
  function RaiseStep(s: State, d: nat): Action
    requires Raiser(s, d)
  {
    if s.ctls[d].RaiseSet? then SetFlag(d)
    else if s.lock.ByListener? then (if s.lpc == Testing then LTest else LUnlock)
    else if s.lock.ByCtl? then Release(s, s.lock.c)
    else Acquire(d)
  }

  function RaiseSteps(s: State, d: nat): nat
    requires Raiser(s, d)
  {
    (if s.ctls[d].RaiseWant? then 10 else 0) + LockSteps(s) + (if s.lpc == Testing then 1 else 0)
  }

  lemma RaiseStepHelps(s: State, c: nat, d: nat)
    requires Inv(s) && !s.flag && Runs(s) && WaitingAt(s, c) && Raiser(s, d)
    ensures Enabled(s, RaiseStep(s, d)) && !RaiseStep(s, d).Suspend?
    ensures var t := Next(s, RaiseStep(s, d));
      WaitingAt(t, c) && Runs(t) && (t.flag || (Raiser(t, d) && RaiseSteps(t, d) < RaiseSteps(s, d)))
  {
  }

  lemma {:induction false} FromRaiser(o: State, s: State, c: nat, d: nat)
    requires Leads(o, s) && Reachable(s) && WaitingAt(s, c) && !s.flag && Runs(s) && Raiser(s, d)
    ensures CanReceiveBy(o, c)
    decreases RaiseSteps(s, d)
  {
    GateInv(s);
    RaiseStepHelps(s, c, d);
    LeadsOn(o, s, RaiseStep(s, d));
    var t := Next(s, RaiseStep(s, d));
    if t.flag { FromAnswering(o, t, c); } else { FromRaiser(o, t, c, d); }
  }

  // ---------------------------------------------------------------- the listener is parked

  predicate Wants(s: State, d: nat) { IsCtl(s, d, RaiseWant) }

  predicate ParkedDown(s: State, c: nat, d: nat) {
    Parked(s.lpc) && !s.flag && !SomeSet(s) && WaitingAt(s, c) && Wants(s, d)
  }

  /** Towards waking the listener. */
  function WakeStep(s: State): Action {
    if s.lpc == Retesting then LRetest else if s.lock.ByCtl? then Tell(s.lock.c) else LWake
  }

  function WakeSteps(s: State): nat {
    (match s.lpc case Retesting => 0 case Asleep(n) => if n then 3 else 6 case _ => 0) + LockSteps(s)
  }

  lemma WakeStepHelps(s: State, c: nat, d: nat)
    requires Inv(s) && ParkedDown(s, c, d)
    ensures Enabled(s, WakeStep(s)) && !WakeStep(s).Suspend?
    ensures var t := Next(s, WakeStep(s));
      if s.lpc == Retesting then Runs(t) && !t.flag && WaitingAt(t, c) && Wants(t, d)
      else ParkedDown(t, c, d) && WakeSteps(t) < WakeSteps(s)
  {
    if s.lpc != Retesting && s.lock.ByCtl? { assert s.ctls[s.lock.c].LowerTell?; }
  }

  lemma {:induction false} FromParkedDown(o: State, s: State, c: nat, d: nat)
    requires Leads(o, s) && Reachable(s) && ParkedDown(s, c, d)
    ensures CanReceiveBy(o, c)
    decreases WakeSteps(s)
  {
    GateInv(s);
    WakeStepHelps(s, c, d);
    LeadsOn(o, s, WakeStep(s));
    var t := Next(s, WakeStep(s));
    if s.lpc == Retesting { FromRaiser(o, t, c, d); } else { FromParkedDown(o, t, c, d); }
  }

  // ---------------------------------------------------------------- somebody holds the service

  predicate Chain(s: State, c: nat, d: nat, e: nat) {
    e < |s.ctls| && Holds(s.ctls[e]) && WaitingAt(s, c) && Wants(s, d)
  }

  predicate InCall(p: Ctl) { p.Holding? && !p.h.Free? }

  /** Towards the holder's lowering of the flag, once it is out of CloseAllForwarders. */
  function LowerStep(s: State, e: nat): Action
    requires e < |s.ctls|
  {
    if s.ctls[e].Holding? then Resume(e)
    else if s.ctls[e].LowerSet? then SetFlag(e)
    else if s.lock.ByListener? then LRetest
    else if s.lock.ByCtl? then Release(s, s.lock.c)
    else Acquire(e)
  }

  function LowerSteps(s: State, e: nat): nat
    requires e < |s.ctls|
  {
    (match s.ctls[e] case Holding(h) => if h.Free? then 20 else 30 case LowerWant(_) => 10 case _ => 0) + LockSteps(s)
  }

  lemma LowerStepHelps(s: State, c: nat, d: nat, e: nat)
    requires Inv(s) && Chain(s, c, d, e) && !InCall(s.ctls[e])
    ensures Enabled(s, LowerStep(s, e)) && !LowerStep(s, e).Suspend?
    ensures var t := Next(s, LowerStep(s, e));
      if s.ctls[e].LowerSet? then ParkedDown(t, c, d)
      else Chain(t, c, d, e) && !InCall(t.ctls[e]) && LowerSteps(t, e) < LowerSteps(s, e)
  {
  }

  lemma {:induction false} FromHolder(o: State, s: State, c: nat, d: nat, e: nat)
    requires Leads(o, s) && Reachable(s) && Chain(s, c, d, e) && !InCall(s.ctls[e])
    ensures CanReceiveBy(o, c)
    decreases LowerSteps(s, e)
  {
    GateInv(s);
    LowerStepHelps(s, c, d, e);
    LeadsOn(o, s, LowerStep(s, e));
    var t := Next(s, LowerStep(s, e));
    if s.ctls[e].LowerSet? { FromParkedDown(o, t, c, d); } else { FromHolder(o, t, c, d, e); }
  }

  // ---------------------------------------------------------------- CloseAllForwarders can return

  /** Only what CloseAllForwarders of e works on differs. */
  predicate SameGate(s: State, t: State, e: nat) {
    && e < |s.ctls| && e < |t.ctls| && t.ctls == s.ctls[e := t.ctls[e]]
    && t.flag == s.flag && t.tokens == s.tokens && t.lock == s.lock && t.lpc == s.lpc && t.crashed == s.crashed
  }

  lemma {:induction false} LiftPath(o: State, s: State, f: nat, fs: seq<F.Fwd>, acts: seq<F.Action>, i: nat)
    requires Leads(o, s) && Reachable(s) && f < |s.fwds| && C.Path(fs, acts) && fs[0] == s.fwds[f] && i <= |acts|
    ensures Leads(o, s.(fwds := s.fwds[f := fs[i]])) && Reachable(s.(fwds := s.fwds[f := fs[i]]))
    decreases i
  {
    if i == 0 {
      assert s.(fwds := s.fwds[f := fs[0]]) == s;
    } else {
      LiftPath(o, s, f, fs, acts, i - 1);
      var t := s.(fwds := s.fwds[f := fs[i - 1]]);
      GateInv(t);
      LeadsOn(o, t, Forward(f, acts[i - 1]));
      assert t.fwds[f := fs[i]] == s.fwds[f := fs[i]];
    }
  }

  lemma EndsForwarder(o: State, s: State, e: nat, f: nat) returns (t: State)
    requires Leads(o, s) && Reachable(s) && e < |s.ctls| && InCall(s.ctls[e]) && f < |s.fwds|
    ensures Leads(o, t) && Reachable(t) && SameGate(s, t, e) && t.ctls == s.ctls && |t.fwds| == |s.fwds| && C.Over(t.fwds[f])
    ensures forall g :: 0 <= g < |s.fwds| && g != f ==> t.fwds[g] == s.fwds[g]
  {
    var u := BeginsForwarder(o, s, e, f);
    FwdInv(u, f);
    var g := D.CanEnd(u.fwds[f]);
    var fs: seq<F.Fwd>, acts: seq<F.Action> :| C.Path(fs, acts) && fs[0] == u.fwds[f] && fs[|acts|] == g;
    LiftPath(o, u, f, fs, acts, |acts|);
    t := u.(fwds := u.fwds[f := g]);
  }

  lemma FwdInv(s: State, f: nat)
    requires Reachable(s) && f < |s.fwds|
    ensures F.Inv(s.fwds[f])
  {
    T.ReachableInv(s);
  }

  /** Its goroutine calls Accept, if it has not yet. */
  lemma BeginsForwarder(o: State, s: State, e: nat, f: nat) returns (t: State)
    requires Leads(o, s) && Reachable(s) && e < |s.ctls| && InCall(s.ctls[e]) && f < |s.fwds|
    ensures Leads(o, t) && Reachable(t) && SameGate(s, t, e) && t.ctls == s.ctls && |t.fwds| == |s.fwds|
    ensures D.Begun(t.fwds[f].main) && forall g :: 0 <= g < |s.fwds| && g != f ==> t.fwds[g] == s.fwds[g]
  {
    ParkedFacts(s, e, f);
    t := s;
    if s.fwds[f].main == F.Spawned {
      LeadsOn(o, s, Begin(f));
      t := Next(s, Begin(f));
    }
  }

  lemma ParkedFacts(s: State, e: nat, f: nat)
    requires Reachable(s) && e < |s.ctls| && InCall(s.ctls[e]) && f < |s.fwds|
    ensures !s.crashed && (D.Begun(s.fwds[f].main) || s.fwds[f].main == F.Spawned)
  {
    T.ReachableInv(s);
    assert Holds(s.ctls[e]) && Parked(s.lpc);
  }

  predicate HasReturned(s: State, r: CallRef) {
    r.f < |s.fwds| && r.k < |s.fwds[r.f].callers| && s.fwds[r.f].callers[r.k].Returned?
  }

  lemma CallsAreValid(s: State, e: nat, calls: seq<CallRef>)
    requires Reachable(s) && IsCtl(s, e, Holding(Joining(calls)))
    ensures T.ValidCalls(s, calls)
  {
    T.ReachableInv(s);
    assert T.CtlInv(s, s.ctls[e]);
  }

  lemma {:induction false} EndsCalls(o: State, s: State, e: nat, calls: seq<CallRef>, j: nat) returns (t: State)
    requires Leads(o, s) && Reachable(s) && IsCtl(s, e, Holding(Joining(calls))) && j <= |calls|
    ensures Leads(o, t) && Reachable(t) && SameGate(s, t, e) && t.ctls == s.ctls
    ensures forall i :: 0 <= i < j ==> HasReturned(t, calls[i])
    decreases j
  {
    if j == 0 { return s; }
    var u := EndsCalls(o, s, e, calls, j - 1);
    t := EndsCall(o, u, e, calls, j - 1);
  }

  lemma EndsCall(o: State, s: State, e: nat, calls: seq<CallRef>, j: nat) returns (t: State)
    requires Leads(o, s) && Reachable(s) && IsCtl(s, e, Holding(Joining(calls))) && j < |calls|
    requires forall i :: 0 <= i < j ==> HasReturned(s, calls[i])
    ensures Leads(o, t) && Reachable(t) && SameGate(s, t, e) && t.ctls == s.ctls
    ensures forall i :: 0 <= i < j + 1 ==> HasReturned(t, calls[i])
  {
    CallsAreValid(s, e, calls);
    t := EndsForwarder(o, s, e, calls[j].f);
    CallsAreValid(t, e, calls);
    forall i | 0 <= i < j + 1 ensures HasReturned(t, calls[i]) { StillReturned(s, t, calls[j].f, calls[i]); }
  }

  lemma StillReturned(s: State, t: State, f: nat, r: CallRef)
    requires |t.fwds| == |s.fwds| && f < |s.fwds| && C.Over(t.fwds[f])
    requires forall g :: 0 <= g < |s.fwds| && g != f ==> t.fwds[g] == s.fwds[g]
    requires r.f < |t.fwds| && r.k < |t.fwds[r.f].callers| && (r.f == f || HasReturned(s, r))
    ensures HasReturned(t, r)
  {
  }

  lemma JoinReturns(o: State, s: State, e: nat, calls: seq<CallRef>) returns (t: State)
    requires Leads(o, s) && Reachable(s) && IsCtl(s, e, Holding(Joining(calls)))
    ensures Leads(o, t) && Reachable(t) && SameGate(s, t, e) && t.ctls[e] == Holding(Free(true))
  {
    var u := EndsCalls(o, s, e, calls, |calls|);
    assert forall j :: 0 <= j < |calls| ==> HasReturned(u, calls[j]);
    assert AllReturned(u, calls);
    GateInv(u);
    LeadsOn(o, u, Joined(e));
    t := Next(u, Joined(e));
  }

  lemma WalkFacts(s: State, e: nat)
    requires Reachable(s) && e < |s.ctls| && InCall(s.ctls[e])
    ensures s.listMux.None? || s.listMux == Some(e)
    ensures s.ctls[e].h.Walking? <==> s.listMux == Some(e)
    ensures !s.crashed && forall i :: 0 <= i < |s.list| ==> s.list[i] < |s.fwds|
  {
    T.ReachableInv(s);
    assert Holds(s.ctls[e]);
    if s.listMux.Some? { assert Holds(s.ctls[s.listMux.value]); }
  }

  function WalkAction(s: State, e: nat): Action
    requires e < |s.ctls| && InCall(s.ctls[e])
  {
    var h := s.ctls[e].h;
    if h.WalkWant? then WalkLock(e) else if h.Walking? && h.at < |s.list| then WalkStep(e) else WalkEnd(e)
  }

  function WalkLeft(s: State, e: nat): nat
    requires e < |s.ctls| && InCall(s.ctls[e])
  {
    var h := s.ctls[e].h;
    if h.WalkWant? then |s.list| + 2
    else if h.Walking? then (if h.at < |s.list| then |s.list| - h.at + 1 else 1)
    else 0
  }

  lemma WalkActionHelps(s: State, e: nat)
    requires Reachable(s) && e < |s.ctls| && InCall(s.ctls[e]) && !s.ctls[e].h.Joining?
    ensures Enabled(s, WalkAction(s, e)) && !WalkAction(s, e).Suspend?
    ensures var t := Next(s, WalkAction(s, e)); SameGate(s, t, e) && InCall(t.ctls[e]) && WalkLeft(t, e) < WalkLeft(s, e)
  {
    WalkFacts(s, e);
  }

  lemma {:induction false} WalkReturns(o: State, s: State, e: nat) returns (t: State)
    requires Leads(o, s) && Reachable(s) && e < |s.ctls| && InCall(s.ctls[e])
    ensures Leads(o, t) && Reachable(t) && SameGate(s, t, e) && t.ctls[e] == Holding(Free(true))
    decreases WalkLeft(s, e)
  {
    if s.ctls[e].h.Joining? { t := JoinReturns(o, s, e, s.ctls[e].h.calls); }
    else {
      WalkActionHelps(s, e);
      LeadsOn(o, s, WalkAction(s, e));
      t := WalkReturns(o, Next(s, WalkAction(s, e)), e);
    }
  }

  // ---------------------------------------------------------------- the exact condition

  lemma HopefulReceives(s: State, c: nat)
    requires Reachable(s) && WaitingAt(s, c) && Hopeful(s)
    ensures CanReceiveBy(s, c)
  {
    LeadsSelf(s);
    GateInv(s);
    if s.tokens == 1 || Answering(s) { FromAnswering(s, s, c); }
    else if !Parked(s.lpc) {
      var d :| 0 <= d < |s.ctls| && Raising(s.ctls[d]);
      FromRaiser(s, s, c, d);
    } else {
      var d :| 0 <= d < |s.ctls| && s.ctls[d].RaiseWant?;
      if !s.flag { FromParkedDown(s, s, c, d); }
      else {
        var e :| 0 <= e < |s.ctls| && Holds(s.ctls[e]);
        HolderReceives(s, c, d, e);
      }
    }
  }

  lemma HolderReceives(s: State, c: nat, d: nat, e: nat)
    requires Reachable(s) && Chain(s, c, d, e)
    ensures CanReceiveBy(s, c)
  {
    LeadsSelf(s);
    var t := s;
    if InCall(s.ctls[e]) { t := WalkReturns(s, s, e); }
    FromHolder(s, t, c, d, e);
  }

  lemma ListenerStaysHopeless(s: State, a: Action)
    requires Inv(s) && !Hopeful(s) && IsListener(a) && ListenerEnabled(s, a)
    ensures !Hopeful(ListenerNext(s, a))
  {
    var t := ListenerNext(s, a);
    assert t.ctls == s.ctls && t.flag == s.flag;
    assert SomeWant(t) == SomeWant(s) && SomeSet(t) == SomeSet(s) && SomeHolds(t) == SomeHolds(s);
  }

  lemma DoorStaysHopeless(s: State, a: Action)
    requires Inv(s) && !Hopeful(s) && IsDoor(a) && DoorEnabled(s, a) && !a.Suspend?
    ensures !Hopeful(DoorNext(s, a)) && !a.Receive?
  {
    var t := DoorNext(s, a);
    assert t.ctls == s.ctls[a.c := t.ctls[a.c]];
    assert forall d :: 0 <= d < |t.ctls| && t.ctls[d].RaiseWant? ==> s.ctls[d].RaiseWant?;
    assert forall d :: 0 <= d < |t.ctls| && t.ctls[d].RaiseSet? ==> s.ctls[d].RaiseSet? || s.ctls[d].RaiseWant?;
    assert forall d :: 0 <= d < |t.ctls| && Holds(t.ctls[d]) ==> Holds(s.ctls[d]) || a.Receive?;
  }

  lemma HeldStaysHopeless(s: State, a: Action)
    requires Inv(s) && !Hopeful(s) && IsHeld(a) && HeldEnabled(s, a)
    ensures !Hopeful(HeldNext(s, a))
  {
    var t := HeldNext(s, a);
    assert Holds(s.ctls[a.c]) && t.ctls == s.ctls[a.c := t.ctls[a.c]];
    assert forall d :: 0 <= d < |t.ctls| && t.ctls[d].RaiseWant? ==> s.ctls[d].RaiseWant?;
    assert forall d :: 0 <= d < |t.ctls| && t.ctls[d].RaiseSet? ==> s.ctls[d].RaiseSet?;
  }

  lemma StaysHopeless(s: State, a: Action)
    requires Inv(s) && !Hopeful(s) && Enabled(s, a) && !a.Suspend?
    ensures !Hopeful(Next(s, a)) && !a.Receive?
  {
    if IsListener(a) { ListenerStaysHopeless(s, a); }
    else if IsDoor(a) { DoorStaysHopeless(s, a); }
    else if IsHeld(a) { HeldStaysHopeless(s, a); }
  }

  lemma {:induction false} HopelessRun(s: State, acts: seq<Action>)
    requires Inv(s) && !Hopeful(s) && Legal(s, acts) && NoSuspend(acts)
    ensures Inv(After(s, acts)) && !Hopeful(After(s, acts))
    decreases |acts|
  {
    if acts != [] {
      StaysHopeless(s, acts[0]);
      NextKeeps(s, acts[0]);
      assert forall i :: 0 <= i < |acts[1..]| ==> acts[1..][i] == acts[i + 1];
      HopelessRun(Next(s, acts[0]), acts[1..]);
    }
  }

  /**
   Exactly when a Suspend that waits for its token can return without another Suspend, in every
   reachable state, whatever the listener and all the other controllers are doing.
   */
  lemma ReturnsIffHopeful(s: State, c: nat)
    requires Reachable(s) && WaitingAt(s, c)
    ensures CanReceiveBy(s, c) <==> Hopeful(s)
  {
    T.ReachableInv(s);
    if Hopeful(s) { HopefulReceives(s, c); }
    else if CanReceiveBy(s, c) {
      var t: State :| Leads(s, t) && Enabled(t, Receive(c));
      var acts: seq<Action> :| Legal(s, acts) && NoSuspend(acts) && After(s, acts) == t;
      HopelessRun(s, acts);
      StaysHopeless(t, Receive(c));
    }
  }
}
