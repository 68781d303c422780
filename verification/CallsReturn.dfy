/**
 When exec does not stay in its calls of the service (server/lm.go:151, :157): in fair runs of a migration
 CloseAllForwarders returns if it is called in time, and Suspend if nobody else is in one and the
 service goes on answering.
 */
module CallsReturn {
  import opened Basics
  import opened Migration
  import opened Ending
  import opened Progress
  import V = Service
  import H = Handshake
  import T = Traffic
  import W = Waiters
  import N = Answer
  import E = Returns
  import O = ServiceObject

  // ---------------------------------------------------------------- CloseAllForwarders

  /** The service's part of a run from n on. */
  function VRun(ms: nat -> State, n: nat): nat -> V.State { (i: nat) => ms(n + i).v }

  function VLabel(s: State, l: Label): E.Label {
    if l.Act? && Part(s, l.a).Some? then E.Act(Part(s, l.a).value) else E.Stutter
  }

  function VLabels(ms: nat -> State, ls: nat -> Label, n: nat): nat -> E.Label { (i: nat) => VLabel(ms(n + i), ls(n + i)) }

  lemma VRunIsRun(ms: nat -> State, ls: nat -> Label, n: nat)
    requires IsRun(ms, ls)
    ensures E.IsRun(VRun(ms, n), VLabels(ms, ls, n))
  {
    forall i: nat ensures E.StepAt(VRun(ms, n), VLabels(ms, ls, n), i) {
      assert StepAt(ms, ls, n + i);
      VLabelsAt(ms, ls, n, i);
      VLabelsAt(ms, ls, n, i + 1);
      assert n + (i + 1) == n + i + 1;
      VStep(ms(n + i), ls(n + i), ms(n + i + 1));
    }
  }

  lemma VStep(s: State, l: Label, t: State)
    requires if l.Act? then Enabled(s, l.a) && t == Next(s, l.a) else t == s
    ensures E.StepOk(s.v, VLabel(s, l), t.v)
  {
    if l.Act? { StepProjects(s, l.a); }
  }

  /** What exec can do inside CloseAllForwarders is what its controller can do. */
  lemma ExecIsController(s: State, a: Action)
    requires s.m.r.pc.CloseAll? && Enabled(s, a) && IsExec(s, a)
    ensures a.CloseAllReturns? || (Part(s, a).Some? && E.IsCtlAction(Part(s, a).value, s.c))
  {
  }

  lemma BlockedInCall(s: State)
    requires Reachable(s) && s.m.r.pc.CloseAll? && Blocked(s, Exec)
    ensures E.Blocked(s.v, s.c)
  {
    if !AwaitsClosing(s) { CloseAllMoves(s); }
    forall b | E.IsCtlAction(b, s.c) ensures !V.Enabled(s.v, b) { JoiningIsBlocked(s.v, b, s.c); }
  }

  lemma JoiningIsBlocked(v: V.State, b: V.Action, c: nat)
    requires c < |v.ctls| && v.ctls[c].Holding? && v.ctls[c].h.Joining? && !V.AllReturned(v, v.ctls[c].h.calls)
    requires E.IsCtlAction(b, c)
    ensures !V.Enabled(v, b)
  {
  }

  lemma CloseAllMoves(s: State)
    requires Reachable(s) && s.m.r.pc.CloseAll? && !AwaitsClosing(s)
    ensures !Blocked(s, Exec)
  {
    ReachableInv(s);
    CallGoesOn(s);
  }

  lemma ControllerServed(ms: nat -> State, ls: nat -> Label, n: nat, i: nat)
    requires IsRun(ms, ls) && Fair(ms, ls) && StaysInCloseAll(ms, n)
    ensures E.CtlServed(VRun(ms, n), VLabels(ms, ls, n), ms(n).c, i)
  {
    var k := ControllerTime(ms, ls, n, n + i);
    ServedInRun(ms, ls, n, i, k - n);
  }

  lemma ServedInRun(ms: nat -> State, ls: nat -> Label, n: nat, i: nat, j: nat)
    requires j >= i && (E.Blocked(ms(n + j).v, ms(n).c) || E.Acts(VLabel(ms(n + j), ls(n + j)), ms(n).c))
    ensures E.CtlServed(VRun(ms, n), VLabels(ms, ls, n), ms(n).c, i)
  {
    VLabelsAt(ms, ls, n, j);
    assert E.Blocked(VRun(ms, n)(j), ms(n).c) || E.Acts(VLabels(ms, ls, n)(j), ms(n).c);
  }

  lemma ControllerTime(ms: nat -> State, ls: nat -> Label, n: nat, i: nat) returns (k: nat)
    requires IsRun(ms, ls) && Fair(ms, ls) && StaysInCloseAll(ms, n) && n <= i
    ensures k >= i && (E.Blocked(ms(k).v, ms(n).c) || E.Acts(VLabel(ms(k), ls(k)), ms(n).c))
  {
    var blocked;
    k, blocked := Scheduled(ms, ls, Exec, i);
    SameController(ms, ls, n, k);
    assert InCloseAll(ms, k) && InCloseAll(ms, k + 1);
    ServedAt(ms, ls, k, blocked);
  }

  lemma ServedAt(ms: nat -> State, ls: nat -> Label, k: nat, blocked: bool)
    requires IsRun(ms, ls) && Reachable(ms(k)) && InCloseAll(ms, k) && InCloseAll(ms, k + 1)
    requires if blocked then Blocked(ms(k), Exec) else Acts(ms(k), Exec, ls(k))
    ensures E.Blocked(ms(k).v, ms(k).c) || E.Acts(VLabel(ms(k), ls(k)), ms(k).c)
  {
    if blocked { BlockedInCall(ms(k)); } else { ActIsController(ms, ls, k); }
  }

  lemma ControllerFair(ms: nat -> State, ls: nat -> Label, n: nat)
    requires IsRun(ms, ls) && Fair(ms, ls) && StaysInCloseAll(ms, n)
    ensures E.CtlFair(VRun(ms, n), VLabels(ms, ls, n), ms(n).c)
  {
    forall i: nat ensures E.CtlServed(VRun(ms, n), VLabels(ms, ls, n), ms(n).c, i) { ControllerServed(ms, ls, n, i); }
  }

  lemma SameController(ms: nat -> State, ls: nat -> Label, n: nat, k: nat)
    requires IsRun(ms, ls)
    ensures Reachable(ms(k)) && ms(k).c == ms(n).c
  {
    RunReaches(ms, ls, n);
    RunReaches(ms, ls, k);
  }

  lemma VLabelsAt(ms: nat -> State, ls: nat -> Label, n: nat, i: nat)
    ensures VRun(ms, n)(i) == ms(n + i).v && VLabels(ms, ls, n)(i) == VLabel(ms(n + i), ls(n + i))
  {
  }

  lemma ActIsController(ms: nat -> State, ls: nat -> Label, k: nat)
    requires IsRun(ms, ls) && InCloseAll(ms, k) && InCloseAll(ms, k + 1) && Acts(ms(k), Exec, ls(k))
    ensures E.Acts(VLabel(ms(k), ls(k)), ms(k).c)
  {
    assert StepAt(ms, ls, k);
    ExecIsController(ms(k), ls(k).a);
    ReturnLeavesCall(ms(k), ls(k).a);
  }

  lemma ReturnLeavesCall(s: State, a: Action)
    requires Enabled(s, a)
    ensures a.CloseAllReturns? ==> !Next(s, a).m.r.pc.CloseAll?
  {
  }


  /** All forwarders are closed, and only the return of the call is missing. */
  predicate AllClosed(s: State) {
    s.m.r.pc.CloseAll? && Ctl(s, V.Holding(V.Free(true)))
  }

  lemma AllClosedStep(s: State, a: Action)
    requires Reachable(s) && AllClosed(s) && Enabled(s, a)
    ensures if IsExec(s, a) then a.CloseAllReturns? else AllClosed(Next(s, a))
  {
    Syncs(s);
    if !IsExec(s, a) {
      OthersLeaveExec(s, a);
      OthersLeaveRestore(s, a);
    }
  }

  lemma ClosedCallReturns(ms: nat -> State, ls: nat -> Label, k: nat) returns (j: nat)
    requires IsRun(ms, ls) && Fair(ms, ls) && AllClosed(ms(k))
    ensures j >= k && !InCloseAll(ms, j)
  {
    AllClosedLasts();
    var i := ActsUnder(ms, ls, Exec, IsAllClosed(), k);
    ClosedTurnAt(ms, ls, i);
    j := i + 1;
  }

  lemma ClosedTurnAt(ms: nat -> State, ls: nat -> Label, i: nat)
    requires IsRun(ms, ls) && AllClosed(ms(i)) && Acts(ms(i), Exec, ls(i))
    ensures !InCloseAll(ms, i + 1)
  {
    assert StepAt(ms, ls, i);
    RunReaches(ms, ls, i);
    ClosedTurn(ms(i), ls(i).a);
  }

  ghost function IsAllClosed(): State -> bool { (s: State) => AllClosed(s) }

  lemma AllClosedLasts()
    ensures Kept(IsAllClosed(), Not(Exec)) && Lively(IsAllClosed(), Exec)
  {
    forall s: State, a: Action ensures KeptBy(IsAllClosed(), Not(Exec), s, a) {
      if Reachable(s) && AllClosed(s) && Enabled(s, a) && !IsExec(s, a) { AllClosedStep(s, a); }
    }
    forall s: State ensures LivelyAt(IsAllClosed(), Exec, s) { if Reachable(s) && AllClosed(s) { AllClosedMoves(s); } }
  }

  lemma ClosedTurn(s: State, a: Action)
    requires Reachable(s) && AllClosed(s) && Enabled(s, a) && IsExec(s, a)
    ensures !Next(s, a).m.r.pc.CloseAll?
  {
    AllClosedStep(s, a);
    ReturnLeavesCall(s, a);
  }

  lemma AllClosedMoves(s: State)
    requires Reachable(s) && AllClosed(s)
    ensures !Blocked(s, Exec)
  {
    Syncs(s);
    assert Enabled(s, CloseAllReturns) && IsExec(s, CloseAllReturns);
  }

  lemma QuietedCallIsClosed(s: State)
    requires Reachable(s) && s.m.r.pc.CloseAll? && T.Quieted(s.v, s.c)
    ensures AllClosed(s)
  {
    ReachableInv(s);
  }

  /**
   exec does not stay in CloseAllForwarders, in any fair run in which the forwarders' goroutines are
   scheduled too, when it calls it while every unfinished forwarder has been given its client
   connection and none was closed before.
   */
  lemma CloseAllComesBack(ms: nat -> State, ls: nat -> Label, n: nat)
    requires IsRun(ms, ls) && Fair(ms, ls) && E.FwdFair(VRun(ms, n), VLabels(ms, ls, n))
    requires ms(n).m.r.pc.CloseAll? && E.Closing(ms(n).v, ms(n).c, V.WalkWant)
    ensures !StaysInCloseAll(ms, n)
  {
    var j := LeavesCloseAll(ms, ls, n);
  }

  lemma LeavesCloseAll(ms: nat -> State, ls: nat -> Label, n: nat) returns (j: nat)
    requires IsRun(ms, ls) && Fair(ms, ls) && E.FwdFair(VRun(ms, n), VLabels(ms, ls, n))
    requires ms(n).m.r.pc.CloseAll? && E.Closing(ms(n).v, ms(n).c, V.WalkWant)
    ensures j >= n && !InCloseAll(ms, j)
  {
    if StaysInCloseAll(ms, n) {
      var k := GetsQuieted(ms, ls, n);
      RunReaches(ms, ls, k);
      RunReaches(ms, ls, n);
      assert InCloseAll(ms, k);
      QuietedCallIsClosed(ms(k));
      j := ClosedCallReturns(ms, ls, k);
    } else {
      j :| n <= j && !InCloseAll(ms, j);
    }
  }

  lemma GetsQuieted(ms: nat -> State, ls: nat -> Label, n: nat) returns (k: nat)
    requires IsRun(ms, ls) && Fair(ms, ls) && E.FwdFair(VRun(ms, n), VLabels(ms, ls, n)) && StaysInCloseAll(ms, n)
    requires E.Closing(ms(n).v, ms(n).c, V.WalkWant)
    ensures k >= n && T.Quieted(ms(k).v, ms(n).c)
  {
    var vs, vl := VRun(ms, n), VLabels(ms, ls, n);
    VRunIsRun(ms, ls, n);
    ControllerFair(ms, ls, n);
    VLabelsAt(ms, ls, n, 0);
    var i := CallEnds(vs, vl, ms(n).c);
    VLabelsAt(ms, ls, n, i);
    k := n + i;
  }

  lemma CallEnds(vs: nat -> V.State, vl: nat -> E.Label, c: nat) returns (i: nat)
    requires E.IsRun(vs, vl) && E.FwdFair(vs, vl) && E.CtlFair(vs, vl, c) && E.Closing(vs(0), c, V.WalkWant)
    ensures T.Quieted(vs(i), c)
  {
    E.CloseAllReturns(vs, vl, c, 0);
    i :| T.Quieted(vs(i), c);
  }

  // ---------------------------------------------------------------- Suspend

  /** No other controller is in a Suspend. */
  predicate Alone(s: State) {
    Others(s.v, s.c)
  }

  predicate IsSuspend(l: Label) { l.Act? && l.a.Svc? && l.a.b.Suspend? }

  /** exec waits for its token, and nobody else could take it. */
  predicate Awaiting(s: State) { AwaitsToken(s) && Alone(s) }

  lemma AwaitingFacts(s: State)
    requires Reachable(s) && Awaiting(s)
    ensures H.Inv(s.v) && (W.Hopeful(s.v) <==> s.v.tokens == 1 || H.Answering(s.v))
    ensures H.Answering(s.v) ==> !s.v.lock.ByCtl? && s.v.listMux.None?
    ensures H.Answering(s.v) && (s.v.lpc.Rating? || s.v.lpc.Pushing? || s.v.lpc.Spawning?) ==> s.v.lpc.f < |s.v.fwds|
  {
    ReachableInv(s);
    if H.Answering(s.v) { N.ListFree(s.v); }
    assert forall d :: 0 <= d < |s.v.ctls| ==> !s.v.ctls[d].RaiseWant? && !s.v.ctls[d].RaiseSet?;
  }

  predicate Taking(s: State, a: Action) { a == Svc(V.Receive(s.c)) }

  lemma AwaitingStep(s: State, a: Action)
    requires Awaiting(s) && Enabled(s, a) && !Taking(s, a) && !IsSuspend(Act(a))
    ensures Awaiting(Next(s, a)) && !IsExec(s, a)
  {
    if a.Svc? {
      WaiterDoesNothing(s.v, a.b, s.c);
      StaysAlone(s.v, a.b, s.c);
    } else {
      RestLeavesWaiter(s, a);
    }
  }

  lemma RestLeavesWaiter(s: State, a: Action)
    requires AwaitsToken(s) && Enabled(s, a) && !a.Svc?
    ensures AwaitsToken(Next(s, a)) && Next(s, a).v == s.v && Next(s, a).c == s.c && !IsExec(s, a)
  {
  }

  predicate Others(v: V.State, c: nat) {
    forall d :: 0 <= d < |v.ctls| && d != c ==>
      !v.ctls[d].RaiseWant? && !v.ctls[d].RaiseSet? && !v.ctls[d].RaiseTell? && !v.ctls[d].Waiting?
  }

  lemma StaysAlone(v: V.State, b: V.Action, c: nat)
    requires V.Enabled(v, b) && !b.Suspend? && c < |v.ctls| && Others(v, c)
    ensures Others(V.Next(v, b), c)
  {
    if V.IsDoor(b) { DoorStaysAlone(v, b, c); } else if V.IsHeld(b) { HeldStaysAlone(v, b, c); }
  }

  lemma DoorStaysAlone(v: V.State, b: V.Action, c: nat)
    requires V.IsDoor(b) && V.DoorEnabled(v, b) && !b.Suspend? && Others(v, c)
    ensures Others(V.DoorNext(v, b), c)
  {
    O.DoorMovesOne(v, b);
  }

  lemma HeldStaysAlone(v: V.State, b: V.Action, c: nat)
    requires V.IsHeld(b) && V.HeldEnabled(v, b) && Others(v, c)
    ensures Others(V.HeldNext(v, b), c)
  {
    O.HeldMovesOne(v, b);
  }

  /** A token stays until exec takes it. */
  lemma TokenStays(s: State, a: Action)
    requires Awaiting(s) && s.v.tokens == 1 && Enabled(s, a) && !Taking(s, a)
    ensures Next(s, a).v.tokens == 1
  {
    StepProjects(s, a);
    if a.Svc? { ServiceKeepsToken(s.v, a.b, s.c); }
  }

  lemma ServiceKeepsToken(v: V.State, b: V.Action, c: nat)
    requires V.Enabled(v, b) && v.tokens == 1 && b != V.Receive(c)
    requires forall d :: 0 <= d < |v.ctls| && d != c ==> !v.ctls[d].Waiting?
    ensures V.Next(v, b).tokens == 1
  {
  }

  /** Only the listener moves while it is answering, and it comes nearer to the token, or exits. */
  lemma AnsweringStep(s: State, a: Action)
    requires Reachable(s) && Awaiting(s) && H.Answering(s.v) && s.v.tokens == 0 && Enabled(s, a) && !IsSuspend(Act(a))
    ensures !Taking(s, a)
    ensures var t := Next(s, a).v; var moved := a.Svc? && V.IsListener(a.b);
      || t.tokens == 1 || t.lpc == V.Exited
      || (H.Answering(t) && H.StepsToToken(t.lpc) <= H.StepsToToken(s.v.lpc) - (if moved then 1 else 0))
  {
    AwaitingFacts(s);
    StepProjects(s, a);
    if a.Svc? { H.ListenerAnswers(s.v, a.b); }
  }

  lemma ListenerMoves(s: State)
    requires Reachable(s) && Awaiting(s) && H.Answering(s.v) && s.v.tokens == 0
    ensures !Blocked(s, Listener)
  {
    AwaitingFacts(s);
    assert Enabled(s, Svc(N.Onward(s.v))) && V.IsListener(N.Onward(s.v));
  }

  ghost predicate Undisturbed(ls: nat -> Label, n: nat) { forall i: nat :: n <= i ==> Uncalled(ls, i) }

  predicate Uncalled(ls: nat -> Label, i: nat) { !IsSuspend(ls(i)) }

  function NotTaking(): (State, Action) -> bool { (s: State, a: Action) => !IsExec(s, a) && !IsSuspend(Act(a)) }

  predicate TokenThere(s: State) { Awaiting(s) && s.v.tokens == 1 }

  lemma TokenStaysThere(ms: nat -> State, ls: nat -> Label, k: nat, j: nat)
    requires IsRun(ms, ls) && Undisturbed(ls, k) && k <= j && TokenThere(ms(k)) && Idle(ms, ls, Exec, k, j)
    ensures TokenThere(ms(j))
  {
    var P := (s: State) => TokenThere(s);
    forall s: State, a: Action ensures KeptBy(P, NotTaking(), s, a) {
      if P(s) && Enabled(s, a) && NotTaking()(s, a) {
        AwaitingStep(s, a);
        TokenStays(s, a);
      }
    }
    forall i: nat | k <= i < j ensures Allowed(ms, ls, NotTaking(), i) { assert NoAct(ms, ls, Exec, i) && Uncalled(ls, i); }
    StaysWhile(ms, ls, NotTaking(), P, k, j);
  }

  lemma TokenIsTaken(ms: nat -> State, ls: nat -> Label, k: nat) returns (j: nat)
    requires IsRun(ms, ls) && Fair(ms, ls) && Undisturbed(ls, k) && TokenThere(ms(k))
    ensures j >= k && Granted(ms(j))
  {
    var i := TokenTurn(ms, ls, k);
    TakesAt(ms, ls, i);
    j := i + 1;
  }

  lemma TokenTurn(ms: nat -> State, ls: nat -> Label, k: nat) returns (i: nat)
    requires IsRun(ms, ls) && Fair(ms, ls) && Undisturbed(ls, k) && TokenThere(ms(k))
    ensures i >= k && TokenThere(ms(i)) && Acts(ms(i), Exec, ls(i))
  {
    var m, acted := NextTurn(ms, ls, Exec, k);
    TokenStaysThere(ms, ls, k, m);
    RunReaches(ms, ls, m);
    ReceiveMoves(ms(m));
    i := m;
  }

  lemma TakesAt(ms: nat -> State, ls: nat -> Label, i: nat)
    requires IsRun(ms, ls) && Awaiting(ms(i)) && Acts(ms(i), Exec, ls(i))
    ensures Granted(ms(i + 1))
  {
    assert StepAt(ms, ls, i);
    ExecTakes(ms(i), ls(i).a);
  }

  lemma ReceiveMoves(s: State)
    requires Reachable(s) && Awaiting(s) && s.v.tokens == 1
    ensures !Blocked(s, Exec)
  {
    AwaitingFacts(s);
    assert Enabled(s, Svc(V.Receive(s.c))) && IsExec(s, Svc(V.Receive(s.c)));
  }

  lemma ExecTakes(s: State, a: Action)
    requires Awaiting(s) && Enabled(s, a) && IsExec(s, a)
    ensures Next(s, a).m.r.pc.Suspend? && Ctl(Next(s, a), V.Holding(V.Free(false)))
  {
    assert Taking(s, a);
  }

  /** exec has the service, and only the return of Suspend is missing. */
  predicate Granted(s: State) { s.m.r.pc.Suspend? && Ctl(s, V.Holding(V.Free(false))) }

  lemma GrantedStep(s: State, a: Action)
    requires Reachable(s) && Granted(s) && Enabled(s, a)
    ensures if IsExec(s, a) then !Next(s, a).m.r.pc.Suspend? else Granted(Next(s, a))
  {
    Syncs(s);
    if IsExec(s, a) { GrantIsUsed(s, a); } else {
      OthersLeaveExec(s, a);
      OthersLeaveRestore(s, a);
    }
  }

  lemma GrantReturns(ms: nat -> State, ls: nat -> Label, k: nat) returns (j: nat)
    requires IsRun(ms, ls) && Fair(ms, ls) && Granted(ms(k))
    ensures j >= k && !ms(j).m.r.pc.Suspend?
  {
    GrantLasts();
    var i := ActsUnder(ms, ls, Exec, IsGranted(), k);
    GrantedTurnAt(ms, ls, i);
    j := i + 1;
  }

  lemma GrantedTurnAt(ms: nat -> State, ls: nat -> Label, i: nat)
    requires IsRun(ms, ls) && Granted(ms(i)) && Acts(ms(i), Exec, ls(i))
    ensures !ms(i + 1).m.r.pc.Suspend?
  {
    assert StepAt(ms, ls, i);
    RunReaches(ms, ls, i);
    GrantedStep(ms(i), ls(i).a);
  }

  ghost function IsGranted(): State -> bool { (s: State) => Granted(s) }

  lemma GrantLasts()
    ensures Kept(IsGranted(), Not(Exec)) && Lively(IsGranted(), Exec)
  {
    forall s: State, a: Action ensures KeptBy(IsGranted(), Not(Exec), s, a) {
      if Reachable(s) && Granted(s) && Enabled(s, a) && !IsExec(s, a) { GrantedStep(s, a); }
    }
    forall s: State ensures LivelyAt(IsGranted(), Exec, s) { if Reachable(s) && Granted(s) { GrantMoves(s); } }
  }

  lemma GrantIsUsed(s: State, a: Action)
    requires s.m.r.pc.Suspend? && Ctl(s, V.Holding(V.Free(false))) && Enabled(s, a) && IsExec(s, a)
    ensures !Next(s, a).m.r.pc.Suspend?
  {
    assert a.SuspendReturns?;
  }

  lemma GrantMoves(s: State)
    requires Reachable(s) && Granted(s)
    ensures !Blocked(s, Exec)
  {
    Syncs(s);
    assert Enabled(s, SuspendReturns) && IsExec(s, SuspendReturns);
  }

  /** The run up to j: exec still waits, or the service stopped answering on the way. */
  lemma {:induction false} AnswersOn(ms: nat -> State, ls: nat -> Label, k: nat, j: nat) returns (i: nat)
    requires IsRun(ms, ls) && Undisturbed(ls, k) && k <= j && Awaiting(ms(k)) && H.Answering(ms(k).v) && ms(k).v.tokens == 0
    ensures k <= i <= j && Awaiting(ms(i))
    ensures Ready(ms(i).v)
      || (i == j && H.Answering(ms(i).v) && ms(i).v.tokens == 0 && H.StepsToToken(ms(i).v.lpc) <= H.StepsToToken(ms(k).v.lpc))
    decreases j
  {
    if k == j { return k; }
    i := AnswersOn(ms, ls, k, j - 1);
    if !Ready(ms(i).v) {
      assert Uncalled(ls, j - 1);
      AnswersNext(ms, ls, j - 1);
      i := j;
    }
  }

  /** The answer is there, or will not come. */
  predicate Ready(v: V.State) { v.tokens == 1 || v.lpc == V.Exited }

  lemma AnswersNext(ms: nat -> State, ls: nat -> Label, k: nat)
    requires IsRun(ms, ls) && !IsSuspend(ls(k)) && Awaiting(ms(k)) && H.Answering(ms(k).v) && ms(k).v.tokens == 0
    ensures Awaiting(ms(k + 1))
    ensures var t := ms(k + 1).v;
      || Ready(t)
      || (H.Answering(t) && t.tokens == 0
          && H.StepsToToken(t.lpc) <= H.StepsToToken(ms(k).v.lpc) - (if Acts(ms(k), Listener, ls(k)) then 1 else 0))
  {
    assert StepAt(ms, ls, k);
    RunReaches(ms, ls, k);
    RunReaches(ms, ls, k + 1);
    if ls(k).Act? {
      AnsweringStep(ms(k), ls(k).a);
      AwaitingStep(ms(k), ls(k).a);
    }
    AwaitingFacts(ms(k + 1));
  }

  /** With the listener answering there comes a token, or the listener exits. */
  lemma {:induction false} TokenComes(ms: nat -> State, ls: nat -> Label, k: nat) returns (j: nat)
    requires IsRun(ms, ls) && Fair(ms, ls) && Undisturbed(ls, k) && Awaiting(ms(k)) && H.Answering(ms(k).v) && ms(k).v.tokens == 0
    ensures j >= k && Awaiting(ms(j)) && Ready(ms(j).v)
    decreases H.StepsToToken(ms(k).v.lpc)
  {
    j := ListenerTurn(ms, ls, k);
    if !Ready(ms(j).v) { j := TokenComes(ms, ls, j); }
  }

  lemma ListenerTurn(ms: nat -> State, ls: nat -> Label, k: nat) returns (j: nat)
    requires IsRun(ms, ls) && Fair(ms, ls) && Undisturbed(ls, k) && Awaiting(ms(k)) && H.Answering(ms(k).v) && ms(k).v.tokens == 0
    ensures j >= k && Awaiting(ms(j))
    ensures Ready(ms(j).v)
      || (H.Answering(ms(j).v) && ms(j).v.tokens == 0 && H.StepsToToken(ms(j).v.lpc) < H.StepsToToken(ms(k).v.lpc))
  {
    j := ListenerTime(ms, ls, k);
    if !Ready(ms(j).v) {
      assert Uncalled(ls, j);
      ListenerNears(ms, ls, j);
      j := j + 1;
    }
  }

  lemma ListenerTime(ms: nat -> State, ls: nat -> Label, k: nat) returns (j: nat)
    requires IsRun(ms, ls) && Fair(ms, ls) && Undisturbed(ls, k) && Awaiting(ms(k)) && H.Answering(ms(k).v) && ms(k).v.tokens == 0
    ensures j >= k && Awaiting(ms(j))
    ensures Ready(ms(j).v)
      || (H.Answering(ms(j).v) && ms(j).v.tokens == 0 && H.StepsToToken(ms(j).v.lpc) <= H.StepsToToken(ms(k).v.lpc)
          && Acts(ms(j), Listener, ls(j)))
  {
    var m, acted := NextTurn(ms, ls, Listener, k);
    j := AnswersOn(ms, ls, k, m);
    RunReaches(ms, ls, j);
    if !Ready(ms(j).v) && !acted { ListenerMoves(ms(j)); }
  }

  lemma ListenerNears(ms: nat -> State, ls: nat -> Label, k: nat)
    requires IsRun(ms, ls) && !IsSuspend(ls(k)) && Awaiting(ms(k)) && H.Answering(ms(k).v) && ms(k).v.tokens == 0
    requires Acts(ms(k), Listener, ls(k))
    ensures Awaiting(ms(k + 1))
    ensures var t := ms(k + 1).v;
      Ready(t) || (H.Answering(t) && t.tokens == 0 && H.StepsToToken(t.lpc) < H.StepsToToken(ms(k).v.lpc))
  {
    AnswersNext(ms, ls, k);
  }

  /**
   exec stays in Suspend, in a fair run in which nobody else is or comes to be in one, only if at some
   point the service can no longer let it return: until then either it comes back, or that is so.
   */
  lemma SuspendComesBack(ms: nat -> State, ls: nat -> Label, n: nat)
    requires IsRun(ms, ls) && Fair(ms, ls) && Undisturbed(ls, n) && Awaiting(ms(n))
    ensures exists k: nat :: k >= n && (!ms(k).m.r.pc.Suspend? || (AwaitsToken(ms(k)) && !SuspendCanReturn(ms(k))))
  {
    RunReaches(ms, ls, n);
    AwaitingFacts(ms(n));
    if !W.Hopeful(ms(n).v) {
      SuspendReturnsIffHopeful(ms(n));
      assert n >= n && AwaitsToken(ms(n)) && !SuspendCanReturn(ms(n));
    } else {
      var k := n;
      if ms(n).v.tokens != 1 { k := TokenComes(ms, ls, n); }
      RunReaches(ms, ls, k);
      AwaitingFacts(ms(k));
      if ms(k).v.tokens == 1 {
        var j := TokenIsTaken(ms, ls, k);
        var e := GrantReturns(ms, ls, j);
      } else {
        SuspendReturnsIffHopeful(ms(k));
        assert k >= n && AwaitsToken(ms(k)) && !SuspendCanReturn(ms(k));
      }
    }
  }
}
