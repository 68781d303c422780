/**
 Where a migration can be left waiting (server/lm.go:149-163): exec's calls of Suspend and of
 CloseAllForwarders have no timeout. Which states of the service let them return, and that
 nothing else stops a migration.
 */
module Ending {
  import opened Basics
  import opened Migration
  import opened Overtake
  import D = Dump
  import R = Restore
  import S = Session
  import V = Service
  import H = Handshake
  import T = Traffic
  import W = Waiters
  import N = Answer
  import O = ServiceObject
  import F = Forwarder
  import C = Cascade
  import X = Driven

  // ---------------------------------------------------------------- the service inside a migration

  /** What an action of the migration is for the service. */
  function Part(s: State, a: Action): Option<V.Action> {
    match a
    case Svc(b) => Some(b)
    case CallSuspend => Some(V.Suspend(s.c))
    case CallCloseAll => Some(V.CloseAll(s.c))
    case Retarget => Some(V.ChangeAddr(s.c, s.dst))
    case Rerate => Some(V.ChangeRate(s.c, 0))
    case CallResume => Some(V.Resume(s.c))
    case Sess(_) => None
    case SuspendReturns => None
    case CloseAllReturns => None
    case ResumeReturns => None
  }

  lemma StepProjects(s: State, a: Action)
    requires Enabled(s, a)
    ensures Next(s, a).c == s.c && Next(s, a).dst == s.dst
    ensures match Part(s, a)
            case None => Next(s, a).v == s.v
            case Some(b) => V.Enabled(s.v, b) && Next(s, a).v == V.Next(s.v, b)
  {
  }

  lemma {:induction false} RunProjects(s: State, acts: seq<Action>)
    requires V.Reachable(s.v) && Legal(s, acts)
    ensures V.Reachable(After(s, acts).v)
    decreases |acts|
  {
    if acts != [] {
      StepProjects(s, acts[0]);
      var b := Part(s, acts[0]);
      if b.Some? { V.ExtendReachable(s.v, b.value); }
      RunProjects(Next(s, acts[0]), acts[1..]);
    }
  }

  /** The service of a reachable migration is in a reachable state of its own. */
  lemma ServiceReachable(s: State)
    requires Reachable(s)
    ensures V.Reachable(s.v)
  {
    var s0: State, acts: seq<Action> :| Initial(s0) && Legal(s0, acts) && After(s0, acts) == s;
    assert V.Legal(s0.v, []) && V.After(s0.v, []) == s0.v;
    RunProjects(s0, acts);
  }

  // ---------------------------------------------------------------- stuck in Suspend

  /** exec waits for the token of a listener that has exited. */
  predicate Stuck(s: State) {
    s.m.r.pc.Suspend? && Ctl(s, V.Waiting) && s.v.lpc == V.Exited
  }

  lemma StaysStuck(s: State, a: Action)
    requires H.Inv(s.v) && Stuck(s) && Enabled(s, a)
    ensures Stuck(Next(s, a))
  {
    if a.Svc? { H.StaysExited(s.v, a.b); }
  }

  lemma {:induction false} StuckForever(s: State, acts: seq<Action>)
    requires Inv(s) && Stuck(s) && Legal(s, acts)
    ensures Stuck(After(s, acts))
    decreases |acts|
  {
    if acts != [] {
      StaysStuck(s, acts[0]);
      NextKeeps(s, acts[0]);
      StuckForever(Next(s, acts[0]), acts[1..]);
    }
  }

  /** With all pre-dumps done neither side of the session can do anything then but fail. */
  lemma StuckSessionRests(s: State, e: S.Action)
    requires Inv(s) && Stuck(s) && s.m.d.loop.Read? && s.m.reqs == [] && Enabled(s, Sess(e))
    ensures !S.Proper(s.m, e)
  {
  }

  lemma RunsExit(v: V.State)
    requires v.lpc == V.Top && !v.flag && v.lock == V.Unlocked && !v.lnClosed && !v.crashed
    ensures var bs := [V.CloseService, V.LLock, V.LTest, V.LUnlock, V.LClosed];
      V.Legal(v, bs) && V.After(v, bs) == v.(lpc := V.Exited, lnClosed := true)
  {
    RunsClosedRound(V.Next(v, V.CloseService));
    V.Prepend(v, V.CloseService, [V.LLock, V.LTest, V.LUnlock, V.LClosed]);
  }

  lemma RunsClosedRound(v: V.State)
    requires v.lpc == V.Top && !v.flag && v.lock == V.Unlocked && v.lnClosed && !v.crashed
    ensures var bs := [V.LLock, V.LTest, V.LUnlock, V.LClosed];
      V.Legal(v, bs) && V.After(v, bs) == v.(lpc := V.Exited)
  {
    var v2 := V.Next(v, V.LLock);
    var v3 := V.Next(v2, V.LTest);
    var v4 := V.Next(v3, V.LUnlock);
    V.Prepend(v4, V.LClosed, []);
    V.Prepend(v3, V.LUnlock, [V.LClosed]);
    V.Prepend(v2, V.LTest, [V.LUnlock, V.LClosed]);
    V.Prepend(v, V.LLock, [V.LTest, V.LUnlock, V.LClosed]);
  }

  lemma ReachesExited(o: State, s: State)
    requires Reaches(o, s) && s.v.lpc == V.Top && !s.v.flag && s.v.lock == V.Unlocked && !s.v.lnClosed && !s.v.crashed
    ensures Reaches(o, s.(v := s.v.(lpc := V.Exited, lnClosed := true)))
  {
    RunsExit(s.v);
    GoExit(o, s, [V.CloseService, V.LLock, V.LTest, V.LUnlock, V.LClosed]);
  }

  lemma GoExit(o: State, s: State, bs: seq<V.Action>)
    requires Reaches(o, s) && bs == [V.CloseService, V.LLock, V.LTest, V.LUnlock, V.LClosed] && V.Legal(s.v, bs)
    ensures Reaches(o, s.(v := V.After(s.v, bs)))
  {
    GoService(o, s, bs);
  }

  lemma ReachesWaiting(o: State, s: State)
    requires Reaches(o, s) && s.m.r.pc.Suspend? && s.c < |s.v.ctls| && s.v.ctls[s.c].Idle?
    requires s.v.lpc == V.Exited && s.v.lock == V.Unlocked && !s.v.crashed
    ensures Reaches(o, s.(v := WithCtl(s.v, s.c, V.Waiting).(flag := true)))
  {
    Go(o, s, CallSuspend);
    var t := s.(v := WithCtl(s.v, s.c, V.RaiseWant));
    RunsRaised(t.v, s.c);
    GoService(o, t, [V.Acquire(s.c), V.SetFlag(s.c), V.Tell(s.c)]);
    assert t.v.ctls[s.c := V.Waiting] == s.v.ctls[s.c := V.Waiting];
  }

  /**
   From the start of every migration, whatever its number of pre-dumps, a run leads to where exec is in
   Suspend for ever, with the dump side waiting for the next request: it takes a Close of the
   service, as Remove makes it, before the listener parks.
   */
  lemma SuspendCanStick(s: State)
    requires Initial(s)
    ensures exists t: State :: Reaches(s, t) && Stuck(t) && t.m.d.loop.Read? && t.m.reqs == []
  {
    assert Legal(s, []) && After(s, []) == s;
    var s1 := ReachesReady(s, s);
    var s2 := ReachesLastRound(s, s1, 0);
    ReachesExited(s, s2);
    var s3 := s2.(v := s2.v.(lpc := V.Exited, lnClosed := true));
    ReachesWaiting(s, s3);
    var t := s3.(v := WithCtl(s3.v, s3.c, V.Waiting).(flag := true));
    assert Stuck(t);
  }

  // ---------------------------------------------------------------- when Suspend returns to exec

  predicate NoMoreSuspends(acts: seq<Action>) {
    forall i :: 0 <= i < |acts| ==> !acts[i].CallSuspend? && !(acts[i].Svc? && acts[i].b.Suspend?)
  }

  ghost predicate Leads(s: State, t: State) {
    exists acts: seq<Action> :: Legal(s, acts) && NoMoreSuspends(acts) && After(s, acts) == t
  }

  lemma LeadsOn(o: State, s: State, b: V.Action)
    requires Leads(o, s) && Enabled(s, Svc(b)) && !b.Suspend?
    ensures Leads(o, s.(v := V.Next(s.v, b)))
  {
    var acts: seq<Action> :| Legal(o, acts) && NoMoreSuspends(acts) && After(o, acts) == s;
    AppendStep(o, acts, Svc(b));
    assert NoMoreSuspends(acts + [Svc(b)]);
  }

  /** Some run without another Suspend lets exec's Suspend return. */
  ghost predicate SuspendCanReturn(s: State) {
    exists t: State :: Leads(s, t) && Enabled(t, SuspendReturns)
  }

  predicate AwaitsToken(s: State) { s.m.r.pc.Suspend? && Ctl(s, V.Waiting) }

  lemma WaiterDoesNothing(v: V.State, b: V.Action, c: nat)
    requires V.Enabled(v, b) && V.IsCtl(v, c, V.Waiting) && b != V.Receive(c)
    ensures V.IsCtl(V.Next(v, b), c, V.Waiting) && (IsCall(b) ==> b.c != c)
  {
    if V.IsDoor(b) || V.IsHeld(b) {
      assert b.c != c;
      O.OthersLeavePlace(v, b, c);
    }
  }

  /** A run of the service up to the token is one of the migration. */
  lemma {:induction false} LiftsToToken(o: State, s: State, bs: seq<V.Action>)
    requires Leads(o, s) && AwaitsToken(s) && V.Legal(s.v, bs) && N.NoSuspend(bs)
    requires V.Enabled(V.After(s.v, bs), V.Receive(s.c))
    ensures SuspendCanReturn(o)
    decreases |bs|
  {
    if V.Enabled(s.v, V.Receive(s.c)) {
      LeadsOn(o, s, V.Receive(s.c));
      assert Enabled(s.(v := V.Next(s.v, V.Receive(s.c))), SuspendReturns);
    } else {
      assert bs != [] && bs[0] != V.Receive(s.c) && !bs[0].Suspend?;
      WaiterDoesNothing(s.v, bs[0], s.c);
      LeadsOn(o, s, bs[0]);
      assert forall i :: 0 <= i < |bs[1..]| ==> bs[1..][i] == bs[i + 1];
      LiftsToToken(o, s.(v := V.Next(s.v, bs[0])), bs[1..]);
    }
  }

  lemma StaysHopeless(s: State, a: Action)
    requires H.Inv(s.v) && AwaitsToken(s) && !W.Hopeful(s.v) && Enabled(s, a)
    requires !a.CallSuspend? && !(a.Svc? && a.b.Suspend?)
    ensures H.Inv(Next(s, a).v) && AwaitsToken(Next(s, a)) && !W.Hopeful(Next(s, a).v) && !a.SuspendReturns?
  {
    if a.Svc? {
      H.NextKeeps(s.v, a.b);
      W.StaysHopeless(s.v, a.b);
      WaiterDoesNothing(s.v, a.b, s.c);
    }
  }

  lemma {:induction false} HopelessRun(s: State, acts: seq<Action>)
    requires H.Inv(s.v) && AwaitsToken(s) && !W.Hopeful(s.v) && Legal(s, acts) && NoMoreSuspends(acts)
    ensures !Enabled(After(s, acts), SuspendReturns)
    decreases |acts|
  {
    if acts != [] {
      StaysHopeless(s, acts[0]);
      assert forall i :: 0 <= i < |acts[1..]| ==> acts[1..][i] == acts[i + 1];
      HopelessRun(Next(s, acts[0]), acts[1..]);
    }
  }

  /**
   While exec waits for its token, exactly when its Suspend can return without another one being
   called, in every reachable state of a migration.
   */
  lemma SuspendReturnsIffHopeful(s: State)
    requires Reachable(s) && AwaitsToken(s)
    ensures SuspendCanReturn(s) <==> W.Hopeful(s.v)
  {
    ServiceReachable(s);
    W.GateInv(s.v);
    if W.Hopeful(s.v) {
      W.ReturnsIffHopeful(s.v, s.c);
      var v: V.State :| W.Leads(s.v, v) && V.Enabled(v, V.Receive(s.c));
      var bs: seq<V.Action> :| V.Legal(s.v, bs) && N.NoSuspend(bs) && V.After(s.v, bs) == v;
      assert Legal(s, []) && NoMoreSuspends([]) && After(s, []) == s;
      LiftsToToken(s, s, bs);
    } else if SuspendCanReturn(s) {
      var t: State :| Leads(s, t) && Enabled(t, SuspendReturns);
      var acts: seq<Action> :| Legal(s, acts) && NoMoreSuspends(acts) && After(s, acts) == t;
      HopelessRun(s, acts);
    }
  }

  // ---------------------------------------------------------------- nothing else stops a migration

  /** exec's own steps. */
  predicate IsExec(s: State, a: Action) {
    match a
    case Sess(e) => e.RStep? && S.Proper(s.m, e)
    case Svc(b) => (V.IsDoor(b) || V.IsHeld(b)) && b.c == s.c
    case _ => true
  }

  predicate IsDump(s: State, a: Action) { a.Sess? && a.e.DStep? && S.Proper(s.m, a.e) }

  /** The step of whoever holds the mutex of the condition variable. */
  predicate IsOwner(s: State, a: Action) {
    a.Svc? &&
    match s.v.lock
    case Unlocked => false
    case ByListener => V.IsListener(a.b)
    case ByCtl(d) => a.b == V.SetFlag(d) || a.b == V.Tell(d)
  }

  predicate AwaitsClosing(s: State) {
    && s.m.r.pc.CloseAll? && s.c < |s.v.ctls| && s.v.ctls[s.c].Holding? && s.v.ctls[s.c].h.Joining?
    && !V.AllReturned(s.v, s.v.ctls[s.c].h.calls)
  }

  /** What the owner of the mutex does next. */
  function OwnerStep(v: V.State): V.Action {
    if v.lock.ByCtl? then
      (if v.lock.c < |v.ctls| && (v.ctls[v.lock.c].RaiseSet? || v.ctls[v.lock.c].LowerSet?) then V.SetFlag(v.lock.c) else V.Tell(v.lock.c))
    else if v.lpc == V.Testing then V.LTest
    else if v.lpc == V.Sending then V.LSend
    else if v.lpc == V.Retesting then V.LRetest
    else V.LUnlock
  }

  lemma OwnerCanMove(s: State)
    requires H.Inv(s.v) && s.v.lock != V.Unlocked
    ensures Enabled(s, Svc(OwnerStep(s.v))) && IsOwner(s, Svc(OwnerStep(s.v)))
  {
  }

  /** What exec does next while its controller is inside a call of the service. */
  function CallStep(s: State): Action
    requires s.c < |s.v.ctls|
  {
    var c := s.c;
    match s.v.ctls[c]
    case Idle => if s.m.r.pc.Suspend? then CallSuspend else ResumeReturns
    case RaiseWant => Svc(V.Acquire(c))
    case LowerWant(_) => Svc(V.Acquire(c))
    case RaiseSet => Svc(V.SetFlag(c))
    case LowerSet(_) => Svc(V.SetFlag(c))
    case RaiseTell => Svc(V.Tell(c))
    case LowerTell => Svc(V.Tell(c))
    case Waiting => Svc(V.Receive(c))
    case Holding(h) =>
      match h
      case WalkWant => Svc(V.WalkLock(c))
      case Walking(at, _) => Svc(if at < |s.v.list| then V.WalkStep(c) else V.WalkEnd(c))
      case Joining(_) => Svc(V.Joined(c))
      case Free(closed) =>
        if s.m.r.pc.Suspend? then SuspendReturns
        else if s.m.r.pc.CloseAll? then (if closed then CloseAllReturns else CallCloseAll)
        else if s.m.r.pc.Retarget? then Retarget
        else if s.m.r.pc.Rerate? then Rerate
        else CallResume
  }

  predicate AwaitsMutex(s: State) {
    s.c < |s.v.ctls| && (s.v.ctls[s.c].RaiseWant? || s.v.ctls[s.c].LowerWant?) && s.v.lock != V.Unlocked
  }

  lemma ListIsMine(v: V.State, c: nat)
    requires T.Inv(v) && c < |v.ctls| && v.ctls[c].Holding?
    ensures v.listMux.None? || (v.listMux == Some(c) && v.ctls[c].h.Walking?)
    ensures forall i :: 0 <= i < |v.list| ==> v.list[i] < |v.fwds|
  {
    assert H.Holds(v.ctls[c]);
    if v.listMux.Some? { assert H.Holds(v.ctls[v.listMux.value]); }
  }

  lemma CallGoesOn(s: State)
    requires Inv(s) && AtServiceCall(s.m.r)
    requires !AwaitsMutex(s) && !AwaitsClosing(s) && !(AwaitsToken(s) && s.v.tokens == 0)
    ensures Enabled(s, CallStep(s)) && IsExec(s, CallStep(s))
  {
    if s.v.ctls[s.c].Holding? {
      ListIsMine(s.v, s.c);
      HolderGoesOn(s);
    } else {
      OutsideGoesOn(s);
    }
  }

  lemma HolderGoesOn(s: State)
    requires Synced(s) && AtServiceCall(s.m.r) && s.v.ctls[s.c].Holding? && !AwaitsClosing(s) && !s.v.crashed
    requires s.v.listMux.None? || (s.v.listMux == Some(s.c) && s.v.ctls[s.c].h.Walking?)
    requires forall i :: 0 <= i < |s.v.list| ==> s.v.list[i] < |s.v.fwds|
    ensures Enabled(s, CallStep(s)) && IsExec(s, CallStep(s))
  {
  }

  lemma OutsideGoesOn(s: State)
    requires Synced(s) && AtServiceCall(s.m.r) && !s.v.ctls[s.c].Holding? && !s.v.crashed
    requires !AwaitsMutex(s) && !(AwaitsToken(s) && s.v.tokens == 0)
    ensures Enabled(s, CallStep(s)) && IsExec(s, CallStep(s))
  {
  }

  lemma SessionGoesOn(s: State) returns (a: Action)
    requires Reachable(s) && !AtServiceCall(s.m.r) && !S.Finished(s.m)
    ensures Enabled(s, a) && (IsExec(s, a) || IsDump(s, a))
  {
    ReachableInv(s);
    S.TurnIsProper(s.m);
    a := Sess(S.Turn(s.m));
  }

  /**
   No deadlock but there. In every reachable state of a migration that is not finished, exec, the
   dump side or the owner of the mutex has a step that is no failure, unless exec waits for a
   token, or for Close calls that have not returned.
   */
  lemma OnlyTheServiceStopsIt(s: State)
    requires Reachable(s) && !S.Finished(s.m)
    ensures (AwaitsToken(s) && s.v.tokens == 0) || AwaitsClosing(s)
      || exists a :: Enabled(s, a) && (IsExec(s, a) || IsDump(s, a) || IsOwner(s, a))
  {
    ReachableInv(s);
    if !AtServiceCall(s.m.r) { var a := SessionGoesOn(s); }
    else if AwaitsMutex(s) { OwnerCanMove(s); }
    else if !(AwaitsToken(s) && s.v.tokens == 0) && !AwaitsClosing(s) { CallGoesOn(s); }
  }

  // ---------------------------------------------------------------- waiting in CloseAllForwarders

  lemma {:induction false} GoPath(o: State, s: State, fs: seq<F.Fwd>, acts: seq<F.Action>, i: nat)
    requires Reaches(o, s) && C.Path(fs, acts) && s.v.fwds == [fs[0]] && i <= |acts| && !s.v.crashed
    ensures Reaches(o, s.(v := s.v.(fwds := [fs[i]])))
    decreases i
  {
    if i == 0 {
      assert s.(v := s.v.(fwds := [fs[0]])) == s;
    } else {
      GoPath(o, s, fs, acts, i - 1);
      GoForwarder(o, s.(v := s.v.(fwds := [fs[i - 1]])), fs[i - 1], acts[i - 1]);
    }
  }

  lemma GoReach(o: State, s: State, f: F.Fwd, g: F.Fwd)
    requires Reaches(o, s) && s.v.fwds == [f] && C.Reaches(f, g) && !s.v.crashed
    ensures Reaches(o, s.(v := s.v.(fwds := [g])))
  {
    var fs: seq<F.Fwd>, acts: seq<F.Action> :| C.Path(fs, acts) && fs[0] == f && fs[|acts|] == g;
    GoPath(o, s, fs, acts, |acts|);
  }

  lemma RunsOpen(v: V.State)
    requires v.lpc == V.Top && !v.flag && v.lock == V.Unlocked && !v.crashed
    ensures var bs := [V.LLock, V.LTest, V.LUnlock]; V.Legal(v, bs) && V.After(v, bs) == v.(lpc := V.Accepting)
  {
    var v1 := V.Next(v, V.LLock);
    var v2 := V.Next(v1, V.LTest);
    V.Prepend(v2, V.LUnlock, []);
    V.Prepend(v1, V.LTest, [V.LUnlock]);
    V.Prepend(v, V.LLock, [V.LTest, V.LUnlock]);
  }

  function Spawned(rate: int): F.Fwd { F.New().(rate := rate, main := F.Spawned) }

  /** A client comes in before exec suspends the service. */
  lemma ReachesEarlyClient(o: State, s: State)
    requires Reaches(o, s) && Fresh(s.v)
    ensures Reaches(o, s.(v := s.v.(list := [0], fwds := [Spawned(s.v.dataRate)])))
  {
    RunsOpen(s.v);
    GoService(o, s, [V.LLock, V.LTest, V.LUnlock]);
    ReachesClient(o, s.(v := s.v.(lpc := V.Accepting)));
    assert s.v.list + [0] == [0];
  }

  /** exec walks the list and waits for the Close of a forwarder that has not begun. */
  lemma ReachesJoining(o: State, s: State, f: F.Fwd)
    requires Reaches(o, s) && s.m.r.pc.CloseAll? && s.c < |s.v.ctls| && s.v.ctls[s.c] == V.Holding(V.Free(false))
    requires s.v.flag && s.v.list == [0] && s.v.listMux == None && !s.v.crashed && s.v.fwds == [f] && f.callers == []
    ensures Reaches(o, s.(v := WithCtl(s.v, s.c, V.Holding(V.Joining([V.CallRef(0, 0)]))).(fwds := [F.Call(f)])))
  {
    var c := s.c;
    Go(o, s, CallCloseAll);
    var s1 := s.(v := WithCtl(s.v, c, V.Holding(V.WalkWant)));
    GoServiceStep(o, s1, V.WalkLock(c));
    var s2 := s.(v := WithCtl(s.v, c, V.Holding(V.Walking(0, []))).(listMux := Some(c)));
    assert s1.v.ctls[c := V.Holding(V.Walking(0, []))] == s2.v.ctls;
    ReachesWalkedOne(o, s2, f);
    assert s2.v.ctls[c := V.Holding(V.Joining([V.CallRef(0, 0)]))] == s.v.ctls[c := V.Holding(V.Joining([V.CallRef(0, 0)]))];
  }

  lemma ReachesWalkedOne(o: State, s: State, f: F.Fwd)
    requires Reaches(o, s) && s.c < |s.v.ctls| && s.v.ctls[s.c] == V.Holding(V.Walking(0, []))
    requires s.v.list == [0] && !s.v.crashed && s.v.fwds == [f] && f.callers == []
    ensures Reaches(o, s.(v := WithCtl(s.v, s.c, V.Holding(V.Joining([V.CallRef(0, 0)]))).(fwds := [F.Call(f)], listMux := None)))
  {
    var calls := [V.CallRef(0, 0)];
    GoServiceStep(o, s, V.WalkStep(s.c));
    var s1 := s.(v := WithCtl(s.v, s.c, V.Holding(V.Walking(1, calls))).(fwds := [F.Call(f)]));
    assert [] + [V.CallRef(0, 0)] == calls && s.v.fwds[0 := F.Call(f)] == [F.Call(f)];
    GoServiceStep(o, s1, V.WalkEnd(s.c));
    assert s1.v.ctls[s.c := V.Holding(V.Joining(calls))] == s.v.ctls[s.c := V.Holding(V.Joining(calls))];
  }

  /** That Close comes before Accept has stored the connection, and then nothing more happens. */
  lemma ReachesHanging(o: State, s: State) returns (g: F.Fwd)
    requires Initial(o) && Reaches(o, s) && s.v.fwds == [F.Call(Spawned(s.v.dataRate))] && !s.v.crashed
    ensures Reaches(o, s.(v := s.v.(fwds := [g]))) && C.Quiet(g, C.Everything) && !g.chanClosed
  {
    GoServiceStep(o, s, V.Begin(0));
    var f := C.EarlyClose(s.v.dataRate, s.v.serverAddr);
    assert V.Next(s.v, V.Begin(0)).fwds == [f];
    C.EarlyCloseReturns(f);
    var f1 := f.(early := true, upClosed := true, callers := [F.Awaiting]);
    GoReach(o, s.(v := s.v.(fwds := [f])), f, f1);
    var s1 := s.(v := s.v.(fwds := [f1]));
    assert Reachable(s1);
    ReachableInv(s1);
    assert F.Inv(s1.v.fwds[0]);
    X.HangsIffOpen(f1);
    g :| C.Reaches(f1, g) && C.Quiet(g, C.Everything) && !g.chanClosed;
    GoReach(o, s1, f1, g);
  }

  ghost predicate AllQuiet(v: V.State) {
    forall f :: 0 <= f < |v.fwds| ==> C.Quiet(v.fwds[f], C.Everything)
  }

  /** A Close whose forwarder is not over has not returned. */
  lemma NotReturned(s: State, g: F.Fwd)
    requires Reachable(s) && s.m.r.pc.CloseAll? && s.v.fwds == [g] && !g.chanClosed
    requires Ctl(s, V.Holding(V.Joining([V.CallRef(0, 0)])))
    ensures AwaitsClosing(s)
  {
    ReachableInv(s);
    assert F.Inv(s.v.fwds[0]);
    var calls := [V.CallRef(0, 0)];
    assert calls[0] == V.CallRef(0, 0);
  }

  /**
   And from the start of every migration a run leads to where exec waits in CloseAllForwarders, and no
   forwarder does anything more until a client or a server does: it takes one client that comes in
   just before Suspend, so that its Close is early.
   */
  lemma CloseAllCanWait(s: State)
    requires Initial(s)
    ensures exists t: State :: Reaches(s, t) && AwaitsClosing(t) && AllQuiet(t.v)
  {
    assert Legal(s, []) && After(s, []) == s;
    var s1 := ReachesReady(s, s);
    var s2 := ReachesLastRound(s, s1, 0);
    ReachesEarlyClient(s, s2);
    var s3 := s2.(v := s2.v.(list := [0], fwds := [Spawned(s2.v.dataRate)]));
    var s4 := ReachesCalling(s, s3);
    var t := ReachesCloseAllWait(s, s4);
  }

  /** exec has the service. */
  lemma ReachesCalling(o: State, s: State) returns (t: State)
    requires Reaches(o, s) && Ready(s, S.K(s.m)) && s.m.cfg.hasService && s.c < |s.v.ctls| && s.v.ctls[s.c].Idle?
    requires s.v.lpc == V.Top && !s.v.flag && s.v.lock == V.Unlocked && s.v.tokens == 0 && !s.v.crashed
    ensures Reaches(o, t) && t.c == s.c && t.m.r.pc.CloseAll?
    ensures t.v == WithCtl(s.v, s.c, V.Holding(V.Free(false))).(flag := true, lpc := V.Asleep(false))
  {
    ReachesHeld(o, s);
    var u := s.(v := WithCtl(s.v, s.c, V.Holding(V.Free(false))).(flag := true, lpc := V.Asleep(false)));
    Go(o, u, SuspendReturns);
    t := u.(m := S.Next(u.m, TICK));
  }

  lemma ReachesCloseAllWait(o: State, s: State) returns (t: State)
    requires Initial(o) && Reaches(o, s) && s.m.r.pc.CloseAll? && s.c < |s.v.ctls| && s.v.ctls[s.c] == V.Holding(V.Free(false))
    requires s.v.flag && s.v.list == [0] && s.v.listMux == None && !s.v.crashed && s.v.fwds == [Spawned(s.v.dataRate)]
    ensures Reaches(o, t) && AwaitsClosing(t) && AllQuiet(t.v)
  {
    ReachesJoining(o, s, Spawned(s.v.dataRate));
    var s6 := s.(v := WithCtl(s.v, s.c, V.Holding(V.Joining([V.CallRef(0, 0)]))).(fwds := [F.Call(Spawned(s.v.dataRate))]));
    var g := ReachesHanging(o, s6);
    t := s6.(v := s6.v.(fwds := [g]));
    assert Reachable(t);
    NotReturned(t, g);
  }
}
