/**
 When a Suspend returns (server/fwdsvc.go:80-86): exactly which states of the service let one that
 waits for its token have it, without another Suspend.
 */
module Answer {
  import opened Basics
  import opened Service
  import opened Handshake
  import T = Traffic

  // ---------------------------------------------------------------- towards a token

  predicate Raising(p: Ctl) { p.RaiseWant? || p.RaiseSet? }

  /** The next step on the way to a token: the listener's, or the one of the mutex's owner. */
  function Onward(s: State): Action {
    match s.lpc
    case Top => if s.lock.ByCtl? then Release(s, s.lock.c) else LLock
    case Testing => LTest
    case Sending => LSend
    case Unlocking => LUnlock
    case Accepting => LTimeout
    case Rating(_) => LRate
    case Pushing(_) => LPush
    case _ => LSpawn
  }

  function Release(s: State, c: nat): Action {
    if c < |s.ctls| && (s.ctls[c].RaiseSet? || s.ctls[c].LowerSet?) then SetFlag(c) else Tell(c)
  }

  lemma ListFree(s: State)
    requires T.Inv(s) && !Parked(s.lpc)
    ensures s.listMux.None?
  {
    if s.listMux.Some? { T.ListenerAlone(s, s.listMux.value); }
  }

  /** Until the token is there, the listener or the controller that holds the mutex can move. */
  lemma AnswerNotBlocked(s: State)
    requires T.Inv(s) && Answering(s)
    ensures Enabled(s, Onward(s))
    ensures IsListener(Onward(s)) || (s.lock.ByCtl? && Onward(s) in {SetFlag(s.lock.c), Tell(s.lock.c)})
  {
    ListFree(s);
  }

  // ---------------------------------------------------------------- the exact condition

  predicate NoSuspend(acts: seq<Action>) { forall i :: 0 <= i < |acts| ==> !acts[i].Suspend? }

  predicate Receives(acts: seq<Action>) { exists i :: 0 <= i < |acts| && acts[i].Receive? }

  /** Some run from s in which nobody calls Suspend anew hands a waiting controller its token. */
  ghost predicate CanReceive(s: State) {
    exists acts: seq<Action> :: Legal(s, acts) && NoSuspend(acts) && Receives(acts)
  }

  /** Some controller waits for its token, and none is still on its way to raising the flag. */
  predicate OnlyWaiting(s: State) {
    && (exists c :: 0 <= c < |s.ctls| && s.ctls[c].Waiting?)
    && (forall c :: 0 <= c < |s.ctls| ==> !Raising(s.ctls[c]))
  }

  lemma OnwardKeepsWaiting(s: State)
    requires T.Inv(s) && Answering(s) && OnlyWaiting(s)
    ensures Enabled(s, Onward(s)) && OnlyWaiting(Next(s, Onward(s))) && T.Inv(Next(s, Onward(s)))
  {
    AnswerNotBlocked(s);
    T.NextKeeps(s, Onward(s));
    var t := Next(s, Onward(s));
    var c :| 0 <= c < |s.ctls| && s.ctls[c].Waiting?;
    assert t.ctls[c].Waiting?;
  }

  function OwnerSteps(s: State): nat { if s.lock.ByCtl? then 1 else 0 }

  lemma OnwardApproaches(s: State)
    requires Inv(s) && Answering(s) && OnlyWaiting(s) && s.tokens == 0 && Enabled(s, Onward(s))
    ensures var t := Next(s, Onward(s));
      t.tokens == 1 || (Answering(t) && StepsToToken(t.lpc) + OwnerSteps(t) < StepsToToken(s.lpc) + OwnerSteps(s))
  {
    var a := Onward(s);
    if IsListener(a) {
      ListenerAnswers(s, a);
      ListenerKeepsOwner(s, a);
    } else {
      OwnerLeaves(s);
    }
  }

  lemma ListenerKeepsOwner(s: State, a: Action)
    requires IsListener(a) && ListenerEnabled(s, a) && Answering(s)
    ensures OwnerSteps(ListenerNext(s, a)) <= OwnerSteps(s)
    ensures a in {LLock, LTest, LSend, LUnlock, LTimeout, LRate, LPush, LSpawn} ==> ListenerNext(s, a).lpc != Exited
  {
  }

  lemma OwnerLeaves(s: State)
    requires Inv(s) && Answering(s) && OnlyWaiting(s) && !IsListener(Onward(s)) && Enabled(s, Onward(s))
    ensures var t := Next(s, Onward(s)); t.flag && t.lpc == s.lpc && OwnerSteps(t) < OwnerSteps(s)
  {
  }

  lemma TokenIsReceived(s: State)
    requires T.Inv(s) && s.tokens == 1 && OnlyWaiting(s)
    ensures CanReceive(s)
  {
    var c :| 0 <= c < |s.ctls| && s.ctls[c].Waiting?;
    Prepend(s, Receive(c), []);
    var acts := [Receive(c)] + [];
    assert acts[0].Receive? && NoSuspend(acts);
  }

  lemma ReceivesLater(s: State, a: Action)
    requires Enabled(s, a) && !a.Suspend? && CanReceive(Next(s, a))
    ensures CanReceive(s)
  {
    var acts: seq<Action> :| Legal(Next(s, a), acts) && NoSuspend(acts) && Receives(acts);
    Prepend(s, a, acts);
    var i :| 0 <= i < |acts| && acts[i].Receive?;
    assert ([a] + acts)[i + 1].Receive? && NoSuspend([a] + acts);
  }

  lemma {:induction false} AnsweringReceives(s: State)
    requires T.Inv(s) && OnlyWaiting(s) && (s.tokens == 1 || Answering(s))
    ensures CanReceive(s)
    decreases StepsToToken(s.lpc) + OwnerSteps(s)
  {
    if s.tokens == 1 { TokenIsReceived(s); }
    else {
      OnwardKeepsWaiting(s);
      OnwardApproaches(s);
      var t := Next(s, Onward(s));
      if t.tokens == 1 { TokenIsReceived(t); } else { AnsweringReceives(t); }
      ReceivesLater(s, Onward(s));
    }
  }

  /** No token, no way to one, and nobody on the way to raising the flag. */
  predicate Mute(s: State) {
    && s.tokens == 0
    && (!s.flag || Parked(s.lpc) || s.lpc == Exited)
    && (forall c :: 0 <= c < |s.ctls| ==> !Raising(s.ctls[c]))
  }

  lemma StaysMute(s: State, a: Action)
    requires Inv(s) && Mute(s) && Enabled(s, a) && !a.Suspend?
    ensures Mute(Next(s, a)) && !a.Receive?
  {
    if IsDoor(a) { DoorStaysMute(s, a); } else if IsListener(a) { ListenerStaysMute(s, a); }
  }

  lemma ListenerStaysMute(s: State, a: Action)
    requires Inv(s) && Mute(s) && IsListener(a) && ListenerEnabled(s, a)
    ensures Mute(ListenerNext(s, a))
  {
  }

  lemma DoorStaysMute(s: State, a: Action)
    requires Inv(s) && Mute(s) && IsDoor(a) && DoorEnabled(s, a) && !a.Suspend?
    ensures Mute(DoorNext(s, a)) && !a.Receive?
  {
  }

  lemma {:induction false} MuteRun(s: State, acts: seq<Action>)
    requires Inv(s) && Mute(s) && Legal(s, acts) && NoSuspend(acts)
    ensures !Receives(acts)
    decreases |acts|
  {
    if acts != [] {
      StaysMute(s, acts[0]);
      NextKeeps(s, acts[0]);
      assert forall i :: 0 <= i < |acts[1..]| ==> acts[1..][i] == acts[i + 1];
      MuteRun(Next(s, acts[0]), acts[1..]);
    }
  }

  /**
   Exactly when a Suspend that waits can return without another one: a token is there, or the flag
   is up and the listener is neither parked nor gone. So it waits for nothing when the flag was
   raised before a parked listener saw it lowered, when the listener has exited, and when somebody
   else's Resume has lowered the flag since.
   */
  lemma ReceivesIffAnswering(s: State)
    requires T.Inv(s) && OnlyWaiting(s)
    ensures CanReceive(s) <==> s.tokens == 1 || Answering(s)
  {
    if s.tokens == 1 || Answering(s) { AnsweringReceives(s); }
    else if CanReceive(s) {
      var acts: seq<Action> :| Legal(s, acts) && NoSuspend(acts) && Receives(acts);
      MuteRun(s, acts);
    }
  }

  /** The same for every state that a run of the service reaches. */
  lemma ReceivesIffAnsweringOverRuns(s: State)
    requires Reachable(s) && OnlyWaiting(s)
    ensures CanReceive(s) <==> s.tokens == 1 || Answering(s)
  {
    T.ReachableInv(s);
    ReceivesIffAnswering(s);
  }

  // ---------------------------------------------------------------- an overlapped Suspend

  lemma RunsPark(s: State)
    requires s.lpc == Top && s.flag && s.lock == Unlocked && s.tokens == 0 && !s.crashed
    ensures var acts := [LLock, LTest, LSend, LRetest];
      Legal(s, acts) && After(s, acts) == s.(tokens := 1, lpc := Asleep(false))
  {
    var s1 := Next(s, LLock);
    var s2 := Next(s1, LTest);
    var s3 := Next(s2, LSend);
    Prepend(s3, LRetest, []);
    Prepend(s2, LSend, [LRetest]);
    Prepend(s1, LTest, [LSend, LRetest]);
    Prepend(s, LLock, [LTest, LSend, LRetest]);
  }

  lemma RunsWake(s: State)
    requires s.lpc == Asleep(true) && !s.flag && s.lock == Unlocked && !s.crashed
    ensures var acts := [LWake, LRetest, LUnlock];
      Legal(s, acts) && After(s, acts) == s.(lpc := Accepting)
  {
    var s1 := Next(s, LWake);
    var s2 := Next(s1, LRetest);
    Prepend(s2, LUnlock, []);
    Prepend(s1, LRetest, [LUnlock]);
    Prepend(s, LWake, [LRetest, LUnlock]);
  }

  /** A Suspend up to the point where it waits. */
  lemma RunsSuspend(s: State, c: nat)
    requires c < |s.ctls| && s.ctls[c].Idle? && s.lock == Unlocked && !s.crashed
    ensures var acts := [Suspend(c), Acquire(c), SetFlag(c)] + [Tell(c)];
      Legal(s, acts) && After(s, acts) == s.(ctls := s.ctls[c := Waiting], flag := true, lpc := Notified(s.lpc))
  {
    RunsRaise(s, c);
    var t := s.(ctls := s.ctls[c := RaiseTell], flag := true, lock := ByCtl(c));
    Prepend(t, Tell(c), []);
    assert [Tell(c)] + [] == [Tell(c)];
    Append(s, [Suspend(c), Acquire(c), SetFlag(c)], [Tell(c)]);
    assert Next(t, Tell(c)).ctls == s.ctls[c := Waiting];
  }

  ghost predicate Reaches(s: State, t: State) {
    exists acts: seq<Action> :: Legal(s, acts) && After(s, acts) == t
  }

  lemma Extends(o: State, s: State, acts: seq<Action>)
    requires Reaches(o, s) && Legal(s, acts)
    ensures Reaches(o, After(s, acts))
  {
    var before: seq<Action> :| Legal(o, before) && After(o, before) == s;
    Append(o, before, acts);
  }

  lemma ExtendsOne(o: State, s: State, a: Action)
    requires Reaches(o, s) && Enabled(s, a)
    ensures Reaches(o, Next(s, a))
  {
    Prepend(s, a, []);
    Extends(o, s, [a] + []);
  }

  lemma ReachesWaiting(addr: Addr, rate: int)
    ensures var o := Start(2, addr, rate);
      Reaches(o, o.(ctls := [Waiting, Idle], flag := true))
  {
    var o := Start(2, addr, rate);
    assert Legal(o, []) && After(o, []) == o;
    RunsSuspend(o, 0);
    Extends(o, o, [Suspend(0), Acquire(0), SetFlag(0)] + [Tell(0)]);
    assert o.ctls[0 := Waiting] == [Waiting, Idle];
  }

  /** The first of two controllers holds the service. */
  lemma ReachesHeld(addr: Addr, rate: int)
    ensures var o := Start(2, addr, rate);
      Reaches(o, o.(ctls := [Holding(Free(false)), Idle], flag := true, lpc := Asleep(false)))
  {
    var o := Start(2, addr, rate);
    ReachesWaiting(addr, rate);
    ReachesToken(o, o.(ctls := [Waiting, Idle], flag := true));
  }

  lemma ReachesToken(o: State, s1: State)
    requires Reaches(o, s1) && s1.ctls == [Waiting, Idle] && s1.flag && s1.lpc == Top && s1.lock == Unlocked
    requires s1.tokens == 0 && !s1.crashed
    ensures Reaches(o, s1.(ctls := [Holding(Free(false)), Idle], lpc := Asleep(false)))
  {
    RunsPark(s1);
    Extends(o, s1, [LLock, LTest, LSend, LRetest]);
    var s2 := s1.(tokens := 1, lpc := Asleep(false));
    ExtendsOne(o, s2, Receive(0));
    assert s2.ctls[0 := Holding(Free(false))] == [Holding(Free(false)), Idle];
  }

  /** The first of two controllers holds the service and the second waits for a token. */
  lemma ReachesOverlap(addr: Addr, rate: int)
    ensures var o := Start(2, addr, rate);
      Reaches(o, o.(ctls := [Holding(Free(false)), Waiting], flag := true, lpc := Asleep(true)))
  {
    var o := Start(2, addr, rate);
    ReachesHeld(addr, rate);
    var s3 := o.(ctls := [Holding(Free(false)), Idle], flag := true, lpc := Asleep(false));
    RunsSuspend(s3, 1);
    Extends(o, s3, [Suspend(1), Acquire(1), SetFlag(1)] + [Tell(1)]);
    assert s3.ctls[1 := Waiting] == [Holding(Free(false)), Waiting];
  }

  /** The first has resumed the service since, and the listener accepts again. */
  lemma ReachesResumed(addr: Addr, rate: int)
    ensures var o := Start(2, addr, rate);
      Reaches(o, o.(ctls := [Idle, Waiting], lpc := Accepting))
  {
    var o := Start(2, addr, rate);
    ReachesOverlap(addr, rate);
    var s := o.(ctls := [Holding(Free(false)), Waiting], flag := true, lpc := Asleep(true));
    ExtendsOne(o, s, Resume(0));
    assert s.ctls[0 := LowerWant(false)] == [LowerWant(false), Waiting];
    ReachesLowered(o, s.(ctls := [LowerWant(false), Waiting]));
  }

  lemma ReachesLowered(o: State, s1: State)
    requires Reaches(o, s1) && s1.ctls == [LowerWant(false), Waiting] && s1.lpc == Asleep(true)
    requires s1.lock == Unlocked && !s1.crashed
    ensures Reaches(o, s1.(ctls := [Idle, Waiting], flag := false, lpc := Accepting))
  {
    RunsLower(s1, 0);
    Extends(o, s1, [Acquire(0), SetFlag(0), Tell(0)]);
    assert s1.ctls[0 := Idle] == [Idle, Waiting];
    GoesOn(o, s1.(ctls := [Idle, Waiting], flag := false));
  }

  lemma GoesOn(o: State, s: State)
    requires Reaches(o, s) && s.lpc == Asleep(true) && !s.flag && s.lock == Unlocked && !s.crashed
    ensures Reaches(o, s.(lpc := Accepting))
  {
    RunsWake(s);
    Extends(o, s, [LWake, LRetest, LUnlock]);
  }

  /**
   A Suspend that overlaps another controller's holding can be left waiting although the service is
   neither deaf nor closed: that controller's Resume lowers the flag for both.
   */
  lemma OverlappedSuspendHangs(addr: Addr, rate: int)
    ensures exists s: State :: Reachable(s) && s.lpc == Accepting && !s.flag && IsCtl(s, 1, Waiting) && !CanReceive(s)
  {
    var o := Start(2, addr, rate);
    ReachesResumed(addr, rate);
    var t := o.(ctls := [Idle, Waiting], lpc := Accepting);
    assert Reachable(t);
    T.ReachableInv(t);
    assert t.ctls[1].Waiting?;
    ReceivesIffAnswering(t);
  }
}
