/** The suspend/resume handshake of server/fwdsvc.go works as a lock, when it is not lost. */
module Handshake {
  import opened Basics
  import opened Service

  /** Between the return of Suspend and the moment Resume lowers the flag. */
  predicate Holds(p: Ctl) { p.Holding? || p.LowerWant? || p.LowerSet? }

  predicate InLock(p: Ctl) { p.RaiseSet? || p.RaiseTell? || p.LowerSet? || p.LowerTell? }

  predicate Parked(l: ListenerPc) { l.Retesting? || l.Asleep? }

  predicate LockInv(s: State) {
    && (s.lock == ByListener <==> s.lpc in {Testing, Sending, Retesting, Unlocking})
    && (s.lock.ByCtl? ==> s.lock.c < |s.ctls|)
    && (forall c :: 0 <= c < |s.ctls| ==> (InLock(s.ctls[c]) <==> s.lock == ByCtl(c)))
    && (forall c :: 0 <= c < |s.ctls| && s.ctls[c].RaiseTell? ==> s.flag)
    && (forall c :: 0 <= c < |s.ctls| && s.ctls[c].LowerTell? ==> !s.flag)
    && (s.lpc == Sending ==> s.flag)
    && (s.lpc == Asleep(false) && !s.flag ==> s.lock.ByCtl? && s.ctls[s.lock.c].LowerTell?)
  }

  predicate HolderInv(s: State) {
    && s.tokens <= 1
    && !s.crashed
    && (forall c, d :: 0 <= c < d < |s.ctls| ==> !(Holds(s.ctls[c]) && Holds(s.ctls[d])))
    && (forall c :: 0 <= c < |s.ctls| && Holds(s.ctls[c]) ==> s.tokens == 0 && s.flag && Parked(s.lpc))
    && (s.tokens == 1 ==> s.flag && Parked(s.lpc))
  }

  predicate Inv(s: State) { LockInv(s) && HolderInv(s) }

  lemma ListenerKeeps(s: State, a: Action)
    requires Inv(s) && IsListener(a) && ListenerEnabled(s, a)
    ensures Inv(ListenerNext(s, a))
  {
  }

  lemma DoorKeepsLock(s: State, a: Action)
    requires LockInv(s) && IsDoor(a) && DoorEnabled(s, a)
    ensures LockInv(DoorNext(s, a))
  {
  }

  lemma DoorKeepsHolder(s: State, a: Action)
    requires Inv(s) && IsDoor(a) && DoorEnabled(s, a)
    ensures HolderInv(DoorNext(s, a))
  {
  }

  lemma HeldKeeps(s: State, a: Action)
    requires Inv(s) && IsHeld(a) && HeldEnabled(s, a)
    ensures Inv(HeldNext(s, a))
  {
  }

  lemma NextKeeps(s: State, a: Action)
    requires Inv(s) && Enabled(s, a)
    ensures Inv(Next(s, a))
  {
    if IsListener(a) { ListenerKeeps(s, a); }
    else if IsDoor(a) { DoorKeepsLock(s, a); DoorKeepsHolder(s, a); }
    else if IsHeld(a) { HeldKeeps(s, a); }
  }

  // ---------------------------------------------------------------- the lock

  function Holders(s: State): set<nat> {
    set c: nat | c < |s.ctls| && Holds(s.ctls[c])
  }

  /**
   Tokens in the channel plus controllers between Suspend and Resume are at most one, and when
   there is one the listener is parked with the flag set. So the send that the listener does while
   it holds the mutex never blocks, and no "Must be suspended" guard fires.
   */
  lemma ActsAsLock(s: State)
    requires Inv(s)
    ensures s.tokens + |Holders(s)| <= 1
    ensures s.tokens + |Holders(s)| == 1 ==> s.flag && Parked(s.lpc)
    ensures s.lpc == Sending ==> Enabled(s, LSend)
    ensures !s.crashed
  {
    var h := Holders(s);
    if h != {} {
      var c :| c in h;
      forall d | d in h ensures d == c { }
      assert h == {c};
    }
  }

  /** No wake-up is lost: a listener that sleeps unnotified sleeps because the flag is set. */
  lemma NoLostWakeup(s: State)
    requires Inv(s) && s.lpc == Asleep(false) && !s.flag
    ensures exists c :: IsCtl(s, c, LowerTell) && Enabled(s, Tell(c)) && Next(s, Tell(c)).lpc == Asleep(true)
  {
    assert IsCtl(s, s.lock.c, LowerTell) && Enabled(s, Tell(s.lock.c));
  }

  // ---------------------------------------------------------------- acknowledgements

  /** The flag is set and the listener will still come to the test at its loop top. */
  predicate Answering(s: State) { s.flag && !Parked(s.lpc) && s.lpc != Exited }

  /** Listener steps left until the token, going through at most one accept round. */
  function StepsToToken(l: ListenerPc): nat {
    match l
    case Sending => 1 case Testing => 2 case Top => 3 case Spawning(_) => 4 case Pushing(_) => 5
    case Rating(_) => 6 case Accepting => 7 case Unlocking => 8
    case _ => 0
  }

  lemma ListenerAnswers(s: State, a: Action)
    requires Inv(s) && Answering(s) && Enabled(s, a)
    ensures var t := Next(s, a);
      || t.tokens == 1
      || t.lpc == Exited
      || (Answering(t) && StepsToToken(t.lpc) <= StepsToToken(s.lpc) - (if IsListener(a) then 1 else 0))
  {
  }

  function ListenerSteps(acts: seq<Action>): nat {
    if acts == [] then 0 else (if IsListener(acts[0]) then 1 else 0) + ListenerSteps(acts[1..])
  }

  /** On the way the listener left a token in the channel or exited. */
  predicate Answers(s: State, acts: seq<Action>)
    requires Legal(s, acts)
    decreases |acts|
  {
    s.tokens == 1 || s.lpc == Exited || (acts != [] && Answers(Next(s, acts[0]), acts[1..]))
  }

  /**
   Bounded acknowledgement: in every run from a raised flag with the listener neither parked nor
   gone, whatever the others do, its next few steps, one accept round at most, leave a token
   unless it exits.
   */
  lemma {:induction false} AnswersSoon(s: State, acts: seq<Action>)
    requires Inv(s) && Answering(s) && Legal(s, acts) && ListenerSteps(acts) >= StepsToToken(s.lpc)
    ensures Answers(s, acts)
    decreases |acts|
  {
    if s.tokens != 1 && acts != [] {
      var t := Next(s, acts[0]);
      ListenerAnswers(s, acts[0]);
      NextKeeps(s, acts[0]);
      if t.tokens != 1 && t.lpc != Exited { AnswersSoon(t, acts[1..]); }
    }
  }

  /** Nobody holds the service, no token is left, and the parked listener sees the flag set. */
  predicate Deaf(s: State) {
    s.flag && Parked(s.lpc) && s.tokens == 0 && forall c :: 0 <= c < |s.ctls| ==> !Holds(s.ctls[c])
  }

  lemma StaysDeaf(s: State, a: Action)
    requires Inv(s) && Deaf(s) && Enabled(s, a)
    ensures Deaf(Next(s, a)) && !a.Receive?
  {
    if IsDoor(a) { DoorStaysDeaf(s, a); }
  }

  lemma DoorStaysDeaf(s: State, a: Action)
    requires Inv(s) && Deaf(s) && IsDoor(a) && DoorEnabled(s, a)
    ensures Deaf(DoorNext(s, a)) && !a.Receive?
  {
  }

  /** A deaf service stays so: in no run does a Suspend ever return again. */
  lemma {:induction false} DeafForever(s: State, acts: seq<Action>)
    requires Inv(s) && Deaf(s) && Legal(s, acts)
    ensures Deaf(After(s, acts)) && forall i :: 0 <= i < |acts| ==> !acts[i].Receive?
    decreases |acts|
  {
    if acts != [] {
      StaysDeaf(s, acts[0]);
      NextKeeps(s, acts[0]);
      DeafForever(Next(s, acts[0]), acts[1..]);
      assert forall i :: 1 <= i < |acts| ==> acts[i] == acts[1..][i - 1];
    }
  }

  lemma StaysExited(s: State, a: Action)
    requires Inv(s) && s.lpc == Exited && Enabled(s, a)
    ensures Next(s, a).lpc == Exited && !a.Receive?
  {
  }

  /** The same once the listener has exited, as it does after Close of the service. */
  lemma {:induction false} ExitedForever(s: State, acts: seq<Action>)
    requires Inv(s) && s.lpc == Exited && Legal(s, acts)
    ensures After(s, acts).lpc == Exited && forall i :: 0 <= i < |acts| ==> !acts[i].Receive?
    decreases |acts|
  {
    if acts != [] {
      StaysExited(s, acts[0]);
      NextKeeps(s, acts[0]);
      ExitedForever(Next(s, acts[0]), acts[1..]);
      assert forall i :: 1 <= i < |acts| ==> acts[i] == acts[1..][i - 1];
    }
  }

  lemma DoorBecomesDeaf(s: State, a: Action)
    requires Inv(s) && !Deaf(s) && IsDoor(a) && DoorEnabled(s, a)
    ensures Deaf(DoorNext(s, a)) <==> a.SetFlag? && s.ctls[a.c].RaiseSet? && Parked(s.lpc) && !s.flag
  {
    var t := DoorNext(s, a);
    if c :| 0 <= c < |s.ctls| && Holds(s.ctls[c]) {
      assert Holds(t.ctls[c]) || !t.flag;
    } else {
      assert a.Receive? ==> Holds(t.ctls[a.c]);
      assert a.SetFlag? ==> forall c :: 0 <= c < |s.ctls| ==> !Holds(t.ctls[c]);
    }
  }

  lemma OthersKeepHearing(s: State, a: Action)
    requires Inv(s) && !Deaf(s) && Enabled(s, a) && !IsDoor(a)
    ensures !Deaf(Next(s, a))
  {
    if c :| 0 <= c < |s.ctls| && Holds(s.ctls[c]) {
      OthersKeepHolding(s, a, c);
    }
  }

  lemma OthersKeepHolding(s: State, a: Action, c: nat)
    requires Enabled(s, a) && !IsDoor(a) && c < |s.ctls| && Holds(s.ctls[c])
    ensures c < |Next(s, a).ctls| && Holds(Next(s, a).ctls[c])
  {
  }

  /**
   Exactly one step makes the service deaf: raising the flag again before the parked listener has
   seen it lowered.
   */
  lemma BecomesDeaf(s: State, a: Action)
    requires Inv(s) && !Deaf(s) && Enabled(s, a)
    ensures Deaf(Next(s, a)) <==> a.SetFlag? && s.ctls[a.c].RaiseSet? && Parked(s.lpc) && !s.flag
  {
    if IsDoor(a) { DoorBecomesDeaf(s, a); } else { OthersKeepHearing(s, a); }
  }

  lemma RunsResume(s: State, c: nat)
    requires Inv(s) && c < |s.ctls| && s.ctls[c].Holding? && s.ctls[c].h.Free? && s.lock == Unlocked
    ensures var acts := [Resume(c), Acquire(c), SetFlag(c), Tell(c)];
      Legal(s, acts) && After(s, acts) == s.(ctls := s.ctls[c := Idle], flag := false, lpc := Notified(s.lpc))
  {
    var s1 := Next(s, Resume(c));
    RunsLower(s1, c);
    Prepend(s, Resume(c), [Acquire(c), SetFlag(c), Tell(c)]);
    assert s1.ctls[c := Idle] == s.ctls[c := Idle];
  }

  lemma RunsLower(s: State, c: nat)
    requires c < |s.ctls| && s.ctls[c].LowerWant? && s.lock == Unlocked && !s.crashed
    ensures var acts := [Acquire(c), SetFlag(c), Tell(c)];
      Legal(s, acts) && After(s, acts) == s.(ctls := s.ctls[c := Idle], flag := false, lpc := Notified(s.lpc))
  {
    var s2 := Next(s, Acquire(c));
    var s3 := Next(s2, SetFlag(c));
    Prepend(s3, Tell(c), []);
    Prepend(s2, SetFlag(c), [Tell(c)]);
    Prepend(s, Acquire(c), [SetFlag(c), Tell(c)]);
    assert Next(s3, Tell(c)).ctls == s.ctls[c := Idle];
  }

  lemma RunsRaise(s: State, c: nat)
    requires c < |s.ctls| && s.ctls[c].Idle? && s.lock == Unlocked && !s.crashed
    ensures var acts := [Suspend(c), Acquire(c), SetFlag(c)];
      Legal(s, acts) && After(s, acts) == s.(ctls := s.ctls[c := RaiseTell], flag := true, lock := ByCtl(c))
  {
    var s1 := Next(s, Suspend(c));
    var s2 := Next(s1, Acquire(c));
    Prepend(s2, SetFlag(c), []);
    Prepend(s1, Acquire(c), [SetFlag(c)]);
    Prepend(s, Suspend(c), [Acquire(c), SetFlag(c)]);
    assert Next(s2, SetFlag(c)).ctls == s.ctls[c := RaiseTell];
  }

  /**
   It takes one controller: when it resumes a service whose listener is asleep and suspends it
   again at once, before the listener ran, that Suspend never returns.
   */
  lemma ResumeThenSuspendDeafens(s: State, c: nat)
    requires Inv(s) && c < |s.ctls| && s.ctls[c].Holding? && s.ctls[c].h.Free?
    requires s.lpc.Asleep? && s.lock == Unlocked
    ensures var acts := [Resume(c), Acquire(c), SetFlag(c), Tell(c)] + [Suspend(c), Acquire(c), SetFlag(c)];
      Legal(s, acts) && Deaf(After(s, acts)) && IsCtl(After(s, acts), c, RaiseTell)
  {
    RunsResume(s, c);
    var t := s.(ctls := s.ctls[c := Idle], flag := false, lpc := Notified(s.lpc));
    RunsRaise(t, c);
    Append(s, [Resume(c), Acquire(c), SetFlag(c), Tell(c)], [Suspend(c), Acquire(c), SetFlag(c)]);
  }
}
