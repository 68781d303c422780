/**
 ForwarderService (server/fwdsvc.go:16-166) as an object whose methods are those of the source. Between
 the atomic regions of a method everybody else goes on: the script says what the other goroutines
 try to do, and every region, of the caller or of others, is a step of module Service. A method
 that waits returns false when the script ends before its wait does.
 */
module ServiceObject {
  import opened Basics
  import opened Service
  import F = Forwarder
  import C = Cascade
  import H = Handshake
  import T = Traffic

  /** Who runs a method: the listener, controller c, or the goroutine of connection i. */
  datatype Actor = Listener | Controller(c: nat) | Connection(i: nat)

  predicate Mine(a: Action, me: Actor) {
    match me
    case Listener => IsListener(a)
    case Controller(c) => (IsDoor(a) || IsHeld(a)) && a.c == c
    case Connection(i) => a == Begin(i) || a == Remove(i)
  }

  /** A script played while `me` waits: what is enabled in its turn, and not its own, happens. */
  function Played(s: State, turns: seq<Action>, me: Option<Actor>): State
    decreases |turns|
  {
    if turns == [] then s
    else Played(Turn(s, turns[0], me), turns[1..], me)
  }

  function Turn(s: State, a: Action, me: Option<Actor>): State {
    if Enabled(s, a) && (me.None? || !Mine(a, me.value)) then Next(s, a) else s
  }

  lemma PlaysOne(s: State, turns: seq<Action>, i: nat, me: Option<Actor>)
    requires i < |turns|
    ensures Played(s, turns[i..], me) == Played(Turn(s, turns[i], me), turns[i + 1..], me)
  {
    assert turns[i..][1..] == turns[i + 1..];
  }

  /** What the others leave alone in the state of an actor. */
  predicate Left(s: State, t: State, me: Actor) {
    match me
    case Listener => |t.fwds| == |s.fwds| && (t.lpc == s.lpc || (s.lpc.Asleep? && t.lpc == Asleep(true)))
    case Controller(c) =>
      c < |s.ctls| ==> c < |t.ctls| && t.ctls[c] == s.ctls[c] && (s.listMux == Some(c) ==> t.listMux == s.listMux && t.list == s.list)
    case Connection(i) => i < |s.fwds| ==> i < |t.fwds| && (s.fwds[i].main in {F.Spawned, F.Finished} ==> t.fwds[i].main == s.fwds[i].main)
  }

  lemma OthersLeaveListener(s: State, a: Action)
    requires Enabled(s, a) && !IsListener(a)
    ensures Left(s, Next(s, a), Listener)
  {
  }

  lemma OthersLeaveCtl(s: State, a: Action, c: nat)
    requires H.Inv(s) && T.CloseInv(s) && Enabled(s, a) && !Mine(a, Controller(c))
    ensures Left(s, Next(s, a), Controller(c))
  {
    if c < |s.ctls| { OthersLeavePlace(s, a, c); }
    if s.listMux == Some(c) {
      assert H.Holds(s.ctls[c]);
      OthersLeaveList(s, a, c);
    }
  }

  lemma OthersLeavePlace(s: State, a: Action, c: nat)
    requires Enabled(s, a) && !Mine(a, Controller(c)) && c < |s.ctls|
    ensures c < |Next(s, a).ctls| && Next(s, a).ctls[c] == s.ctls[c]
  {
    if IsHeld(a) { HeldMovesOne(s, a); } else if IsDoor(a) { DoorMovesOne(s, a); }
  }

  lemma HeldMovesOne(s: State, a: Action)
    requires IsHeld(a) && HeldEnabled(s, a)
    ensures |HeldNext(s, a).ctls| == |s.ctls|
    ensures forall c :: 0 <= c < |s.ctls| && c != a.c ==> HeldNext(s, a).ctls[c] == s.ctls[c]
  {
  }

  lemma DoorMovesOne(s: State, a: Action)
    requires IsDoor(a) && DoorEnabled(s, a)
    ensures |DoorNext(s, a).ctls| == |s.ctls|
    ensures forall c :: 0 <= c < |s.ctls| && c != a.c ==> DoorNext(s, a).ctls[c] == s.ctls[c]
  {
  }

  lemma OthersLeaveList(s: State, a: Action, c: nat)
    requires Enabled(s, a) && !Mine(a, Controller(c)) && c < |s.ctls| && s.listMux == Some(c)
    requires H.Parked(s.lpc) && forall d :: 0 <= d < |s.ctls| && d != c ==> !H.Holds(s.ctls[d])
    ensures Next(s, a).listMux == s.listMux && Next(s, a).list == s.list
  {
    if IsDoor(a) { DoorLeavesList(s, a); }
  }

  lemma DoorLeavesList(s: State, a: Action)
    requires IsDoor(a) && DoorEnabled(s, a)
    ensures DoorNext(s, a).listMux == s.listMux && DoorNext(s, a).list == s.list
  {
  }

  lemma OthersLeaveConnection(s: State, a: Action, i: nat)
    requires T.BirthInv(s) && Enabled(s, a) && !Mine(a, Connection(i))
    ensures Left(s, Next(s, a), Connection(i))
  {
    if IsFwd(a) { if a.Forward? { C.NextKeepsMain(s.fwds[a.i], a.a); } }
    else if i < |s.fwds| { OthersLeaveMain(s, a, i); }
  }

  lemma OthersLeaveMain(s: State, a: Action, i: nat)
    requires T.BirthInv(s) && Enabled(s, a) && !IsFwd(a) && i < |s.fwds|
    ensures i < |Next(s, a).fwds|
    ensures s.fwds[i].main in {F.Spawned, F.Finished} ==> Next(s, a).fwds[i].main == s.fwds[i].main
  {
    if IsListener(a) { ListenerLeavesMain(s, a, i); }
  }

  lemma ListenerLeavesMain(s: State, a: Action, i: nat)
    requires T.BirthInv(s) && IsListener(a) && ListenerEnabled(s, a) && i < |s.fwds|
    ensures i < |ListenerNext(s, a).fwds|
    ensures s.fwds[i].main in {F.Spawned, F.Finished} ==> ListenerNext(s, a).fwds[i].main == s.fwds[i].main
  {
  }

  lemma OthersLeave(s: State, a: Action, me: Actor)
    requires Reachable(s) && Enabled(s, a) && !Mine(a, me)
    ensures Left(s, Next(s, a), me)
  {
    T.ReachableInv(s);
    match me
    case Listener => OthersLeaveListener(s, a);
    case Controller(c) => OthersLeaveCtl(s, a, c);
    case Connection(i) => OthersLeaveConnection(s, a, i);
  }

  lemma Steps(s: State, a: Action)
    requires Reachable(s) && Enabled(s, a)
    ensures Reachable(Next(s, a)) && !Next(s, a).crashed
  {
    ExtendReachable(s, a);
    T.ReachableInv(Next(s, a));
  }

  lemma WalkStepIs(s: State, c: nat, e: nat, calls: seq<CallRef>)
    requires Reachable(s) && IsCtl(s, c, Holding(Walking(e, calls))) && e < |s.list| && s.list[e] < |s.fwds| && !s.crashed
    ensures var f := s.list[e]; var ref := CallRef(f, |s.fwds[f].callers|);
      Reachable(s.(ctls := s.ctls[c := Holding(Walking(e + 1, calls + [ref]))], fwds := s.fwds[f := F.Call(s.fwds[f])]))
  {
    SpawnCloseIs(s, c, e, calls);
    ExtendReachable(s, WalkStep(c));
  }

  lemma SpawnCloseIs(s: State, c: nat, e: nat, calls: seq<CallRef>)
    requires IsCtl(s, c, Holding(Walking(e, calls))) && e < |s.list| && s.list[e] < |s.fwds| && !s.crashed
    ensures var f := s.list[e]; var ref := CallRef(f, |s.fwds[f].callers|);
      Enabled(s, WalkStep(c)) && Next(s, WalkStep(c)) ==
        s.(ctls := s.ctls[c := Holding(Walking(e + 1, calls + [ref]))], fwds := s.fwds[f := F.Call(s.fwds[f])])
  {
  }

  lemma NeverCrashed(s: State)
    requires Reachable(s)
    ensures !s.crashed
  {
    T.ReachableInv(s);
  }

  /** What holding the service means. */
  lemma HolderFacts(s: State, c: nat)
    requires Reachable(s) && c < |s.ctls| && s.ctls[c].Holding?
    ensures s.flag && H.Parked(s.lpc) && s.tokens == 0 && !s.crashed
    ensures forall d :: 0 <= d < |s.ctls| && d != c ==> !H.Holds(s.ctls[d])
    ensures !s.ctls[c].h.Walking? ==> s.listMux.None?
    ensures s.ctls[c].h.Walking? ==> s.listMux == Some(c) && s.ctls[c].h.at <= |s.list|
    ensures forall i :: 0 <= i < |s.list| ==> s.list[i] < |s.fwds|
  {
    T.ReachableInv(s);
    assert H.Holds(s.ctls[c]) && T.CtlInv(s, s.ctls[c]);
    if s.listMux.Some? { assert H.Holds(s.ctls[s.listMux.value]); }
  }

  lemma CloseAllCovers(s: State, c: nat)
    requires Reachable(s) && IsCtl(s, c, Holding(Free(true)))
    ensures forall f :: 0 <= f < |s.fwds| ==> C.Closed(s.fwds[f])
  {
    T.ReachableInv(s);
    T.QuietedIsSilent(s, c);
    forall f | 0 <= f < |s.fwds| ensures C.Closed(s.fwds[f]) { assert F.Inv(s.fwds[f]); }
  }

  /** Where the listener has got to with a connection it accepted. */
  lemma BirthFacts(s: State)
    requires Reachable(s) && (s.lpc.Rating? || s.lpc.Pushing? || s.lpc.Spawning?)
    ensures s.lpc.f < |s.fwds| && s.listMux.None?
  {
    T.ReachableInv(s);
    if s.listMux.Some? { T.ListenerAlone(s, s.listMux.value); }
  }

  lemma NewbornFacts(s: State, f: nat)
    requires Reachable(s) && f < |s.fwds| && s.fwds[f].main == F.Spawned
    ensures f in s.list && s.fwds[f].rate == s.dataRate
  {
    T.ReachableInv(s);
    assert F.Inv(s.fwds[f]);
  }

  lemma SendFacts(s: State)
    requires Reachable(s) && s.lpc == Sending
    ensures s.tokens == 0
  {
    T.ReachableInv(s);
  }

  lemma FinishedFacts(s: State, i: nat)
    requires Reachable(s) && i < |s.fwds| && s.fwds[i].main in {F.Finished, F.Removed}
    ensures C.Closed(s.fwds[i]) && (i in s.list <==> s.fwds[i].main == F.Finished)
  {
    T.ReachableInv(s);
    assert F.Inv(s.fwds[i]);
  }

  // ---------------------------------------------------------------- the object

  /** What AcceptTCP came back with. */
  datatype Accepted = Deadline | ClosedListener | Broken | Client

  /** How a round of the listener loop ended. */
  datatype RoundEnd = Stuck | Again | Gone | Started(f: nat)

  class ForwarderService {
    const script: seq<seq<Action>>
    var next: nat
    var isSuspended: bool
    var chanSuspend: nat
    var lock: LockOwner            // condSuspend.L
    var lpc: ListenerPc            // where the listener is
    var ctls: seq<Ctl>             // where each controller is
    var serverAddr: Addr
    var dataRate: int
    var fwdrs: seq<nat>
    var muxFwdrs: Option<nat>
    var created: seq<F.Fwd>
    var chanClose: bool            // closed, and with it the network listener
    var crashed: bool

    ghost function View(): State
      reads this
    {
      State(isSuspended, chanSuspend, lock, lpc, ctls, serverAddr, dataRate, fwdrs, muxFwdrs, created,
            chanClose, crashed)
    }

    constructor (controllers: nat, addr: Addr, rate: int, script: seq<seq<Action>>)
      ensures View() == Start(controllers, addr, rate) && Reachable(View())
      ensures this.script == script && next == 0
    {
      this.script, next := script, 0;
      isSuspended, chanSuspend, lock, lpc := false, 0, Unlocked, Top;
      ctls := seq(controllers, i => Idle);
      serverAddr, dataRate := addr, rate;
      fwdrs, muxFwdrs, created, chanClose, crashed := [], None, [], false, false;
      assert Legal(Start(controllers, addr, rate), []);
    }

    /** One region of anybody. */
    method Take(a: Action)
      requires Reachable(View()) && Enabled(View(), a)
      modifies this
      ensures View() == Next(old(View()), a) && next == old(next) && Reachable(View())
    {
      Steps(View(), a);
      Load(Next(State(isSuspended, chanSuspend, lock, lpc, ctls, serverAddr, dataRate, fwdrs, muxFwdrs, created,
                      chanClose, crashed), a));
    }

    method Load(s: State)
      modifies this
      ensures View() == s && next == old(next)
    {
      isSuspended, chanSuspend, lock, lpc, ctls := s.flag, s.tokens, s.lock, s.lpc, s.ctls;
      serverAddr, dataRate, fwdrs, muxFwdrs := s.serverAddr, s.dataRate, s.list, s.listMux;
      created, chanClose, crashed := s.fwds, s.lnClosed, s.crashed;
    }

    method CanRun(a: Action) returns (open: bool)
      ensures open == Enabled(View(), a)
    {
      open := Enabled(State(isSuspended, chanSuspend, lock, lpc, ctls, serverAddr, dataRate, fwdrs, muxFwdrs, created,
                            chanClose, crashed), a);
    }

    /** The others run for a while; what they cannot do, or is not theirs, is skipped. */
    method Others(me: Actor)
      requires Reachable(View()) && next < |script|
      modifies this
      ensures Reachable(View()) && next == old(next) + 1
      ensures Left(old(View()), View(), me)
      ensures View() == Played(old(View()), script[old(next)], Some(me))
    {
      var turns := script[next];
      next := next + 1;
      ghost var s := View();
      for i := 0 to |turns|
        invariant Reachable(View()) && next == old(next) + 1 && Left(s, View(), me)
        invariant Played(View(), turns[i..], Some(me)) == Played(s, turns, Some(me))
      {
        PlaysOne(View(), turns, i, Some(me));
        OneTurn(turns[i], Some(me));
      }
    }

    method OneTurn(a: Action, me: Option<Actor>)
      requires Reachable(View())
      modifies this
      ensures Reachable(View()) && next == old(next) && View() == Turn(old(View()), a, me)
      ensures me.Some? ==> Left(old(View()), View(), me.value)
    {
      var open := CanRun(a);
      if open && (me.None? || !Mine(a, me.value)) {
        if me.Some? { OthersLeave(View(), a, me.value); }
        Take(a);
      }
    }

    // -------------------------------------------------------------- controllers

    /** c waits for the mutex, which somebody else has. */
    predicate AwaitsLock(c: nat)
      reads this
    {
      c < |ctls| && (ctls[c].RaiseWant? || ctls[c].LowerWant?) && lock != Unlocked
    }

    /** c waits for Close calls that have not returned. */
    predicate AwaitsCloses(c: nat)
      reads this
    {
      c < |ctls| && ctls[c].Holding? && ctls[c].h.Joining? && !AllReturned(Current(), ctls[c].h.calls)
    }

    function Current(): State
      reads this
    {
      State(isSuspended, chanSuspend, lock, lpc, ctls, serverAddr, dataRate, fwdrs, muxFwdrs, created, chanClose, crashed)
    }

    /** condSuspend.L.Lock() */
    method LockL(c: nat) returns (ok: bool)
      requires Reachable(View()) && c < |ctls| && (ctls[c].RaiseWant? || ctls[c].LowerWant?) && next <= |script|
      modifies this
      ensures Reachable(View()) && old(next) <= next <= |script| && c < |ctls|
      ensures if ok then lock == ByCtl(c) && ctls[c] == (if old(ctls[c]).RaiseWant? then RaiseSet else LowerSet(old(ctls[c]).closed))
              else next == |script| && ctls[c] == old(ctls[c]) && lock != Unlocked
    {
      while lock != Unlocked && next < |script|
        invariant Reachable(View()) && old(next) <= next <= |script| && c < |ctls| && ctls[c] == old(ctls[c])
      {
        Others(Controller(c));
      }
      if lock != Unlocked { return false; }
      NeverCrashed(View());
      Steps(View(), Acquire(c));
      ctls := ctls[c := if ctls[c].RaiseWant? then RaiseSet else LowerSet(ctls[c].closed)];
      lock := ByCtl(c);
      ok := true;
    }

    /**
     Suspend. When it returns the listener is parked with the flag set, no token is left, and no
     other controller has the service.
     */
    method Suspend(c: nat) returns (back: bool)
      requires Reachable(View()) && IsCtl(View(), c, Idle) && next <= |script|
      modifies this
      ensures Reachable(View()) && old(next) <= next <= |script|
      ensures back ==> IsCtl(View(), c, Holding(Free(false))) && isSuspended && H.Parked(lpc) && chanSuspend == 0
      ensures back ==> forall d :: 0 <= d < |ctls| && d != c ==> !H.Holds(ctls[d])
      ensures !back ==> next == |script| && (AwaitsLock(c) || (IsCtl(View(), c, Waiting) && chanSuspend == 0))
    {
      NeverCrashed(View());
      Steps(View(), Service.Action.Suspend(c));
      ctls := ctls[c := RaiseWant];
      back := LockL(c);
      if !back { return; }
      Raise(c);
      back := ReceiveToken(c);
      if back { HolderFacts(View(), c); }
    }

    /** <-chanSuspend */
    method ReceiveToken(c: nat) returns (ok: bool)
      requires Reachable(View()) && IsCtl(View(), c, Waiting) && next <= |script|
      modifies this
      ensures Reachable(View()) && old(next) <= next <= |script|
      ensures if ok then IsCtl(View(), c, Holding(Free(false)))
              else next == |script| && IsCtl(View(), c, Waiting) && chanSuspend == 0
    {
      while chanSuspend == 0 && next < |script|
        invariant Reachable(View()) && old(next) <= next <= |script| && IsCtl(View(), c, Waiting)
      {
        Others(Controller(c));
      }
      ok := chanSuspend > 0;
      if ok { TakeToken(c); }
    }

    method TakeToken(c: nat)
      requires Reachable(View()) && IsCtl(View(), c, Waiting) && chanSuspend > 0
      modifies this`chanSuspend, this`ctls
      ensures Reachable(View()) && IsCtl(View(), c, Holding(Free(false)))
    {
      NeverCrashed(View());
      Steps(View(), Receive(c));
      chanSuspend := chanSuspend - 1;
      ctls := ctls[c := Holding(Free(false))];
    }

    /** The critical section of Suspend. */
    method Raise(c: nat)
      requires Reachable(View()) && IsCtl(View(), c, RaiseSet)
      modifies this`isSuspended, this`ctls, this`lock, this`lpc
      ensures Reachable(View()) && IsCtl(View(), c, Waiting) && isSuspended && lock == Unlocked
    {
      NeverCrashed(View());
      Steps(View(), SetFlag(c));
      isSuspended := true;
      ctls := ctls[c := RaiseTell];
      Steps(View(), Tell(c));
      if lpc.Asleep? { lpc := Asleep(true); }
      ctls := ctls[c := Waiting];
      lock := Unlocked;
    }

    /** Resume. When it returns the flag is down and a sleeping listener has been notified. */
    method Resume(c: nat) returns (back: bool)
      requires Reachable(View()) && c < |ctls| && ctls[c].Holding? && ctls[c].h.Free? && next <= |script|
      modifies this
      ensures Reachable(View()) && old(next) <= next <= |script|
      ensures back ==> IsCtl(View(), c, Idle) && !isSuspended && lock == Unlocked && lpc != Asleep(false)
      ensures !back ==> next == |script| && AwaitsLock(c) && H.Holds(ctls[c]) && isSuspended
    {
      HolderFacts(View(), c);
      Steps(View(), Service.Action.Resume(c));
      ctls := ctls[c := LowerWant(ctls[c].h.closed)];
      back := LockL(c);
      if back { Lower(c); } else { WaiterFacts(View(), c); }
    }

    /** The critical section of Resume. */
    method Lower(c: nat)
      requires Reachable(View()) && c < |ctls| && ctls[c].LowerSet?
      modifies this`isSuspended, this`ctls, this`lock, this`lpc
      ensures Reachable(View()) && IsCtl(View(), c, Idle) && !isSuspended && lock == Unlocked && lpc != Asleep(false)
    {
      NeverCrashed(View());
      Steps(View(), SetFlag(c));
      isSuspended := false;
      ctls := ctls[c := LowerTell];
      Steps(View(), Tell(c));
      if lpc.Asleep? { lpc := Asleep(true); }
      ctls := ctls[c := Idle];
      lock := Unlocked;
    }

    /**
     CloseAllForwarders. It never panics where Suspend has returned before; when it returns every
     forwarder ever created has both pumps ended and its connections closed.
     */
    method CloseAllForwarders(c: nat) returns (back: bool)
      requires Reachable(View()) && c < |ctls| && ctls[c].Holding? && ctls[c].h.Free? && next <= |script|
      modifies this
      ensures Reachable(View()) && old(next) <= next <= |script| && !crashed
      ensures back ==> IsCtl(View(), c, Holding(Free(true))) && forall f :: 0 <= f < |created| ==> C.Closed(created[f])
      ensures !back ==> next == |script| && AwaitsCloses(c)
    {
      Guard(c);
      LockList(c);
      var calls := Walk(c);
      UnlockList(c, calls);
      back := Join(c, calls);
      NeverCrashed(View());
    }

    method UnlockList(c: nat, calls: seq<CallRef>)
      requires Reachable(View()) && IsCtl(View(), c, Holding(Walking(|fwdrs|, calls)))
      modifies this`muxFwdrs, this`ctls
      ensures Reachable(View()) && IsCtl(View(), c, Holding(Joining(calls)))
    {
      NeverCrashed(View());
      Steps(View(), WalkEnd(c));
      muxFwdrs := None;
      ctls := ctls[c := Holding(Joining(calls))];
    }

    /** "Must be suspended before CloseAllForwarders" */
    method Guard(c: nat)
      requires Reachable(View()) && c < |ctls| && ctls[c].Holding? && ctls[c].h.Free?
      modifies this`crashed, this`ctls
      ensures Reachable(View()) && IsCtl(View(), c, Holding(WalkWant))
    {
      HolderFacts(View(), c);
      Steps(View(), CloseAll(c));
      crashed := !isSuspended;
      if !crashed { ctls := ctls[c := Holding(WalkWant)]; }
    }

    /** muxFwdrs.Lock(), which nobody but a walk keeps. */
    method LockList(c: nat)
      requires Reachable(View()) && IsCtl(View(), c, Holding(WalkWant))
      modifies this`muxFwdrs, this`ctls
      ensures Reachable(View()) && IsCtl(View(), c, Holding(Walking(0, []))) && muxFwdrs == Some(c)
    {
      HolderFacts(View(), c);
      Steps(View(), WalkLock(c));
      muxFwdrs := Some(c);
      ctls := ctls[c := Holding(Walking(0, []))];
    }

    /** The loop over the list, under its mutex. */
    method Walk(c: nat) returns (calls: seq<CallRef>)
      requires Reachable(View()) && IsCtl(View(), c, Holding(Walking(0, []))) && muxFwdrs == Some(c) && next <= |script|
      modifies this
      ensures Reachable(View()) && old(next) <= next <= |script| && muxFwdrs == Some(c)
      ensures IsCtl(View(), c, Holding(Walking(|fwdrs|, calls)))
    {
      var e := 0;
      calls := [];
      while e < |fwdrs|
        invariant Reachable(View()) && old(next) <= next <= |script| && muxFwdrs == Some(c) && fwdrs == old(fwdrs)
        invariant e <= |fwdrs| && IsCtl(View(), c, Holding(Walking(e, calls)))
      {
        calls := WalkOne(c, e, calls);
        e := e + 1;
      }
    }

    /** One element, and the others for a while. */
    method WalkOne(c: nat, e: nat, before: seq<CallRef>) returns (calls: seq<CallRef>)
      requires Reachable(View()) && IsCtl(View(), c, Holding(Walking(e, before))) && e < |fwdrs|
      requires muxFwdrs == Some(c) && next <= |script|
      modifies this
      ensures Reachable(View()) && old(next) <= next <= |script| && muxFwdrs == Some(c) && fwdrs == old(fwdrs)
      ensures IsCtl(View(), c, Holding(Walking(e + 1, calls)))
    {
      HolderFacts(View(), c);
      calls := CloseOne(c, e, before);
      if next < |script| { Others(Controller(c)); }
    }

    /** go fwdr.Close() */
    method CloseOne(c: nat, e: nat, before: seq<CallRef>) returns (calls: seq<CallRef>)
      requires Reachable(View()) && IsCtl(View(), c, Holding(Walking(e, before))) && e < |fwdrs|
      requires fwdrs[e] < |created| && !crashed
      modifies this`ctls, this`created
      ensures Reachable(View()) && IsCtl(View(), c, Holding(Walking(e + 1, calls)))
    {
      WalkStepIs(View(), c, e, before);
      var f := fwdrs[e];
      calls := before + [CallRef(f, |created[f].callers|)];
      ctls := ctls[c := Holding(Walking(e + 1, calls))];
      created := created[f := F.Call(created[f])];
    }

    /** wg.Wait() */
    method Join(c: nat, calls: seq<CallRef>) returns (back: bool)
      requires Reachable(View()) && IsCtl(View(), c, Holding(Joining(calls))) && next <= |script|
      modifies this
      ensures Reachable(View()) && old(next) <= next <= |script|
      ensures back ==> IsCtl(View(), c, Holding(Free(true))) && forall f :: 0 <= f < |created| ==> C.Closed(created[f])
      ensures !back ==> next == |script| && AwaitsCloses(c)
    {
      back := HaveReturned(calls);
      while !back && next < |script|
        invariant Reachable(View()) && old(next) <= next <= |script| && IsCtl(View(), c, Holding(Joining(calls)))
        invariant back == AllReturned(View(), calls)
        decreases |script| - next
      {
        Others(Controller(c));
        back := HaveReturned(calls);
      }
      if back {
        NeverCrashed(View());
        Steps(View(), Joined(c));
        ctls := ctls[c := Holding(Free(true))];
        CloseAllCovers(View(), c);
      }
    }

    method HaveReturned(calls: seq<CallRef>) returns (all: bool)
      ensures all == AllReturned(View(), calls)
    {
      all := true;
      for j := 0 to |calls|
        invariant all == forall i :: 0 <= i < j ==>
          calls[i].f < |created| && calls[i].k < |created[calls[i].f].callers|
          && created[calls[i].f].callers[calls[i].k].Returned?
      {
        var r := calls[j];
        all := all && r.f < |created| && r.k < |created[r.f].callers| && created[r.f].callers[r.k].Returned?;
      }
    }

    method ChangeServerAddr(c: nat, addr: Addr)
      requires Reachable(View()) && MayChange(View(), c)
      modifies this`serverAddr, this`crashed
      ensures Reachable(View()) && serverAddr == addr && !crashed
    {
      HolderFacts(View(), c);
      Steps(View(), ChangeAddr(c, addr));
      crashed := !isSuspended;
      if !crashed { serverAddr := addr; }
    }

    method ChangeDataRate(c: nat, rate: int)
      requires Reachable(View()) && MayChange(View(), c)
      modifies this`dataRate, this`crashed
      ensures Reachable(View()) && dataRate == rate && !crashed
    {
      HolderFacts(View(), c);
      Steps(View(), ChangeRate(c, rate));
      crashed := !isSuspended;
      if !crashed { dataRate := rate; }
    }

    // -------------------------------------------------------------- the listener

    /** The listener waits to be notified, or for the mutex after that. */
    predicate Sleeps()
      reads this
    {
      lpc.Asleep? && (lpc != Asleep(true) || lock != Unlocked)
    }

    /** condSuspend.L.Lock() at the top of the loop. */
    method LockTop() returns (ok: bool)
      requires Reachable(View()) && lpc == Top && next <= |script|
      modifies this
      ensures Reachable(View()) && old(next) <= next <= |script| && |created| == old(|created|)
      ensures if ok then lpc == Testing else next == |script| && lpc == Top && lock != Unlocked
    {
      while lock != Unlocked && next < |script|
        invariant Reachable(View()) && old(next) <= next <= |script| && lpc == Top && |created| == old(|created|)
      {
        Others(Listener);
      }
      if lock != Unlocked { return false; }
      NeverCrashed(View());
      Steps(View(), LLock);
      lock, lpc := ByListener, Testing;
      ok := true;
    }

    /** Announces that it is suspended and waits until it is not; the send never blocks. */
    method Park() returns (ok: bool)
      requires Reachable(View()) && lpc == Sending && next <= |script|
      modifies this
      ensures Reachable(View()) && old(next) <= next <= |script| && |created| == old(|created|)
      ensures if ok then lpc == Unlocking && !isSuspended else next == |script| && Sleeps()
    {
      NeverCrashed(View());
      SendFacts(View());
      Steps(View(), LSend);
      chanSuspend, lpc := chanSuspend + 1, Retesting;
      while isSuspended
        invariant Reachable(View()) && old(next) <= next <= |script| && lpc == Retesting && |created| == old(|created|)
        decreases |script| - next
      {
        ok := Wait();
        if !ok { return; }
      }
      NeverCrashed(View());
      Steps(View(), LRetest);
      lpc := Unlocking;
      ok := true;
    }

    /** condSuspend.Wait() */
    method Wait() returns (ok: bool)
      requires Reachable(View()) && lpc == Retesting && isSuspended && next <= |script|
      modifies this
      ensures Reachable(View()) && old(next) <= next <= |script| && |created| == old(|created|)
      ensures if ok then lpc == Retesting && next > old(next) else next == |script| && Sleeps()
    {
      NeverCrashed(View());
      Steps(View(), LRetest);
      lpc, lock := Asleep(false), Unlocked;
      while (lpc != Asleep(true) || lock != Unlocked) && next < |script|
        invariant Reachable(View()) && old(next) <= next <= |script| && lpc.Asleep? && |created| == old(|created|)
        invariant next == old(next) ==> lpc == Asleep(false)
      {
        Others(Listener);
      }
      if lpc != Asleep(true) || lock != Unlocked { return false; }
      NeverCrashed(View());
      Steps(View(), LWake);
      lock, lpc := ByListener, Retesting;
      ok := true;
    }

    /**
     One round of the listener loop. It comes back to the top of the loop, or is over, or still
     waits when the script ends. A client it accepted has a new forwarder, which is in the list
     and has the current data rate before its goroutine starts.
     */
    method Round(accepted: Accepted) returns (end: RoundEnd)
      requires Reachable(View()) && lpc == Top && next <= |script|
      modifies this
      ensures Reachable(View()) && old(next) <= next <= |script|
      ensures end.Stuck? ==> next == |script| && (Sleeps() || (lpc == Top && lock != Unlocked))
      ensures !end.Stuck? ==> (accepted.Client? <==> end.Started?) && (accepted.Deadline? <==> end.Again?)
      ensures !end.Stuck? ==> (accepted.ClosedListener? || accepted.Broken? <==> end.Gone?)
      ensures end.Again? || end.Started? ==> lpc == Top
      ensures end.Gone? ==> lpc == Exited
      ensures end.Started? <==> |created| == old(|created|) + 1
      ensures end.Started? ==> end.f == old(|created|) && end.f in fwdrs && created[end.f].main == F.Spawned && created[end.f].rate == dataRate
      ensures !end.Started? ==> |created| == old(|created|)
    {
      var ok := LockTop();
      if !ok { return Stuck; }
      ok := PassGate();
      if !ok { return Stuck; }
      if next < |script| { Others(Listener); }
      end := Dispatch(accepted);
    }

    /** The critical section at the top of the loop. */
    method PassGate() returns (ok: bool)
      requires Reachable(View()) && lpc == Testing && next <= |script|
      modifies this
      ensures Reachable(View()) && old(next) <= next <= |script| && |created| == old(|created|)
      ensures if ok then lpc == Accepting && !isSuspended else next == |script| && Sleeps()
    {
      NeverCrashed(View());
      Steps(View(), LTest);
      lpc := if isSuspended then Sending else Unlocking;
      if isSuspended {
        ok := Park();
        if !ok { return; }
      }
      NeverCrashed(View());
      Steps(View(), LUnlock);
      lock, lpc := Unlocked, Accepting;
      ok := true;
    }

    /** What follows AcceptTCP. */
    method Dispatch(accepted: Accepted) returns (end: RoundEnd)
      requires Reachable(View()) && lpc == Accepting && next <= |script|
      modifies this
      ensures Reachable(View()) && old(next) <= next <= |script| && !end.Stuck?
      ensures lpc == if end.Gone? then Exited else Top
      ensures (accepted.Client? <==> end.Started?) && (accepted.Deadline? <==> end.Again?)
      ensures accepted.ClosedListener? || accepted.Broken? <==> end.Gone?
      ensures end.Started? <==> |created| == old(|created|) + 1
      ensures end.Started? ==> end.f == old(|created|) && end.f in fwdrs && created[end.f].main == F.Spawned && created[end.f].rate == dataRate
      ensures !end.Started? ==> |created| == old(|created|)
    {
      NeverCrashed(View());
      if accepted.Client? {
        end := Started(|created|);
        Steps(View(), LAccept);
        created, lpc := created + [F.New()], Rating(|created|);
        Enlist();
        NewbornFacts(View(), end.f);
      } else if accepted.Deadline? {
        Steps(View(), LTimeout);
        lpc := Top;
        end := Again;
      } else {
        Steps(View(), LFail);
        lpc := Exited;
        end := Gone;
      }
    }

    /** SetDataRate, PushBack and the start of the goroutine, with the others in between. */
    method Enlist()
      requires Reachable(View()) && lpc.Rating? && lpc.f < |created| && next <= |script|
      modifies this
      ensures Reachable(View()) && old(next) <= next <= |script| && |created| == old(|created|) && lpc == Top
      ensures created[old(lpc.f)].main == F.Spawned
    {
      var f := lpc.f;
      Rate(f);
      if next < |script| { Others(Listener); }
      Launch(f);
    }

    /** From the list on. */
    method Launch(f: nat)
      requires Reachable(View()) && lpc == Pushing(f) && f < |created| && next <= |script|
      modifies this
      ensures Reachable(View()) && old(next) <= next <= |script| && |created| == old(|created|) && lpc == Top
      ensures created[f].main == F.Spawned
    {
      Push(f);
      if next < |script| { Others(Listener); }
      Spawn(f);
    }

    method Rate(f: nat)
      requires Reachable(View()) && lpc == Rating(f) && f < |created|
      modifies this`created, this`lpc
      ensures Reachable(View()) && |created| == old(|created|) && lpc == Pushing(f)
    {
      NeverCrashed(View());
      Steps(View(), LRate);
      created, lpc := created[f := created[f].(rate := dataRate)], Pushing(f);
    }

    method Push(f: nat)
      requires Reachable(View()) && lpc == Pushing(f) && f < |created|
      modifies this`fwdrs, this`created, this`lpc
      ensures Reachable(View()) && |created| == old(|created|) && lpc == Spawning(f)
    {
      BirthFacts(View());
      NeverCrashed(View());
      Steps(View(), LPush);
      fwdrs := fwdrs + [f];
      created, lpc := created[f := created[f].(main := F.Listed)], Spawning(f);
    }

    method Spawn(f: nat)
      requires Reachable(View()) && lpc == Spawning(f) && f < |created|
      modifies this`created, this`lpc
      ensures Reachable(View()) && |created| == old(|created|) && lpc == Top && created[f].main == F.Spawned
    {
      NeverCrashed(View());
      Steps(View(), LSpawn);
      created, lpc := created[f := created[f].(main := F.Spawned)], Top;
    }

    // -------------------------------------------------------------- one connection

    /**
     The goroutine of a connection: it calls Accept with the address it reads now, and removes the
     forwarder when Accept has returned. These two regions are run here; the steps of Accept itself,
     like those of the pumps, are in the script of the others. When it returns the forwarder is over
     and no longer in the list.
     */
    method Connect(i: nat) returns (back: bool)
      requires Reachable(View()) && i < |created| && created[i].main == F.Spawned && next <= |script|
      modifies this
      ensures Reachable(View()) && old(next) <= next <= |script| && i < |created|
      ensures back ==> C.Closed(created[i]) && i !in fwdrs
      ensures !back ==> next == |script| && (created[i].main != F.Finished || muxFwdrs.Some?)
    {
      Enter(i);
      while (created[i].main != F.Finished || muxFwdrs.Some?) && next < |script|
        invariant Reachable(View()) && old(next) <= next <= |script| && i < |created|
      {
        Others(Connection(i));
      }
      back := created[i].main == F.Finished && muxFwdrs.None?;
      if back { Drop(i); }
    }

    /** Accept is called with the address read now. */
    method Enter(i: nat)
      requires Reachable(View()) && i < |created| && created[i].main == F.Spawned
      modifies this`created
      ensures Reachable(View()) && |created| == old(|created|) && created[i].addr == Some(serverAddr)
    {
      NeverCrashed(View());
      Steps(View(), Begin(i));
      created := created[i := created[i].(main := F.Called, addr := Some(serverAddr))];
    }

    method Drop(i: nat)
      requires Reachable(View()) && i < |created| && created[i].main == F.Finished && muxFwdrs.None?
      modifies this`fwdrs, this`created
      ensures Reachable(View()) && |created| == old(|created|) && C.Closed(created[i]) && i !in fwdrs
    {
      NeverCrashed(View());
      Steps(View(), Remove(i));
      fwdrs := Without(fwdrs, i);
      created := created[i := created[i].(main := F.Removed)];
      FinishedFacts(View(), i);
    }

    /** Any interleaving of all of them. */
    method Schedule(turns: seq<Action>) returns (taken: seq<Action>)
      requires Reachable(View())
      modifies this
      ensures Legal(old(View()), taken) && View() == After(old(View()), taken)
      ensures View() == Played(old(View()), turns, None)
      ensures T.Inv(View())
    {
      taken := [];
      for i := 0 to |turns|
        invariant Reachable(View()) && Legal(old(View()), taken) && View() == After(old(View()), taken)
        invariant Played(View(), turns[i..], None) == Played(old(View()), turns, None)
      {
        PlaysOne(View(), turns, i, None);
        var open := CanRun(turns[i]);
        if open {
          AppendStep(old(View()), taken, turns[i]);
          Take(turns[i]);
          taken := taken + [turns[i]];
        }
      }
      T.ReachableInv(View());
    }

    /** Close, which its caller must not repeat. */
    method Close()
      requires Reachable(View()) && !chanClose
      modifies this`chanClose
      ensures Reachable(View()) && chanClose
    {
      NeverCrashed(View());
      Steps(View(), CloseService);
      chanClose := true;
    }
  }

  lemma WaiterFacts(s: State, c: nat)
    requires Reachable(s) && c < |s.ctls| && H.Holds(s.ctls[c])
    ensures s.flag
  {
    T.ReachableInv(s);
  }
}
