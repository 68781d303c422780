/**
 The forwarding service (server/fwdsvc.go) as a step system: its listener, any number of
 controllers that suspend and resume it, and every forwarder it ever created. A forwarder's own
 steps are those of module Forwarder.

 Controllers keep the discipline of LM_Restore.exec: only after Suspend returned do they call
 CloseAllForwarders or Resume, and they change the address or the rate only after
 CloseAllForwarders returned.
 */
module Service {
  import opened Basics
  import F = Forwarder

  datatype LockOwner = Unlocked | ByListener | ByCtl(c: nat)

  datatype ListenerPc =
    | Top | Testing | Sending | Retesting
    | Asleep(notified: bool)                // inside condSuspend.Wait
    | Unlocking | Accepting
    | Rating(f: nat) | Pushing(f: nat) | Spawning(f: nat)
    | Exited

  /** A Close goroutine that CloseAllForwarders started: caller k of forwarder f. */
  datatype CallRef = CallRef(f: nat, k: nat)

  /** What a controller does between Suspend and Resume; closed: CloseAllForwarders returned. */
  datatype Held =
    | Free(closed: bool)
    | WalkWant
    | Walking(at: nat, calls: seq<CallRef>)   // holds muxFwdrs
    | Joining(calls: seq<CallRef>)

  datatype Ctl =
    | Idle
    | RaiseWant | RaiseSet | RaiseTell | Waiting
    | Holding(h: Held)
    | LowerWant(closed: bool) | LowerSet(closed: bool) | LowerTell

  datatype State = State(
    flag: bool,                // isSuspended
    tokens: nat,               // in chanSuspend, a channel of capacity 1
    lock: LockOwner,           // condSuspend.L
    lpc: ListenerPc,
    ctls: seq<Ctl>,
    serverAddr: Addr,
    dataRate: int,
    list: seq<nat>,            // fwdrs
    listMux: Option<nat>,      // muxFwdrs, when a controller walks the list
    fwds: seq<F.Fwd>,
    lnClosed: bool,
    crashed: bool)             // a "Must be suspended" guard fired

  function Start(n: nat, addr: Addr, rate: int): State {
    State(false, 0, Unlocked, Top, seq(n, i => Idle), addr, rate, [], None, [], false, false)
  }

  datatype Action =
    | LLock | LTest | LSend | LRetest | LWake | LUnlock
    | LTimeout | LClosed | LFail | LAccept | LRate | LPush | LSpawn
    | Suspend(c: nat) | Acquire(c: nat) | SetFlag(c: nat) | Tell(c: nat) | Receive(c: nat) | Resume(c: nat)
    | CloseAll(c: nat) | WalkLock(c: nat) | WalkStep(c: nat) | WalkEnd(c: nat) | Joined(c: nat)
    | ChangeAddr(c: nat, addr: Addr) | ChangeRate(c: nat, rate: int)
    | Begin(i: nat) | Forward(i: nat, a: F.Action) | Remove(i: nat)
    | CloseService

  predicate IsListener(a: Action) {
    || a.LLock? || a.LTest? || a.LSend? || a.LRetest? || a.LWake? || a.LUnlock? || a.LTimeout?
    || a.LClosed? || a.LFail? || a.LAccept? || a.LRate? || a.LPush? || a.LSpawn?
  }

  predicate IsFwd(a: Action) { a.Begin? || a.Forward? || a.Remove? || a.CloseService? }

  predicate IsDoor(a: Action) {
    a.Suspend? || a.Acquire? || a.SetFlag? || a.Tell? || a.Receive? || a.Resume?
  }

  predicate IsHeld(a: Action) { !IsListener(a) && !IsFwd(a) && !IsDoor(a) }

  predicate IsCtl(s: State, c: nat, p: Ctl) { c < |s.ctls| && s.ctls[c] == p }

  predicate MayChange(s: State, c: nat) { IsCtl(s, c, Holding(Free(true))) }

  predicate AllReturned(s: State, calls: seq<CallRef>) {
    forall j :: 0 <= j < |calls| ==>
      calls[j].f < |s.fwds| && calls[j].k < |s.fwds[calls[j].f].callers|
      && s.fwds[calls[j].f].callers[calls[j].k].Returned?
  }

  predicate ListenerEnabled(s: State, a: Action)
    requires IsListener(a)
  {
    match a
    case LLock => s.lpc == Top && s.lock == Unlocked
    case LTest => s.lpc == Testing
    case LSend => s.lpc == Sending && s.tokens == 0
    case LRetest => s.lpc == Retesting
    case LWake => s.lpc == Asleep(true) && s.lock == Unlocked
    case LUnlock => s.lpc == Unlocking
    case LTimeout => s.lpc == Accepting
    case LClosed => s.lpc == Accepting && s.lnClosed
    case LFail => s.lpc == Accepting
    case LAccept => s.lpc == Accepting
    case LRate => s.lpc.Rating? && s.lpc.f < |s.fwds|
    case LPush => s.lpc.Pushing? && s.lpc.f < |s.fwds| && s.listMux.None?
    case LSpawn => s.lpc.Spawning? && s.lpc.f < |s.fwds|
  }

  predicate DoorEnabled(s: State, a: Action)
    requires IsDoor(a)
  {
    match a
    case Suspend(c) => IsCtl(s, c, Idle)
    case Acquire(c) => c < |s.ctls| && (s.ctls[c].RaiseWant? || s.ctls[c].LowerWant?) && s.lock == Unlocked
    case SetFlag(c) => c < |s.ctls| && (s.ctls[c].RaiseSet? || s.ctls[c].LowerSet?)
    case Tell(c) => c < |s.ctls| && (s.ctls[c].RaiseTell? || s.ctls[c].LowerTell?)
    case Receive(c) => IsCtl(s, c, Waiting) && s.tokens > 0
    case Resume(c) => c < |s.ctls| && s.ctls[c].Holding? && s.ctls[c].h.Free?
  }

  predicate HeldEnabled(s: State, a: Action)
    requires IsHeld(a)
  {
    match a
    case CloseAll(c) => c < |s.ctls| && s.ctls[c].Holding? && s.ctls[c].h.Free?
    case WalkLock(c) => IsCtl(s, c, Holding(WalkWant)) && s.listMux.None?
    case WalkStep(c) => c < |s.ctls| && s.ctls[c].Holding? && s.ctls[c].h.Walking?
                        && s.ctls[c].h.at < |s.list| && s.list[s.ctls[c].h.at] < |s.fwds|
    case WalkEnd(c) => c < |s.ctls| && s.ctls[c].Holding? && s.ctls[c].h.Walking? && s.ctls[c].h.at >= |s.list|
    case Joined(c) => c < |s.ctls| && s.ctls[c].Holding? && s.ctls[c].h.Joining? && AllReturned(s, s.ctls[c].h.calls)
    case ChangeAddr(c, _) => MayChange(s, c)
    case ChangeRate(c, _) => MayChange(s, c)
  }

  predicate FwdEnabled(s: State, a: Action)
    requires IsFwd(a)
  {
    match a
    case Begin(i) => i < |s.fwds| && s.fwds[i].main == F.Spawned
    case Forward(i, b) => i < |s.fwds| && F.Enabled(s.fwds[i], b)
    case Remove(i) => i < |s.fwds| && s.fwds[i].main == F.Finished && s.listMux.None?
    case CloseService => !s.lnClosed
  }

  predicate Enabled(s: State, a: Action) {
    !s.crashed &&
    if IsListener(a) then ListenerEnabled(s, a)
    else if IsDoor(a) then DoorEnabled(s, a)
    else if IsFwd(a) then FwdEnabled(s, a)
    else HeldEnabled(s, a)
  }

  function SetMain(s: State, f: nat, m: F.MainPc): seq<F.Fwd>
    requires f < |s.fwds|
  {
    s.fwds[f := s.fwds[f].(main := m)]
  }

  function ListenerNext(s: State, a: Action): State
    requires IsListener(a) && ListenerEnabled(s, a)
  {
    match a
    case LLock => s.(lock := ByListener, lpc := Testing)
    case LTest => s.(lpc := if s.flag then Sending else Unlocking)
    case LSend => s.(tokens := s.tokens + 1, lpc := Retesting)
    case LRetest => if s.flag then s.(lpc := Asleep(false), lock := Unlocked) else s.(lpc := Unlocking)
    case LWake => s.(lpc := Retesting, lock := ByListener)
    case LUnlock => s.(lpc := Accepting, lock := Unlocked)
    case LTimeout => s.(lpc := Top)
    case LClosed => s.(lpc := Exited)
    case LFail => s.(lpc := Exited)
    case LAccept => s.(lpc := Rating(|s.fwds|), fwds := s.fwds + [F.New()])
    case LRate => s.(lpc := Pushing(s.lpc.f), fwds := s.fwds[s.lpc.f := s.fwds[s.lpc.f].(rate := s.dataRate)])
    case LPush => s.(lpc := Spawning(s.lpc.f), list := s.list + [s.lpc.f], fwds := SetMain(s, s.lpc.f, F.Listed))
    case LSpawn => s.(lpc := Top, fwds := SetMain(s, s.lpc.f, F.Spawned))
  }

  /** Broadcast wakes the listener if it waits. */
  function Notified(l: ListenerPc): ListenerPc { if l.Asleep? then Asleep(true) else l }

  function SetCtl(s: State, c: nat, p: Ctl): State
    requires c < |s.ctls|
  {
    s.(ctls := s.ctls[c := p])
  }

  function DoorNext(s: State, a: Action): State
    requires IsDoor(a) && DoorEnabled(s, a)
  {
    match a
    case Suspend(c) => SetCtl(s, c, RaiseWant)
    case Acquire(c) =>
      SetCtl(s, c, if s.ctls[c].RaiseWant? then RaiseSet else LowerSet(s.ctls[c].closed)).(lock := ByCtl(c))
    case SetFlag(c) =>
      if s.ctls[c].RaiseSet? then SetCtl(s, c, RaiseTell).(flag := true) else SetCtl(s, c, LowerTell).(flag := false)
    case Tell(c) =>
      SetCtl(s, c, if s.ctls[c].RaiseTell? then Waiting else Idle).(lock := Unlocked, lpc := Notified(s.lpc))
    case Receive(c) => SetCtl(s, c, Holding(Free(false))).(tokens := s.tokens - 1)
    case Resume(c) => SetCtl(s, c, LowerWant(s.ctls[c].h.closed))
  }

  function SpawnClose(s: State, c: nat): State
    requires HeldEnabled(s, WalkStep(c))
  {
    var h := s.ctls[c].h;
    var f := s.list[h.at];
    SetCtl(s, c, Holding(Walking(h.at + 1, h.calls + [CallRef(f, |s.fwds[f].callers|)])))
      .(fwds := s.fwds[f := F.Call(s.fwds[f])])
  }

  function HeldNext(s: State, a: Action): State
    requires IsHeld(a) && HeldEnabled(s, a)
  {
    match a
    case CloseAll(c) => if s.flag then SetCtl(s, c, Holding(WalkWant)) else s.(crashed := true)
    case WalkLock(c) => SetCtl(s, c, Holding(Walking(0, []))).(listMux := Some(c))
    case WalkStep(c) => SpawnClose(s, c)
    case WalkEnd(c) => SetCtl(s, c, Holding(Joining(s.ctls[c].h.calls))).(listMux := None)
    case Joined(c) => SetCtl(s, c, Holding(Free(true)))
    case ChangeAddr(c, addr) => if s.flag then s.(serverAddr := addr) else s.(crashed := true)
    case ChangeRate(c, rate) => if s.flag then s.(dataRate := rate) else s.(crashed := true)
  }

  /** The list without element f. */
  function Without(list: seq<nat>, f: nat): seq<nat> {
    if list == [] then []
    else if list[0] == f then list[1..]
    else [list[0]] + Without(list[1..], f)
  }

  function FwdNext(s: State, a: Action): State
    requires IsFwd(a) && FwdEnabled(s, a)
  {
    match a
    case Begin(i) => s.(fwds := s.fwds[i := s.fwds[i].(main := F.Called, addr := Some(s.serverAddr))])
    case Forward(i, b) => s.(fwds := s.fwds[i := F.Next(s.fwds[i], b)])
    case Remove(i) => s.(list := Without(s.list, i), fwds := SetMain(s, i, F.Removed))
    case CloseService => s.(lnClosed := true)
  }

  function Next(s: State, a: Action): State
    requires Enabled(s, a)
  {
    if IsListener(a) then ListenerNext(s, a)
    else if IsDoor(a) then DoorNext(s, a)
    else if IsFwd(a) then FwdNext(s, a)
    else HeldNext(s, a)
  }

  // ---------------------------------------------------------------- runs

  predicate Legal(s: State, acts: seq<Action>)
    decreases |acts|
  {
    acts != [] ==> Enabled(s, acts[0]) && Legal(Next(s, acts[0]), acts[1..])
  }

  function After(s: State, acts: seq<Action>): State
    requires Legal(s, acts)
    decreases |acts|
  {
    if acts == [] then s else After(Next(s, acts[0]), acts[1..])
  }

  lemma Prepend(s: State, a: Action, acts: seq<Action>)
    requires Enabled(s, a) && Legal(Next(s, a), acts)
    ensures Legal(s, [a] + acts) && After(s, [a] + acts) == After(Next(s, a), acts)
  {
    assert ([a] + acts)[1..] == acts;
  }

  lemma {:induction false} Append(s: State, xs: seq<Action>, ys: seq<Action>)
    requires Legal(s, xs) && Legal(After(s, xs), ys)
    ensures Legal(s, xs + ys) && After(s, xs + ys) == After(After(s, xs), ys)
    decreases |xs|
  {
    if xs == [] {
      assert xs + ys == ys;
    } else {
      Append(Next(s, xs[0]), xs[1..], ys);
      Prepend(s, xs[0], xs[1..] + ys);
      assert xs + ys == [xs[0]] + (xs[1..] + ys);
    }
  }

  lemma AppendStep(s: State, acts: seq<Action>, a: Action)
    requires Legal(s, acts) && Enabled(After(s, acts), a)
    ensures Legal(s, acts + [a]) && After(s, acts + [a]) == Next(After(s, acts), a)
  {
    Prepend(After(s, acts), a, []);
    Append(s, acts, [a]);
    assert [a] + [] == [a];
  }

  /** Some run from a freshly started service, with any number of controllers, gets to s. */
  ghost predicate Reachable(s: State) {
    exists n: nat, addr: Addr, rate: int, acts: seq<Action> ::
      Legal(Start(n, addr, rate), acts) && After(Start(n, addr, rate), acts) == s
  }

  lemma ExtendReachable(s: State, a: Action)
    requires Reachable(s) && Enabled(s, a)
    ensures Reachable(Next(s, a))
  {
    var n: nat, addr: Addr, rate: int, acts: seq<Action> :|
      Legal(Start(n, addr, rate), acts) && After(Start(n, addr, rate), acts) == s;
    AppendStep(Start(n, addr, rate), acts, a);
  }
}
