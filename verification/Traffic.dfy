/**
 What the handshake is for (server/fwdsvc.go:95-166): while a controller that closed all forwarders
 holds the service, no forwarder moves a byte and none can appear, and forwarders never run to an
 outdated address or at an outdated rate.
 */
module Traffic {
  import opened Basics
  import opened Service
  import F = Forwarder
  import C = Cascade
  import H = Handshake

  /** Every forwarder the service ever created has finished. */
  predicate Silent(s: State) {
    forall f :: 0 <= f < |s.fwds| ==> s.fwds[f].chanClosed
  }

  predicate InList(m: F.MainPc) { m !in {F.Made, F.Removed} }

  /** The list holds each forwarder between its insertion and its removal, once. */
  predicate ListInv(s: State) {
    && (forall i :: 0 <= i < |s.list| ==> s.list[i] < |s.fwds|)
    && (forall i, j :: 0 <= i < j < |s.list| ==> s.list[i] != s.list[j])
    && (forall f :: 0 <= f < |s.fwds| ==> (f in s.list <==> InList(s.fwds[f].main)))
  }

  predicate BirthInv(s: State) {
    && (s.lpc.Rating? || s.lpc.Pushing? ==> s.lpc.f < |s.fwds| && s.fwds[s.lpc.f].main == F.Made)
    && (s.lpc.Spawning? ==> s.lpc.f < |s.fwds| && s.fwds[s.lpc.f].main == F.Listed)
    && (forall f :: 0 <= f < |s.fwds| && s.fwds[f].main == F.Made ==> s.lpc == Rating(f) || s.lpc == Pushing(f))
    && (forall f :: 0 <= f < |s.fwds| && s.fwds[f].main == F.Listed ==> s.lpc == Spawning(f))
  }

  ghost predicate FwdsInv(s: State) {
    forall f :: 0 <= f < |s.fwds| ==> F.Inv(s.fwds[f])
  }

  predicate ValidCalls(s: State, calls: seq<CallRef>) {
    forall j :: 0 <= j < |calls| ==> calls[j].f < |s.fwds| && calls[j].k < |s.fwds[calls[j].f].callers|
  }

  predicate Called(calls: seq<CallRef>, f: nat) { exists j :: 0 <= j < |calls| && calls[j].f == f }

  predicate WalkInv(s: State, h: Held) {
    match h
    case Free(closed) => closed ==> Silent(s)
    case WalkWant => true
    case Walking(at, calls) =>
      at <= |s.list| && ValidCalls(s, calls) && forall i :: 0 <= i < at ==> Called(calls, s.list[i])
    case Joining(calls) =>
      ValidCalls(s, calls)
      && forall f :: 0 <= f < |s.fwds| && !s.fwds[f].chanClosed ==> Called(calls, f)
  }

  predicate CtlInv(s: State, p: Ctl) {
    match p
    case Holding(h) => WalkInv(s, h)
    case LowerWant(closed) => closed ==> Silent(s)
    case LowerSet(closed) => closed ==> Silent(s)
    case _ => true
  }

  predicate CloseInv(s: State) {
    && (forall c :: 0 <= c < |s.ctls| ==> CtlInv(s, s.ctls[c]))
    && (forall c :: 0 <= c < |s.ctls| ==>
          (s.listMux == Some(c) <==> s.ctls[c].Holding? && s.ctls[c].h.Walking?))
    && (s.listMux.Some? ==> s.listMux.value < |s.ctls|)
  }

  predicate RouteInv(s: State) {
    && (forall f :: 0 <= f < |s.fwds| && !s.fwds[f].chanClosed && s.fwds[f].addr.Some? ==>
          s.fwds[f].addr.value == s.serverAddr)
    && (forall f :: 0 <= f < |s.fwds| && !s.fwds[f].chanClosed && s.lpc != Rating(f) ==>
          s.fwds[f].rate == s.dataRate)
  }

  ghost predicate Inv(s: State) {
    H.Inv(s) && ListInv(s) && BirthInv(s) && FwdsInv(s) && CloseInv(s) && RouteInv(s)
  }

  // ---------------------------------------------------------------- list lemmas

  lemma {:induction false} WithoutContains(list: seq<nat>, f: nat)
    requires forall i, j :: 0 <= i < j < |list| ==> list[i] != list[j]
    ensures forall x :: x in Without(list, f) <==> x in list && x != f
    ensures forall i, j :: 0 <= i < j < |Without(list, f)| ==> Without(list, f)[i] != Without(list, f)[j]
  {
    if list != [] {
      assert forall x :: x in list <==> x == list[0] || x in list[1..];
      assert list[0] !in list[1..];
      if list[0] != f {
        WithoutContains(list[1..], f);
        assert list[0] !in Without(list[1..], f);
      }
    }
  }

  // ---------------------------------------------------------------- forwarders' own steps

  lemma FwdKeepsList(s: State, a: Action)
    requires ListInv(s) && IsFwd(a) && FwdEnabled(s, a)
    ensures ListInv(FwdNext(s, a))
  {
    match a
    case Remove(i) =>
      WithoutContains(s.list, i);
      forall j | 0 <= j < |Without(s.list, i)| ensures Without(s.list, i)[j] < |s.fwds| {
        assert Without(s.list, i)[j] in s.list;
      }
    case Forward(i, b) => C.NextKeepsMain(s.fwds[i], b);
    case _ =>
  }

  lemma FwdKeepsBirth(s: State, a: Action)
    requires BirthInv(s) && IsFwd(a) && FwdEnabled(s, a)
    ensures BirthInv(FwdNext(s, a))
  {
    if a.Forward? { C.NextKeepsMain(s.fwds[a.i], a.a); }
  }

  lemma BeginKeepsInv(f: F.Fwd, addr: Addr)
    requires F.Inv(f) && f.main == F.Spawned
    ensures F.Inv(f.(main := F.Called, addr := Some(addr)))
  {
    var g := f.(main := F.Called, addr := Some(addr));
    assert forall me :: F.At(g, me) == F.At(f, me);
  }

  lemma RelabelKeepsInv(f: F.Fwd, m: F.MainPc, rate: int)
    requires F.Inv(f)
    requires (f.main == F.Made && m == F.Made) || (rate == f.rate &&
             ((f.main == F.Made && m == F.Listed) || (f.main == F.Listed && m == F.Spawned)
             || (f.main == F.Finished && m == F.Removed)))
    ensures F.Inv(f.(main := m, rate := rate))
  {
    var g := f.(main := m, rate := rate);
    assert forall me :: F.At(g, me) == F.At(f, me);
  }

  lemma CallKeepsInv(f: F.Fwd)
    requires F.Inv(f)
    ensures F.Inv(F.Call(f))
  {
    var g := F.Call(f);
    assert forall k :: 0 <= k < |f.callers| ==> g.callers[k] == f.callers[k];
    assert f.mux.Caller? ==> F.At(f, f.mux) != F.Want;
    assert forall me :: F.At(g, me) == F.At(f, me);
  }

  lemma NewInv()
    ensures F.Inv(F.New())
  {
    assert forall me :: F.At(F.New(), me) == F.Want;
  }

  lemma FwdKeepsFwds(s: State, a: Action)
    requires FwdsInv(s) && IsFwd(a) && FwdEnabled(s, a)
    ensures FwdsInv(FwdNext(s, a))
  {
    match a
    case Begin(i) => BeginKeepsInv(s.fwds[i], s.serverAddr);
    case Forward(i, b) => F.NextKeepsInv(s.fwds[i], b);
    case Remove(i) => RelabelKeepsInv(s.fwds[i], F.Removed, s.fwds[i].rate);
    case CloseService =>
  }

  /** No step of a forwarder reopens one or forgets a caller. */
  lemma FwdKeepsFacts(s: State, a: Action)
    requires FwdsInv(s) && IsFwd(a) && FwdEnabled(s, a)
    ensures var t := FwdNext(s, a);
      && |t.fwds| == |s.fwds| && t.ctls == s.ctls && t.listMux == s.listMux && t.lpc == s.lpc
      && t.serverAddr == s.serverAddr && t.dataRate == s.dataRate
      && (t.list == s.list || s.listMux.None?)
      && (forall f :: 0 <= f < |s.fwds| ==>
            && (s.fwds[f].chanClosed ==> t.fwds[f].chanClosed)
            && |t.fwds[f].callers| == |s.fwds[f].callers|
            && t.fwds[f].rate == s.fwds[f].rate
            && (t.fwds[f].addr == s.fwds[f].addr || t.fwds[f].addr == Some(s.serverAddr)))
  {
    if a.Forward? {
      C.NextKeepsLabels(s.fwds[a.i], a.a);
      C.NextKeepsCallers(s.fwds[a.i], a.a);
    }
  }

  lemma FactsKeepClose(s: State, t: State)
    requires CloseInv(s) && |t.fwds| == |s.fwds| && t.ctls == s.ctls && t.listMux == s.listMux
    requires t.list == s.list || s.listMux.None?
    requires forall f :: 0 <= f < |s.fwds| ==>
      (s.fwds[f].chanClosed ==> t.fwds[f].chanClosed) && |t.fwds[f].callers| == |s.fwds[f].callers|
    ensures CloseInv(t)
  {
    forall c | 0 <= c < |s.ctls| ensures CtlInv(t, s.ctls[c]) {
      assert CtlInv(s, s.ctls[c]);
    }
  }

  lemma FwdKeeps(s: State, a: Action)
    requires Inv(s) && IsFwd(a) && FwdEnabled(s, a)
    ensures ListInv(FwdNext(s, a)) && BirthInv(FwdNext(s, a)) && FwdsInv(FwdNext(s, a))
    ensures CloseInv(FwdNext(s, a)) && RouteInv(FwdNext(s, a))
  {
    FwdKeepsList(s, a);
    FwdKeepsBirth(s, a);
    FwdKeepsFwds(s, a);
    FwdKeepsFacts(s, a);
    FactsKeepClose(s, FwdNext(s, a));
  }

  // ---------------------------------------------------------------- the listener's steps

  /** While the listener runs nobody holds the service. */
  lemma ListenerAlone(s: State, c: nat)
    requires H.Inv(s) && !H.Parked(s.lpc) && c < |s.ctls|
    ensures !H.Holds(s.ctls[c])
  {
  }

  lemma ListenerKeepsList(s: State, a: Action)
    requires ListInv(s) && BirthInv(s) && IsListener(a) && ListenerEnabled(s, a)
    ensures ListInv(ListenerNext(s, a)) && BirthInv(ListenerNext(s, a))
  {
    if a.LPush? { PushKeepsList(s); }
  }

  lemma PushKeepsList(s: State)
    requires ListInv(s) && BirthInv(s) && ListenerEnabled(s, LPush)
    ensures ListInv(ListenerNext(s, LPush)) && BirthInv(ListenerNext(s, LPush))
  {
    assert s.lpc.f !in s.list;
  }

  lemma ListenerKeepsFwds(s: State, a: Action)
    requires FwdsInv(s) && BirthInv(s) && IsListener(a) && ListenerEnabled(s, a)
    ensures FwdsInv(ListenerNext(s, a))
  {
    match a
    case LAccept => NewInv();
    case LRate => RelabelKeepsInv(s.fwds[s.lpc.f], F.Made, s.dataRate);
    case LPush => RelabelKeepsInv(s.fwds[s.lpc.f], F.Listed, s.fwds[s.lpc.f].rate);
    case LSpawn => RelabelKeepsInv(s.fwds[s.lpc.f], F.Spawned, s.fwds[s.lpc.f].rate);
    case _ =>
  }

  lemma ListenerKeepsClose(s: State, a: Action)
    requires H.Inv(s) && CloseInv(s) && IsListener(a) && ListenerEnabled(s, a)
    ensures CloseInv(ListenerNext(s, a))
  {
    var t := ListenerNext(s, a);
    forall c | 0 <= c < |s.ctls| ensures CtlInv(t, s.ctls[c]) {
      assert CtlInv(s, s.ctls[c]);
      if !H.Parked(s.lpc) { ListenerAlone(s, c); }
    }
  }

  lemma ListenerKeepsRoute(s: State, a: Action)
    requires RouteInv(s) && BirthInv(s) && IsListener(a) && ListenerEnabled(s, a)
    ensures RouteInv(ListenerNext(s, a))
  {
  }

  // ---------------------------------------------------------------- controllers' steps

  lemma DoorKeepsClose(s: State, a: Action)
    requires CloseInv(s) && IsDoor(a) && DoorEnabled(s, a)
    ensures CloseInv(DoorNext(s, a))
  {
    var t := DoorNext(s, a);
    DoorMovesOne(s, a);
    forall c | 0 <= c < |s.ctls| ensures CtlInv(t, t.ctls[c]) {
      assert CtlInv(s, s.ctls[c]);
    }
  }

  lemma DoorMovesOne(s: State, a: Action)
    requires IsDoor(a) && DoorEnabled(s, a)
    ensures var t := DoorNext(s, a); var p, q := s.ctls[a.c], t.ctls[a.c];
      && t.ctls == s.ctls[a.c := q] && t.fwds == s.fwds && t.list == s.list && t.listMux == s.listMux
      && !(p.Holding? && p.h.Walking?)
      && (CtlInv(s, p) ==> CtlInv(t, q)) && !(q.Holding? && q.h.Walking?)
  {
  }

  lemma DoorKeepsRest(s: State, a: Action)
    requires ListInv(s) && BirthInv(s) && RouteInv(s) && IsDoor(a) && DoorEnabled(s, a)
    ensures ListInv(DoorNext(s, a)) && BirthInv(DoorNext(s, a)) && RouteInv(DoorNext(s, a))
    ensures DoorNext(s, a).fwds == s.fwds
  {
  }

  lemma WalkStepKeepsClose(s: State, c: nat)
    requires H.Inv(s) && CloseInv(s) && HeldEnabled(s, WalkStep(c))
    ensures CloseInv(SpawnClose(s, c))
  {
    var t := SpawnClose(s, c);
    var h := s.ctls[c].h;
    forall d | 0 <= d < |s.ctls| ensures CtlInv(t, t.ctls[d]) {
      assert CtlInv(s, s.ctls[d]);
      if d == c {
        var calls := t.ctls[c].h.calls;
        assert calls[|h.calls|].f == s.list[h.at];
        forall i | 0 <= i < h.at + 1 ensures Called(calls, s.list[i]) {
          if i < h.at {
            var j :| 0 <= j < |h.calls| && h.calls[j].f == s.list[i];
            assert calls[j].f == s.list[i];
          }
        }
      }
    }
  }

  lemma JoinedSilences(s: State, c: nat)
    requires FwdsInv(s) && CloseInv(s) && HeldEnabled(s, Joined(c))
    ensures Silent(s)
  {
    var calls := s.ctls[c].h.calls;
    assert CtlInv(s, s.ctls[c]);
    forall f | 0 <= f < |s.fwds| ensures s.fwds[f].chanClosed {
      if Called(calls, f) {
        var j :| 0 <= j < |calls| && calls[j].f == f;
        assert F.CallersInv(s.fwds[f]);
      }
    }
  }

  lemma WalkEndCovers(s: State, c: nat, f: nat)
    requires H.Inv(s) && ListInv(s) && BirthInv(s) && FwdsInv(s) && CloseInv(s) && HeldEnabled(s, WalkEnd(c))
    requires f < |s.fwds| && !s.fwds[f].chanClosed
    ensures Called(s.ctls[c].h.calls, f)
  {
    assert CtlInv(s, s.ctls[c]) && H.Parked(s.lpc);
    assert F.Inv(s.fwds[f]);
    assert f in s.list;
  }

  lemma HeldKeepsClose(s: State, a: Action)
    requires H.Inv(s) && ListInv(s) && BirthInv(s) && FwdsInv(s) && CloseInv(s) && IsHeld(a) && HeldEnabled(s, a)
    ensures CloseInv(HeldNext(s, a))
  {
    var t := HeldNext(s, a);
    if a.WalkStep? { WalkStepKeepsClose(s, a.c); return; }
    forall c | 0 <= c < |s.ctls| ensures CtlInv(t, t.ctls[c]) {
      assert CtlInv(s, s.ctls[c]);
      if a.Joined? { JoinedSilences(s, a.c); }
      if a == WalkEnd(c) {
        forall f | 0 <= f < |s.fwds| && !s.fwds[f].chanClosed ensures Called(s.ctls[c].h.calls, f) {
          WalkEndCovers(s, c, f);
        }
      }
    }
  }

  lemma WalkStepKeepsRest(s: State, c: nat)
    requires ListInv(s) && BirthInv(s) && FwdsInv(s) && RouteInv(s) && HeldEnabled(s, WalkStep(c))
    ensures ListInv(SpawnClose(s, c)) && BirthInv(SpawnClose(s, c)) && FwdsInv(SpawnClose(s, c))
    ensures RouteInv(SpawnClose(s, c))
  {
    CallKeepsInv(s.fwds[s.list[s.ctls[c].h.at]]);
  }

  /** The address and the rate change only when every forwarder has finished. */
  lemma HeldKeepsRest(s: State, a: Action)
    requires ListInv(s) && BirthInv(s) && RouteInv(s) && CloseInv(s)
    requires IsHeld(a) && HeldEnabled(s, a) && !a.WalkStep?
    ensures ListInv(HeldNext(s, a)) && BirthInv(HeldNext(s, a)) && RouteInv(HeldNext(s, a))
    ensures HeldNext(s, a).fwds == s.fwds
  {
    assert CtlInv(s, s.ctls[a.c]);
  }

  lemma NextKeeps(s: State, a: Action)
    requires Inv(s) && Enabled(s, a)
    ensures Inv(Next(s, a))
  {
    H.NextKeeps(s, a);
    if IsListener(a) {
      ListenerKeepsList(s, a);
      ListenerKeepsFwds(s, a);
      ListenerKeepsClose(s, a);
      ListenerKeepsRoute(s, a);
    } else if IsDoor(a) {
      DoorKeepsClose(s, a);
      DoorKeepsRest(s, a);
    } else if IsFwd(a) {
      FwdKeeps(s, a);
    } else {
      HeldKeepsClose(s, a);
      if a.WalkStep? { WalkStepKeepsRest(s, a.c); } else { HeldKeepsRest(s, a); }
    }
  }

  lemma StartInv(n: nat, addr: Addr, rate: int)
    ensures Inv(Start(n, addr, rate))
  {
  }

  lemma {:induction false} RunKeeps(s: State, acts: seq<Action>)
    requires Inv(s) && Legal(s, acts)
    ensures Inv(After(s, acts))
    decreases |acts|
  {
    if acts != [] {
      NextKeeps(s, acts[0]);
      RunKeeps(Next(s, acts[0]), acts[1..]);
    }
  }

  lemma ReachableInv(s: State)
    requires Reachable(s)
    ensures Inv(s)
  {
    var n: nat, addr: Addr, rate: int, acts: seq<Action> :|
      Legal(Start(n, addr, rate), acts) && After(Start(n, addr, rate), acts) == s;
    StartInv(n, addr, rate);
    RunKeeps(Start(n, addr, rate), acts);
  }

  // ---------------------------------------------------------------- main results

  /** The handshake is a lock in every run of the service, with any number of controllers. */
  lemma LockedOverRuns(s: State)
    requires Reachable(s)
    ensures s.tokens + |H.Holders(s)| <= 1
    ensures s.tokens + |H.Holders(s)| == 1 ==> s.flag && H.Parked(s.lpc)
    ensures s.lpc == Sending ==> Enabled(s, LSend)
    ensures !s.crashed
  {
    ReachableInv(s);
    H.ActsAsLock(s);
  }

  /** All that reached a pump is delivered, in the buffer, or the tail of a failed write. */
  predicate Conserved(h: F.Half) {
    && h.got <= |h.sent| && h.out <= h.sent[..h.got]
    && (!h.pump.Write? ==> h.out + h.lost == h.sent[..h.got])
    && (!h.pump.Write? && F.Reported(h.pump) != Some(F.WriteError) ==> h.out == h.sent[..h.got])
    && (!h.pump.Write? && F.Reported(h.pump) == Some(F.Eof) ==> h.out == h.sent)
  }

  /**
   Every forwarder in every run of the service, with any mix of Close callers: bytes are conserved
   in both directions, the emergency channel is closed at most once, and when chanClosed is closed
   or any Close has returned, the pumps have ended and the connections are closed.
   */
  lemma ForwarderPromises(s: State, f: nat)
    requires Reachable(s) && f < |s.fwds|
    ensures Conserved(s.fwds[f].up) && Conserved(s.fwds[f].down)
    ensures s.fwds[f].fires <= 1
    ensures forall a :: F.Enabled(s.fwds[f], a) ==> s.fwds[f].fires <= F.Next(s.fwds[f], a).fires <= 1
    ensures s.fwds[f].chanClosed || (exists k :: 0 <= k < |s.fwds[f].callers| && s.fwds[f].callers[k].Returned?) ==>
      C.Closed(s.fwds[f])
  {
    ReachableInv(s);
    var g := s.fwds[f];
    assert F.Inv(g);
    C.StreamConserved(g.up);
    C.StreamConserved(g.down);
    forall a | F.Enabled(g, a) ensures g.fires <= F.Next(g, a).fires <= 1 { C.EmergencyFiresOnce(g, a); }
  }

  /** The controller c has closed all forwarders and has not lowered the flag since. */
  predicate Quieted(s: State, c: nat) {
    c < |s.ctls| && (s.ctls[c] == Holding(Free(true)) || s.ctls[c] == LowerWant(true) || s.ctls[c] == LowerSet(true))
  }

  /** The bytes each forwarder wrote to its server and to its client. */
  function Written(s: State): seq<(seq<byte>, seq<byte>)> {
    seq(|s.fwds|, i requires 0 <= i < |s.fwds| => (s.fwds[i].up.out, s.fwds[i].down.out))
  }

  lemma SilentFreezesFwd(s: State, a: Action)
    requires FwdsInv(s) && Silent(s) && IsFwd(a) && FwdEnabled(s, a)
    ensures Written(FwdNext(s, a)) == Written(s)
  {
    if a.Forward? {
      assert F.Inv(s.fwds[a.i]);
      C.ClosedIsFinal(s.fwds[a.i], a.a);
    }
  }

  lemma ParkedFreezesOthers(s: State, a: Action)
    requires Enabled(s, a) && !IsFwd(a) && H.Parked(s.lpc)
    ensures Written(Next(s, a)) == Written(s)
  {
  }

  lemma SilentMeansClosed(s: State, f: nat)
    requires FwdsInv(s) && Silent(s) && f < |s.fwds|
    ensures s.fwds[f].up.closed && (s.fwds[f].up.pump.Done? ==> s.fwds[f].down.closed)
    ensures s.fwds[f].up.pump.Idle? || (s.fwds[f].up.pump.Done? && s.fwds[f].down.pump.Done?)
  {
    assert F.Inv(s.fwds[f]);
  }

  lemma QuietedIsSilent(s: State, c: nat)
    requires Inv(s) && Quieted(s, c)
    ensures Silent(s) && H.Parked(s.lpc)
  {
    assert CtlInv(s, s.ctls[c]) && H.Holds(s.ctls[c]);
  }

  lemma QuietedIsFrozen(s: State, c: nat, a: Action)
    requires Inv(s) && Quieted(s, c) && Enabled(s, a)
    ensures Written(Next(s, a)) == Written(s)
  {
    QuietedIsSilent(s, c);
    if IsFwd(a) { SilentFreezesFwd(s, a); } else { ParkedFreezesOthers(s, a); }
  }

  /**
   Quiescence, over whole runs. From the return of CloseAllForwarders until Resume lowers the flag
   every forwarder ever created has both pumps ended and its connections closed, and no step of
   anybody writes a byte or creates a forwarder.
   */
  lemma Quiescence(s: State, c: nat, a: Action)
    requires Reachable(s) && Quieted(s, c) && Enabled(s, a)
    ensures Silent(s)
    ensures forall f :: 0 <= f < |s.fwds| ==> s.fwds[f].up.closed && (s.fwds[f].up.pump.Done? ==> s.fwds[f].down.closed)
    ensures Written(Next(s, a)) == Written(s)
  {
    ReachableInv(s);
    QuietedIsSilent(s, c);
    forall f | 0 <= f < |s.fwds|
      ensures s.fwds[f].up.closed && (s.fwds[f].up.pump.Done? ==> s.fwds[f].down.closed)
    {
      SilentMeansClosed(s, f);
    }
    QuietedIsFrozen(s, c, a);
  }

  /**
   Routing, over whole runs: with any number of migrations and connections, an unfinished
   forwarder that has taken an address runs to the service's current one, and from the moment it
   is listed it has the current rate.
   */
  lemma RoutingCoherent(s: State, f: nat)
    requires Reachable(s) && f < |s.fwds| && !s.fwds[f].chanClosed
    ensures s.fwds[f].addr.Some? ==> s.fwds[f].addr.value == s.serverAddr
    ensures f in s.list ==> s.fwds[f].rate == s.dataRate
  {
    ReachableInv(s);
  }

  /** The list holds no forwarder twice, and every unfinished one but that being created. */
  lemma ListHoldsUnfinished(s: State, f: nat)
    requires Reachable(s) && f < |s.fwds|
    ensures forall i, j :: 0 <= i < j < |s.list| ==> s.list[i] != s.list[j]
    ensures !s.fwds[f].chanClosed ==> f in s.list || s.lpc == Rating(f) || s.lpc == Pushing(f)
  {
    ReachableInv(s);
    assert F.Inv(s.fwds[f]);
  }

  lemma OthersKeepList(s: State, a: Action)
    requires Enabled(s, a) && !a.Remove? && !a.LPush?
    ensures Next(s, a).list == s.list
  {
  }

  /** An element leaves the list only by its own removal, after its Accept returned. */
  lemma ListChanges(s: State, f: nat, a: Action)
    requires Reachable(s) && f < |s.fwds| && Enabled(s, a)
    ensures f in s.list && f !in Next(s, a).list ==> a == Remove(f) && s.fwds[f].chanClosed
    ensures f !in s.list && f in Next(s, a).list ==> a == LPush && s.fwds[f].main == F.Made
  {
    ReachableInv(s);
    if a.Remove? {
      WithoutContains(s.list, a.i);
      assert F.StageInv(s.fwds[a.i]);
    } else if !a.LPush? {
      OthersKeepList(s, a);
    }
  }

  /** The walk of CloseAllForwarders starts a Close for every forwarder that is not finished. */
  lemma WalkCoversUnfinished(s: State, c: nat, f: nat)
    requires Reachable(s) && Enabled(s, WalkEnd(c)) && f < |s.fwds| && !s.fwds[f].chanClosed
    ensures Called(s.ctls[c].h.calls, f)
  {
    ReachableInv(s);
    WalkEndCovers(s, c, f);
  }
}
