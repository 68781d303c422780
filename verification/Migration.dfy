/**
 A live migration with forwarding (server/lm.go:63-200): one session of module Session whose restore
 side is controller `c` of a forwarding service of module Service, beside any other controllers
 and any connections. A service call of exec starts and returns in separate steps; in between the
 service and the dump side go on.
 */
module Migration {
  import opened Basics
  import V = Service
  import S = Session
  import R = Restore
  import H = Handshake
  import T = Traffic

  datatype State = State(v: V.State, m: S.State, c: nat, dst: Addr)

  datatype Action =
    | Svc(b: V.Action)        // the service, other controllers, the inside of exec's calls
    | Sess(e: S.Action)       // both sides of the session, outside exec's service calls
    | CallSuspend | SuspendReturns
    | CallCloseAll | CloseAllReturns
    | Retarget | Rerate
    | CallResume | ResumeReturns

  /** The calls into the service, which only exec itself makes for c. */
  predicate IsCall(a: V.Action) {
    a.Suspend? || a.Resume? || a.CloseAll? || a.ChangeAddr? || a.ChangeRate?
  }

  /** exec is about to run its deferred Resume. */
  predicate AtResume(r: R.R) { r.pc.Unwind? && r.defers.Cons? && r.defers.head == R.ResumeService }

  predicate AtServiceCall(r: R.R) {
    r.pc.Suspend? || r.pc.CloseAll? || r.pc.Retarget? || r.pc.Rerate? || AtResume(r)
  }

  predicate Ctl(s: State, p: V.Ctl) { V.IsCtl(s.v, s.c, p) }

  const TICK := S.RStep(R.Yes, false)

  predicate Enabled(s: State, a: Action) {
    match a
    case Svc(b) => V.Enabled(s.v, b) && (IsCall(b) ==> b.c != s.c)
    case Sess(e) => S.Enabled(s.m, e) && (e.RStep? ==> !AtServiceCall(s.m.r))
    case CallSuspend => s.m.r.pc.Suspend? && V.Enabled(s.v, V.Suspend(s.c))
    case SuspendReturns => s.m.r.pc.Suspend? && Ctl(s, V.Holding(V.Free(false)))
    case CallCloseAll => s.m.r.pc.CloseAll? && Ctl(s, V.Holding(V.Free(false))) && V.Enabled(s.v, V.CloseAll(s.c))
    case CloseAllReturns => s.m.r.pc.CloseAll? && Ctl(s, V.Holding(V.Free(true)))
    case Retarget => s.m.r.pc.Retarget? && V.Enabled(s.v, V.ChangeAddr(s.c, s.dst))
    case Rerate => s.m.r.pc.Rerate? && V.Enabled(s.v, V.ChangeRate(s.c, 0))
    case CallResume => AtResume(s.m.r) && V.Enabled(s.v, V.Resume(s.c))
    case ResumeReturns => AtResume(s.m.r) && Ctl(s, V.Idle)
  }

  function Next(s: State, a: Action): State
    requires Enabled(s, a)
  {
    match a
    case Svc(b) => s.(v := V.Next(s.v, b))
    case Sess(e) => s.(m := S.Next(s.m, e))
    case CallSuspend => s.(v := V.Next(s.v, V.Suspend(s.c)))
    case SuspendReturns => s.(m := S.Next(s.m, TICK))
    case CallCloseAll => s.(v := V.Next(s.v, V.CloseAll(s.c)))
    case CloseAllReturns => s.(m := S.Next(s.m, TICK))
    case Retarget => s.(v := V.Next(s.v, V.ChangeAddr(s.c, s.dst)), m := S.Next(s.m, TICK))
    case Rerate => s.(v := V.Next(s.v, V.ChangeRate(s.c, 0)), m := S.Next(s.m, TICK))
    case CallResume => s.(v := V.Next(s.v, V.Resume(s.c)))
    case ResumeReturns => s.(m := S.Next(s.m, TICK))
  }

  predicate Initial(s: State) {
    && s.v == V.Start(|s.v.ctls|, s.v.serverAddr, s.v.dataRate) && s.c < |s.v.ctls|
    && S.Initial(s.m) && s.m.cfg.withFwd && s.m.cfg.hasService
  }

  // ---------------------------------------------------------------- exec and its controller

  predicate Raising(p: V.Ctl) {
    p.Idle? || p.RaiseWant? || p.RaiseSet? || p.RaiseTell? || p.Waiting? || p == V.Holding(V.Free(false))
  }

  predicate Lowering(p: V.Ctl) {
    p == V.Holding(V.Free(true)) || p == V.LowerWant(true) || p == V.LowerSet(true) || p == V.LowerTell || p.Idle?
  }

  predicate Synced(s: State) {
    && s.c < |s.v.ctls|
    && s.m.cfg.withFwd && s.m.cfg.hasService
    && var p := s.v.ctls[s.c];
       match s.m.r.pc
       case Suspend => Raising(p)
       case CloseAll => p.Holding?
       case Unwind(out) =>
         if AtResume(s.m.r) then
           Lowering(p) && !s.m.r.defers.tail.Has(R.ResumeService)
           && (out == R.Completed && p.Holding? ==> s.v.serverAddr == s.dst && s.v.dataRate == 0)
         else p.Idle? && !s.m.r.defers.Has(R.ResumeService)
       case Done(_) => p.Idle?
       case _ =>
         if s.m.r.pc.FinalSend? || s.m.r.pc.FinalRecv? || R.AfterFinalOk(s.m.r.pc)
         then p == V.Holding(V.Free(true)) && (s.m.r.pc.Rerate? ==> s.v.serverAddr == s.dst)
         else p.Idle?
  }

  ghost predicate Inv(s: State) {
    T.Inv(s.v) && S.Inv(s.m) && Synced(s)
  }

  /** What the service does by itself leaves c within its call, and c's address alone. */
  lemma SvcKeepsCtl(v: V.State, b: V.Action, c: nat)
    requires H.Inv(v) && V.Enabled(v, b) && c < |v.ctls| && (IsCall(b) ==> b.c != c)
    ensures |V.Next(v, b).ctls| == |v.ctls| && WithinCall(v.ctls[c], V.Next(v, b).ctls[c])
  {
    if V.IsDoor(b) { DoorKeepsCtl(v, b, c); } else if V.IsHeld(b) { HeldKeepsCtl(v, b, c); }
  }

  predicate WithinCall(p: V.Ctl, q: V.Ctl) {
    && (p.Idle? ==> q.Idle?)
    && (Raising(p) ==> Raising(q))
    && (p.Holding? ==> q.Holding?)
    && (p == V.Holding(V.Free(true)) ==> q == p)
    && (Lowering(p) ==> Lowering(q) && (q.Holding? ==> p == q))
  }

  lemma DoorKeepsCtl(v: V.State, b: V.Action, c: nat)
    requires V.IsDoor(b) && V.DoorEnabled(v, b) && c < |v.ctls| && (IsCall(b) ==> b.c != c)
    ensures |V.DoorNext(v, b).ctls| == |v.ctls| && WithinCall(v.ctls[c], V.DoorNext(v, b).ctls[c])
  {
  }

  lemma HeldKeepsCtl(v: V.State, b: V.Action, c: nat)
    requires V.IsHeld(b) && V.HeldEnabled(v, b) && c < |v.ctls| && (IsCall(b) ==> b.c != c)
    ensures |V.HeldNext(v, b).ctls| == |v.ctls| && WithinCall(v.ctls[c], V.HeldNext(v, b).ctls[c])
  {
  }

  lemma SvcKeepsRoute(v: V.State, b: V.Action, c: nat)
    requires H.Inv(v) && V.Enabled(v, b) && c < |v.ctls| && (IsCall(b) ==> b.c != c) && H.Holds(v.ctls[c])
    ensures V.Next(v, b).serverAddr == v.serverAddr && V.Next(v, b).dataRate == v.dataRate
  {
  }

  lemma SvcKeeps(s: State, b: V.Action)
    requires Inv(s) && Enabled(s, Svc(b))
    ensures Inv(Next(s, Svc(b)))
  {
    T.NextKeeps(s.v, b);
    SvcKeepsCtl(s.v, b, s.c);
    if H.Holds(s.v.ctls[s.c]) { SvcKeepsRoute(s.v, b, s.c); }
  }

  /** Steps of exec that are not service calls keep its controller where it is. */
  lemma RStepKeepsSync(s: State, x: R.Input)
    requires Synced(s) && R.BalanceInv(s.m.cfg, s.m.r) && !AtServiceCall(s.m.r)
    ensures Synced(s.(m := s.m.(r := R.Next(s.m.cfg, s.m.r, x))))
  {
    R.ConnectedOnly();
    var r := s.m.r;
    if r.pc.Unwind? && r.defers.Cons? { assert !r.defers.tail.Has(R.ResumeService); }
  }

  lemma SessKeeps(s: State, e: S.Action)
    requires Inv(s) && Enabled(s, Sess(e))
    ensures Inv(Next(s, Sess(e)))
  {
    S.NextKeeps(s.m, e);
    SessKeepsSync(s, e);
  }

  lemma SessKeepsSync(s: State, e: S.Action)
    requires Synced(s) && R.BalanceInv(s.m.cfg, s.m.r) && Enabled(s, Sess(e))
    ensures Synced(Next(s, Sess(e)))
  {
    if e.RStep? { RStepKeepsSync(s, e.x); }
  }

  lemma CallKeeps(s: State, a: Action)
    requires Inv(s) && Enabled(s, a) && (a.CallSuspend? || a.CallCloseAll? || a.CallResume?)
    ensures Inv(Next(s, a))
  {
    T.NextKeeps(s.v, if a.CallSuspend? then V.Suspend(s.c) else if a.CallCloseAll? then V.CloseAll(s.c) else V.Resume(s.c));
  }

  lemma ReturnKeeps(s: State, a: Action)
    requires Inv(s) && Enabled(s, a) && (a.SuspendReturns? || a.CloseAllReturns? || a.ResumeReturns?)
    ensures Inv(Next(s, a))
  {
    S.NextKeeps(s.m, TICK);
  }

  lemma ChangeKeeps(s: State, a: Action)
    requires Inv(s) && Enabled(s, a) && (a.Retarget? || a.Rerate?)
    ensures Inv(Next(s, a))
  {
    S.NextKeeps(s.m, TICK);
    T.NextKeeps(s.v, if a.Retarget? then V.ChangeAddr(s.c, s.dst) else V.ChangeRate(s.c, 0));
    if a.Retarget? { RetargetKeepsSync(s); } else { RerateKeepsSync(s); }
  }

  lemma RetargetKeepsSync(s: State)
    requires Synced(s) && s.v.flag && Enabled(s, Retarget)
    ensures Synced(Next(s, Retarget))
  {
  }

  lemma RerateKeepsSync(s: State)
    requires Synced(s) && s.v.flag && s.m.r.defers == R.Registered(s.m.r.pc, true) && Enabled(s, Rerate)
    ensures Synced(Next(s, Rerate))
  {
    R.ConnectedOnly();
  }

  lemma NextKeeps(s: State, a: Action)
    requires Inv(s) && Enabled(s, a)
    ensures Inv(Next(s, a))
  {
    match a {
      case Svc(b) => SvcKeeps(s, b);
      case Sess(e) => SessKeeps(s, e);
      case Retarget => ChangeKeeps(s, a);
      case Rerate => ChangeKeeps(s, a);
      case SuspendReturns => ReturnKeeps(s, a);
      case CloseAllReturns => ReturnKeeps(s, a);
      case ResumeReturns => ReturnKeeps(s, a);
      case _ => CallKeeps(s, a);
    }
  }

  lemma InitialInv(s: State)
    requires Initial(s)
    ensures Inv(s)
  {
    T.StartInv(|s.v.ctls|, s.v.serverAddr, s.v.dataRate);
    S.InitialInv(s.m);
  }

  // ---------------------------------------------------------------- runs

  predicate Legal(s: State, acts: seq<Action>)
    decreases |acts|
  {
    acts != [] ==> Enabled(s, acts[0]) && Legal(Next(s, acts[0]), acts[1..])
  }

  function After(s: State, acts: seq<Action>): State
    requires Legal(s, acts)
    decreases |acts|
  {
    if acts == [] then s else After(Next(s, acts[0]), acts[1..])
  }

  ghost predicate Reachable(s: State) {
    exists s0: State, acts: seq<Action> :: Initial(s0) && Legal(s0, acts) && After(s0, acts) == s
  }

  lemma {:induction false} RunKeeps(s: State, acts: seq<Action>)
    requires Inv(s) && Legal(s, acts)
    ensures Inv(After(s, acts))
    decreases |acts|
  {
    if acts != [] {
      NextKeeps(s, acts[0]);
      RunKeeps(Next(s, acts[0]), acts[1..]);
    }
  }

  lemma ReachableInv(s: State)
    requires Reachable(s)
    ensures Inv(s)
  {
    var s0: State, acts: seq<Action> :| Initial(s0) && Legal(s0, acts) && After(s0, acts) == s;
    InitialInv(s0);
    RunKeeps(s0, acts);
  }

  // ---------------------------------------------------------------- main results

  /** exec is between the return of CloseAllForwarders and its return. */
  predicate Closed(r: R.R) {
    r.pc.FinalSend? || r.pc.FinalRecv? || r.pc.Launch? || r.pc.Await? || r.pc.Retarget? || r.pc.Rerate?
  }

  /** There, or after an exit of any kind in its deferred Resume with the flag not lowered yet. */
  predicate Quiet(s: State) {
    Closed(s.m.r) || (AtResume(s.m.r) && T.Quieted(s.v, s.c))
  }

  lemma QuietIsQuieted(s: State)
    requires Synced(s) && Quiet(s)
    ensures T.Quieted(s.v, s.c)
  {
  }

  lemma OnlyServiceMovesForwarders(s: State, a: Action)
    requires Enabled(s, a) && !a.Svc?
    ensures Next(s, a).v.fwds == s.v.fwds
  {
  }

  lemma QuietStep(s: State, a: Action)
    requires Inv(s) && Quiet(s) && Enabled(s, a)
    ensures T.Written(Next(s, a).v) == T.Written(s.v)
  {
    QuietIsQuieted(s);
    if a.Svc? { T.QuietedIsFrozen(s.v, s.c, a.b); } else { OnlyServiceMovesForwarders(s, a); }
  }

  predicate StaysQuiet(s: State, acts: seq<Action>)
    requires Legal(s, acts)
    decreases |acts|
  {
    Quiet(s) && (acts != [] ==> StaysQuiet(Next(s, acts[0]), acts[1..]))
  }

  lemma {:induction false} QuietRun(s: State, acts: seq<Action>)
    requires Inv(s) && Legal(s, acts) && StaysQuiet(s, acts)
    ensures T.Silent(After(s, acts).v) && T.Written(After(s, acts).v) == T.Written(s.v)
    decreases |acts|
  {
    if acts == [] {
      QuietIsQuieted(s);
      T.QuietedIsSilent(s.v, s.c);
    } else {
      QuietStep(s, acts[0]);
      NextKeeps(s, acts[0]);
      QuietRun(Next(s, acts[0]), acts[1..]);
    }
  }

  /**
   Migration quiescence, across all layers: from the moment exec is about to ask for the final dump
   until its deferred Resume lowers the flag, on success or failure, whatever the service, its other
   controllers, the peers and the dump side do, every forwarder ever created is over and no byte is
   written to the old server or to a client.
   */
  lemma NoTrafficDuringFinalDump(s: State, acts: seq<Action>)
    requires Reachable(s) && Legal(s, acts) && StaysQuiet(s, acts)
    ensures T.Silent(After(s, acts).v) && T.Written(After(s, acts).v) == T.Written(s.v)
  {
    ReachableInv(s);
    QuietRun(s, acts);
  }

  lemma ServiceKeepsQuiet(s: State, b: V.Action)
    requires Inv(s) && Quiet(s) && Enabled(s, Svc(b)) && b != V.SetFlag(s.c)
    ensures Quiet(Next(s, Svc(b)))
  {
    SvcKeeps(s, b);
    if !Closed(s.m.r) { StaysQuieted(s.v, b, s.c); }
  }

  lemma StaysQuieted(v: V.State, b: V.Action, c: nat)
    requires H.Inv(v) && V.Enabled(v, b) && T.Quieted(v, c) && (IsCall(b) ==> b.c != c) && b != V.SetFlag(c)
    ensures T.Quieted(V.Next(v, b), c)
  {
  }

  /** That stretch ends in one way only: the deferred Resume lowers the flag. */
  lemma QuietEndsWithResume(s: State, a: Action)
    requires Reachable(s) && Quiet(s) && Enabled(s, a) && !Quiet(Next(s, a))
    ensures a == Svc(V.SetFlag(s.c)) && AtResume(s.m.r)
  {
    ReachableInv(s);
    QuietIsQuieted(s);
    if a.Svc? { if a.b != V.SetFlag(s.c) { ServiceKeepsQuiet(s, a.b); } }
    else if a.Sess? { SessKeepsQuiet(s, a.e); }
    else { CallsKeepQuiet(s, a); }
  }

  lemma CallsKeepQuiet(s: State, a: Action)
    requires Synced(s) && T.Quieted(s.v, s.c) && s.v.flag && R.BalanceInv(s.m.cfg, s.m.r)
    requires Quiet(s) && Enabled(s, a) && !a.Svc? && !a.Sess?
    ensures Quiet(Next(s, a))
  {
    if a.Rerate? { R.ConnectedOnly(); }
  }

  lemma SessKeepsQuiet(s: State, e: S.Action)
    requires Inv(s) && Quiet(s) && Enabled(s, Sess(e))
    ensures Quiet(Next(s, Sess(e)))
  {
  }

  /** While the final dump runs and exec has not given up, exec is in that stretch. */
  lemma FinalDumpIsQuiet(s: State)
    requires Reachable(s) && s.m.d.loop.Work? && s.m.d.loop.req == R.REQ_DUMP
    ensures s.m.r.pc.FinalRecv? || s.m.r.pc.Unwind? || s.m.r.pc.Done?
    ensures s.m.r.pc.FinalRecv? ==> T.Silent(s.v) && Ctl(s, V.Holding(V.Free(true)))
  {
    ReachableInv(s);
    if s.m.r.pc.FinalRecv? {
      QuietIsQuieted(s);
      T.QuietedIsSilent(s.v, s.c);
    }
  }

  /**
   While the final dump runs, exactly when the service is still kept quiet for it: as long as exec
   has not given up, run its deferred Resume and lowered the flag.
   */
  lemma DumpQuietIffNotResumed(s: State)
    requires Reachable(s) && s.m.d.loop.Work? && s.m.d.loop.req == R.REQ_DUMP
    ensures T.Quieted(s.v, s.c) <==> !(Ctl(s, V.Idle) || Ctl(s, V.LowerTell))
  {
    ReachableInv(s);
  }

  /**
   When a completed exec comes to its deferred Resume, the service forwards to the restored pod
   at no rate limit, every old forwarder is over, and the source is stopped.
   */
  lemma CompletedRetargets(s: State)
    requires Reachable(s) && s.m.r.pc == R.Unwind(R.Completed) && AtResume(s.m.r)
    requires Ctl(s, V.Holding(V.Free(true)))
    ensures s.v.serverAddr == s.dst && s.v.dataRate == 0 && T.Silent(s.v) && !s.m.hosts.live
  {
    ReachableInv(s);
    T.QuietedIsSilent(s.v, s.c);
  }

  /** exec itself changes the address and the rate at those two points only; no guard ever fires. */
  lemma RouteChangesOnlyByRetarget(s: State, a: Action)
    requires Reachable(s) && Enabled(s, a) && !a.Svc? && !a.Retarget? && !a.Rerate?
    ensures Next(s, a).v.serverAddr == s.v.serverAddr && Next(s, a).v.dataRate == s.v.dataRate
    ensures !Next(s, a).v.crashed
  {
    ReachableInv(s);
    NextKeeps(s, a);
    RouteStays(s, a);
  }

  lemma RouteStays(s: State, a: Action)
    requires Enabled(s, a) && !a.Svc? && !a.Retarget? && !a.Rerate?
    ensures Next(s, a).v.serverAddr == s.v.serverAddr && Next(s, a).v.dataRate == s.v.dataRate
  {
  }

  /** And at those two points the final dump was answered with Ok. */
  lemma RetargetMeansAnswered(s: State, a: Action)
    requires Reachable(s) && Enabled(s, a) && (a.Retarget? || a.Rerate?)
    ensures s.m.r.log.Has(R.FinalAnswer(true)) && !s.m.hosts.live
    ensures !Next(s, a).v.crashed
  {
    ReachableInv(s);
    NextKeeps(s, a);
  }
}
