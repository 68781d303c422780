/**
 What the quiet stretch of module Migration does not cover (server/lm.go:149-163 against :364-386):
 the restore side gives up waiting for the answer to the final dump, its deferred Resume lets
 clients in again, and the dump of their server is still running.
 */
module Overtake {
  import opened Basics
  import opened Migration
  import F = Forwarder
  import V = Service
  import S = Session
  import R = Restore
  import I = Images
  import H = Handshake
  import A = Answer
  import T = Traffic

  ghost predicate Reaches(o: State, s: State) {
    exists acts: seq<Action> :: Legal(o, acts) && After(o, acts) == s
  }

  lemma {:induction false} AppendStep(s: State, acts: seq<Action>, a: Action)
    requires Legal(s, acts) && Enabled(After(s, acts), a)
    ensures Legal(s, acts + [a]) && After(s, acts + [a]) == Next(After(s, acts), a)
    decreases |acts|
  {
    if acts == [] {
      assert Legal(Next(s, a), []) && [a][1..] == [];
    } else {
      AppendStep(Next(s, acts[0]), acts[1..], a);
      assert (acts + [a])[1..] == acts[1..] + [a];
    }
  }

  lemma Go(o: State, s: State, a: Action)
    requires Reaches(o, s) && Enabled(s, a)
    ensures Reaches(o, Next(s, a))
  {
    var acts: seq<Action> :| Legal(o, acts) && After(o, acts) == s;
    AppendStep(o, acts, a);
  }

  lemma GoSession(o: State, s: State, e: S.Action)
    requires Reaches(o, s) && S.Enabled(s.m, e) && (e.RStep? ==> !AtServiceCall(s.m.r))
    ensures Reaches(o, s.(m := S.Next(s.m, e)))
  {
    Go(o, s, Sess(e));
  }

  predicate NoCalls(bs: seq<V.Action>) { forall i :: 0 <= i < |bs| ==> !IsCall(bs[i]) }

  /** A run of the service without calls of controllers is one of the migration. */
  lemma {:induction false} GoService(o: State, s: State, bs: seq<V.Action>)
    requires Reaches(o, s) && V.Legal(s.v, bs) && NoCalls(bs)
    ensures Reaches(o, s.(v := V.After(s.v, bs)))
    decreases |bs|
  {
    if bs != [] {
      Go(o, s, Svc(bs[0]));
      assert forall i :: 0 <= i < |bs[1..]| ==> bs[1..][i] == bs[i + 1];
      GoService(o, s.(v := V.Next(s.v, bs[0])), bs[1..]);
    }
  }

  lemma GoServiceStep(o: State, s: State, b: V.Action)
    requires Reaches(o, s) && V.Enabled(s.v, b) && !IsCall(b)
    ensures Reaches(o, s.(v := V.Next(s.v, b)))
  {
    Go(o, s, Svc(b));
  }

  // ---------------------------------------------------------------- up to the final dump

  /** i pre-dumps were done, all went well, and nothing is under way. */
  predicate Ready(s: State, i: nat) {
    && i <= S.K(s.m) && s.m.cfg.withFwd && s.m.r.pc == R.LoopTop(s.m.cfg, i)
    && s.m.d.loop.Read? && s.m.reqs == [] && s.m.resps == []
  }

  lemma ReachesReady(o: State, s: State) returns (t: State)
    requires Reaches(o, s) && Initial(s)
    ensures Reaches(o, t) && t.v == s.v && t.c == s.c && t.m.cfg == s.m.cfg && Ready(t, 0)
  {
    GoSession(o, s, S.RStep(R.Yes, false));
    var s1 := s.(m := S.Next(s.m, S.RStep(R.Yes, false)));
    GoSession(o, s1, S.DStep(R.Yes, I.Nothing));
    t := s1.(m := S.Next(s1.m, S.DStep(R.Yes, I.Nothing)));
  }

  /** The restore side writes the request that is next, and the dump side reads it. */
  lemma ReachesWork(o: State, s: State) returns (t: State)
    requires Reaches(o, s) && (s.m.r.pc.PreSend? || s.m.r.pc.FinalSend?)
    requires s.m.d.loop.Read? && s.m.reqs == [] && s.m.resps == []
    ensures Reaches(o, t) && t.v == s.v && t.c == s.c && t.m.cfg == s.m.cfg && t.m.r.defers == s.m.r.defers
    ensures t.m.r.pc == if s.m.r.pc.PreSend? then R.PreRecv(s.m.r.pc.i) else R.FinalRecv
    ensures t.m.d.loop.Work? && t.m.d.loop.req == S.Request(s.m.r.pc) && t.m.reqs == [] && t.m.resps == []
  {
    GoSession(o, s, S.RStep(R.Yes, false));
    var s1 := s.(m := S.Next(s.m, S.RStep(R.Yes, false)));
    var e := S.DStep(R.Byte(s1.m.reqs[0]), I.Nothing);
    GoSession(o, s1, e);
    t := s1.(m := S.Next(s1.m, e));
  }

  /** A pre-dump that works is answered with Ok. */
  lemma ReachesAnswer(o: State, s: State, i: nat) returns (t: State)
    requires Reaches(o, s) && s.m.r.pc == R.PreRecv(i) && i < S.K(s.m) && s.m.cfg.withFwd
    requires s.m.d.loop == S.D.Work(R.REQ_PRE_DUMP) && s.m.reqs == [] && s.m.resps == []
    ensures Reaches(o, t) && t.v == s.v && t.c == s.c && t.m.cfg == s.m.cfg && Ready(t, i + 1)
  {
    var e := S.DStep(R.Yes, I.Copied);
    GoSession(o, s, e);
    var s1 := s.(m := S.Next(s.m, e));
    GoSession(o, s1, e);
    t := ReachesOk(o, s1.(m := S.Next(s1.m, e)), i);
  }

  lemma ReachesOk(o: State, s: State, i: nat) returns (t: State)
    requires Reaches(o, s) && s.m.r.pc == R.PreRecv(i) && i < S.K(s.m) && s.m.cfg.withFwd
    requires s.m.d.loop.Read? && s.m.reqs == [] && s.m.resps == [R.RESP_OK]
    ensures Reaches(o, t) && t.v == s.v && t.c == s.c && t.m.cfg == s.m.cfg && Ready(t, i + 1)
  {
    var g := S.RStep(R.Byte(R.RESP_OK), false);
    GoSession(o, s, g);
    t := s.(m := S.Next(s.m, g));
  }

  lemma {:induction false} ReachesLastRound(o: State, s: State, i: nat) returns (t: State)
    requires Reaches(o, s) && Ready(s, i)
    ensures Reaches(o, t) && t.v == s.v && t.c == s.c && t.m.cfg == s.m.cfg && Ready(t, S.K(t.m))
    decreases S.K(s.m) - i
  {
    if i == S.K(s.m) { return s; }
    var s1 := ReachesWork(o, s);
    var s2 := ReachesAnswer(o, s1, i);
    t := ReachesLastRound(o, s2, i + 1);
  }

  // ---------------------------------------------------------------- the service calls of exec

  predicate Fresh(v: V.State) {
    v.lpc == V.Top && !v.flag && v.lock == V.Unlocked && v.tokens == 0 && !v.crashed && v.list == []
    && v.fwds == [] && v.listMux == None
  }

  function WithCtl(v: V.State, c: nat, p: V.Ctl): V.State
    requires c < |v.ctls|
  {
    v.(ctls := v.ctls[c := p])
  }

  lemma RunsRaised(v: V.State, c: nat)
    requires c < |v.ctls| && v.ctls[c].RaiseWant? && v.lock == V.Unlocked && !v.crashed && !v.lpc.Asleep?
    ensures var bs := [V.Acquire(c), V.SetFlag(c), V.Tell(c)];
      V.Legal(v, bs) && V.After(v, bs) == WithCtl(v, c, V.Waiting).(flag := true)
  {
    var v1 := V.Next(v, V.Acquire(c));
    var v2 := V.Next(v1, V.SetFlag(c));
    V.Prepend(v2, V.Tell(c), []);
    V.Prepend(v1, V.SetFlag(c), [V.Tell(c)]);
    V.Prepend(v, V.Acquire(c), [V.SetFlag(c), V.Tell(c)]);
    assert V.Next(v2, V.Tell(c)).ctls == v.ctls[c := V.Waiting];
  }

  lemma ReachesHeld(o: State, s: State)
    requires Reaches(o, s) && s.m.r.pc.Suspend? && s.c < |s.v.ctls| && s.v.ctls[s.c].Idle?
    requires s.v.lpc == V.Top && !s.v.flag && s.v.lock == V.Unlocked && s.v.tokens == 0 && !s.v.crashed
    ensures Reaches(o, s.(v := WithCtl(s.v, s.c, V.Holding(V.Free(false))).(flag := true, lpc := V.Asleep(false))))
  {
    Go(o, s, CallSuspend);
    var s1 := s.(v := WithCtl(s.v, s.c, V.RaiseWant));
    RunsRaised(s1.v, s.c);
    GoService(o, s1, [V.Acquire(s.c), V.SetFlag(s.c), V.Tell(s.c)]);
    var s2 := s.(v := WithCtl(s.v, s.c, V.Waiting).(flag := true));
    assert s1.v.ctls[s.c := V.Waiting] == s2.v.ctls;
    ReachesToken(o, s2);
    assert s2.v.ctls[s.c := V.Holding(V.Free(false))] == s.v.ctls[s.c := V.Holding(V.Free(false))];
  }

  lemma ReachesToken(o: State, s: State)
    requires Reaches(o, s) && s.c < |s.v.ctls| && s.v.ctls[s.c].Waiting?
    requires s.v.lpc == V.Top && s.v.flag && s.v.lock == V.Unlocked && s.v.tokens == 0 && !s.v.crashed
    ensures Reaches(o, s.(v := WithCtl(s.v, s.c, V.Holding(V.Free(false))).(lpc := V.Asleep(false))))
  {
    A.RunsPark(s.v);
    GoService(o, s, [V.LLock, V.LTest, V.LSend, V.LRetest]);
    GoServiceStep(o, s.(v := s.v.(tokens := 1, lpc := V.Asleep(false))), V.Receive(s.c));
  }

  lemma ReachesClosed(o: State, s: State)
    requires Reaches(o, s) && s.m.r.pc.CloseAll? && s.c < |s.v.ctls| && s.v.ctls[s.c] == V.Holding(V.Free(false))
    requires s.v.flag && s.v.list == [] && s.v.listMux == None && !s.v.crashed
    ensures Reaches(o, s.(v := WithCtl(s.v, s.c, V.Holding(V.Free(true)))))
  {
    var c := s.c;
    Go(o, s, CallCloseAll);
    var s1 := s.(v := WithCtl(s.v, c, V.Holding(V.WalkWant)));
    GoServiceStep(o, s1, V.WalkLock(c));
    var s2 := s.(v := WithCtl(s.v, c, V.Holding(V.Walking(0, []))).(listMux := Some(c)));
    assert s1.v.ctls[c := V.Holding(V.Walking(0, []))] == s2.v.ctls;
    ReachesWalked(o, s2);
    assert s2.v.ctls[c := V.Holding(V.Free(true))] == s.v.ctls[c := V.Holding(V.Free(true))];
  }

  lemma ReachesWalked(o: State, s: State)
    requires Reaches(o, s) && s.c < |s.v.ctls| && s.v.ctls[s.c] == V.Holding(V.Walking(0, []))
    requires s.v.list == [] && !s.v.crashed
    ensures Reaches(o, s.(v := WithCtl(s.v, s.c, V.Holding(V.Free(true))).(listMux := None)))
  {
    GoServiceStep(o, s, V.WalkEnd(s.c));
    var s1 := s.(v := WithCtl(s.v, s.c, V.Holding(V.Joining([]))).(listMux := None));
    GoServiceStep(o, s1, V.Joined(s.c));
    assert s1.v.ctls[s.c := V.Holding(V.Free(true))] == s.v.ctls[s.c := V.Holding(V.Free(true))];
  }

  lemma ReachesAccepting(o: State, s: State)
    requires Reaches(o, s) && AtResume(s.m.r) && s.c < |s.v.ctls| && s.v.ctls[s.c] == V.Holding(V.Free(true))
    requires s.v.flag && s.v.lock == V.Unlocked && s.v.lpc == V.Asleep(false) && !s.v.crashed
    ensures Reaches(o, s.(v := WithCtl(s.v, s.c, V.Idle).(flag := false, lpc := V.Accepting)))
  {
    Go(o, s, CallResume);
    var s1 := s.(v := WithCtl(s.v, s.c, V.LowerWant(true)));
    H.RunsLower(s1.v, s.c);
    GoService(o, s1, [V.Acquire(s.c), V.SetFlag(s.c), V.Tell(s.c)]);
    assert s1.v.ctls[s.c := V.Idle] == s.v.ctls[s.c := V.Idle];
    GoWake(o, s.(v := WithCtl(s.v, s.c, V.Idle).(flag := false, lpc := V.Asleep(true))));
  }

  lemma GoWake(o: State, s: State)
    requires Reaches(o, s) && s.v.lpc == V.Asleep(true) && !s.v.flag && s.v.lock == V.Unlocked && !s.v.crashed
    ensures Reaches(o, s.(v := s.v.(lpc := V.Accepting)))
  {
    A.RunsWake(s.v);
    GoService(o, s, [V.LWake, V.LRetest, V.LUnlock]);
  }

  // ---------------------------------------------------------------- a client comes in

  lemma ReachesClient(o: State, s: State)
    requires Reaches(o, s) && s.v.lpc == V.Accepting && s.v.fwds == [] && s.v.listMux == None && !s.v.crashed
    ensures Reaches(o, s.(v := s.v.(lpc := V.Top, list := s.v.list + [0],
                                    fwds := [F.New().(rate := s.v.dataRate, main := F.Spawned)])))
  {
    GoServiceStep(o, s, V.LAccept);
    var s1 := s.(v := s.v.(lpc := V.Rating(0), fwds := [F.New()]));
    GoServiceStep(o, s1, V.LRate);
    var s2 := s.(v := s.v.(lpc := V.Pushing(0), fwds := [F.New().(rate := s.v.dataRate)]));
    assert V.Next(s1.v, V.LRate).fwds == s2.v.fwds;
    ReachesStarted(o, s2);
  }

  lemma ReachesStarted(o: State, s: State)
    requires Reaches(o, s) && s.v.lpc == V.Pushing(0) && s.v.fwds == [F.New().(rate := s.v.dataRate)] && s.v.listMux == None
    requires !s.v.crashed
    ensures Reaches(o, s.(v := s.v.(lpc := V.Top, list := s.v.list + [0],
                                    fwds := [F.New().(rate := s.v.dataRate, main := F.Spawned)])))
  {
    GoServiceStep(o, s, V.LPush);
    var s3 := s.(v := s.v.(lpc := V.Spawning(0), list := s.v.list + [0], fwds := [F.New().(rate := s.v.dataRate, main := F.Listed)]));
    assert V.Next(s.v, V.LPush).fwds == s3.v.fwds;
    GoServiceStep(o, s3, V.LSpawn);
    assert V.Next(s3.v, V.LSpawn).fwds == [F.New().(rate := s.v.dataRate, main := F.Spawned)];
  }

  lemma GoForwarder(o: State, s: State, f: F.Fwd, a: F.Action)
    requires Reaches(o, s) && s.v.fwds == [f] && F.Enabled(f, a) && !s.v.crashed
    ensures Reaches(o, s.(v := s.v.(fwds := [F.Next(f, a)])))
  {
    GoServiceStep(o, s, V.Forward(0, a));
    assert V.Next(s.v, V.Forward(0, a)).fwds == [F.Next(f, a)];
  }

  /** Its forwarder dials the old server. */
  lemma ReachesDialled(o: State, s: State) returns (f: F.Fwd)
    requires Reaches(o, s) && s.v.fwds == [F.New().(rate := s.v.dataRate, main := F.Spawned)] && !s.v.crashed
    ensures f.up == F.FRESH_HALF.(pump := F.Poll) && f.emerg != F.Fired
    ensures Reaches(o, s.(v := s.v.(fwds := [f])))
  {
    GoServiceStep(o, s, V.Begin(0));
    var f1 := F.New().(rate := s.v.dataRate, main := F.Called, addr := Some(s.v.serverAddr));
    assert V.Next(s.v, V.Begin(0)).fwds == [f1];
    GoForwarder(o, s.(v := s.v.(fwds := [f1])), f1, F.Store);
    var f2 := F.Next(f1, F.Store);
    GoForwarder(o, s.(v := s.v.(fwds := [f2])), f2, F.Arm);
    var f3 := F.Next(f2, F.Arm);
    GoForwarder(o, s.(v := s.v.(fwds := [f3])), f3, F.DialOk);
    f := F.Next(f3, F.DialOk);
  }

  /** The client sends a byte, and the pump has read it. */
  lemma ReachesByte(o: State, s: State, f: F.Fwd) returns (g: F.Fwd)
    requires Reaches(o, s) && s.v.fwds == [f] && !s.v.crashed
    requires f.up == F.FRESH_HALF.(pump := F.Poll) && f.emerg != F.Fired
    ensures Reaches(o, s.(v := s.v.(fwds := [g])))
    ensures F.Enabled(g, F.UpWrite(1, false)) && F.Next(g, F.UpWrite(1, false)).up.out != g.up.out
  {
    GoForwarder(o, s, f, F.ClientSends([7]));
    var f1 := F.Next(f, F.ClientSends([7]));
    g := ReachesRead(o, s.(v := s.v.(fwds := [f1])), f1);
  }

  lemma ReachesRead(o: State, s: State, f: F.Fwd) returns (g: F.Fwd)
    requires Reaches(o, s) && s.v.fwds == [f] && !s.v.crashed
    requires f.up == F.FRESH_HALF.(pump := F.Poll, sent := [7]) && f.emerg != F.Fired
    ensures Reaches(o, s.(v := s.v.(fwds := [g])))
    ensures F.Enabled(g, F.UpWrite(1, false)) && F.Next(g, F.UpWrite(1, false)).up.out != g.up.out
  {
    GoForwarder(o, s, f, F.UpPoll);
    var f2 := F.Next(f, F.UpPoll);
    GoForwarder(o, s.(v := s.v.(fwds := [f2])), f2, F.UpRead(1, F.More));
    g := F.Next(f2, F.UpRead(1, F.More));
    assert f2.up.sent[0..1] == [7];
  }

  /** A step that writes a byte of a client. */
  predicate Writes(s: State, a: Action) {
    Enabled(s, a) && T.Written(Next(s, a).v) != T.Written(s.v)
  }

  lemma WriteIsTraffic(s: State, g: F.Fwd)
    requires s.v.fwds == [g] && !s.v.crashed && F.Enabled(g, F.UpWrite(1, false))
    requires F.Next(g, F.UpWrite(1, false)).up.out != g.up.out
    ensures Writes(s, Svc(V.Forward(0, F.UpWrite(1, false))))
  {
    var t := Next(s, Svc(V.Forward(0, F.UpWrite(1, false))));
    assert T.Written(t.v)[0].0 == t.v.fwds[0].up.out && T.Written(s.v)[0].0 == g.up.out;
  }

  // ---------------------------------------------------------------- the whole run

  /** The final dump is at work, and exec holds the service quiet for it. */
  predicate Dumping(s: State) {
    && s.c < |s.v.ctls| && s.v.ctls[s.c] == V.Holding(V.Free(true))
    && s.v.flag && s.v.lock == V.Unlocked && s.v.lpc == V.Asleep(false) && !s.v.crashed
    && s.v.fwds == [] && s.v.listMux == None
    && s.m.d.loop == S.D.Work(R.REQ_DUMP)
  }

  lemma ReachesSuspended(o: State, s: State) returns (t: State)
    requires Reaches(o, s) && Ready(s, S.K(s.m)) && s.c < |s.v.ctls| && s.v.ctls[s.c].Idle? && Fresh(s.v) && s.m.cfg.hasService
    ensures Reaches(o, t) && t.c == s.c && t.m.r.pc.CloseAll? && t.m.d == s.m.d && t.m.reqs == [] && t.m.resps == []
    ensures t.v == WithCtl(s.v, s.c, V.Holding(V.Free(false))).(flag := true, lpc := V.Asleep(false))
    ensures t.m.r.defers.Cons? && t.m.r.defers.head == R.ResumeService
  {
    ReachesHeld(o, s);
    var s1 := s.(v := WithCtl(s.v, s.c, V.Holding(V.Free(false))).(flag := true, lpc := V.Asleep(false)));
    Go(o, s1, SuspendReturns);
    t := s1.(m := S.Next(s1.m, TICK));
  }

  lemma ReachesDumping(o: State, s: State) returns (t: State)
    requires Reaches(o, s) && s.m.r.pc.CloseAll? && s.m.d.loop.Read? && s.m.reqs == [] && s.m.resps == []
    requires s.c < |s.v.ctls| && s.v.ctls[s.c] == V.Holding(V.Free(false)) && s.v.flag && s.v.lock == V.Unlocked
    requires s.v.lpc == V.Asleep(false) && !s.v.crashed && s.v.fwds == [] && s.v.list == [] && s.v.listMux == None
    ensures Reaches(o, t) && Dumping(t) && t.m.r.pc.FinalRecv? && t.m.r.defers == s.m.r.defers
  {
    ReachesClosed(o, s);
    var s1 := s.(v := WithCtl(s.v, s.c, V.Holding(V.Free(true))));
    Go(o, s1, CloseAllReturns);
    var s2 := s1.(m := S.Next(s1.m, TICK));
    t := ReachesWork(o, s2);
  }

  lemma ReachesTraffic(o: State, s: State) returns (t: State, a: Action)
    requires Reaches(o, s) && Dumping(s) && s.m.r.pc.FinalRecv? && s.m.r.defers.Cons? && s.m.r.defers.head == R.ResumeService
    ensures Reaches(o, t) && t.m.d == s.m.d && Writes(t, a)
  {
    GoSession(o, s, S.RStep(R.No, false));
    var s1 := s.(m := S.Next(s.m, S.RStep(R.No, false)));
    ReachesAccepting(o, s1);
    var s2 := s1.(v := WithCtl(s1.v, s1.c, V.Idle).(flag := false, lpc := V.Accepting));
    ReachesClient(o, s2);
    var s3 := s2.(v := s2.v.(lpc := V.Top, list := s2.v.list + [0], fwds := [F.New().(rate := s2.v.dataRate, main := F.Spawned)]));
    var f := ReachesDialled(o, s3);
    var s4 := s3.(v := s3.v.(fwds := [f]));
    var g := ReachesByte(o, s4, f);
    t, a := s4.(v := s4.v.(fwds := [g])), Svc(V.Forward(0, F.UpWrite(1, false)));
    WriteIsTraffic(t, g);
  }

  /**
   In every migration, whatever its number of pre-dumps, the restore side can give up at the wrong
   moment: a run leads to a state in which the final dump is at work and a client's byte is written
   to the server that is being dumped.
   */
  lemma TrafficDuringFinalDump(s: State)
    requires Initial(s)
    ensures exists t: State, a: Action :: Reaches(s, t) && t.m.d.loop == S.D.Work(R.REQ_DUMP) && Writes(t, a)
  {
    assert Legal(s, []) && After(s, []) == s;
    var s1 := ReachesReady(s, s);
    var s2 := ReachesLastRound(s, s1, 0);
    var s3 := ReachesSuspended(s, s2);
    var s4 := ReachesDumping(s, s3);
    var t, a := ReachesTraffic(s, s4);
  }
}
