/** A migration can succeed (server/lm.go:67-200): from every start, with any number of pre-dumps. */
module Completes {
  import opened Basics
  import opened Migration
  import opened Overtake
  import R = Restore
  import S = Session
  import V = Service
  import I = Images

  /** The final dump works, is copied, and is answered. */
  lemma ReachesDumped(o: State, s: State) returns (t: State)
    requires Reaches(o, s) && s.m.r.pc.FinalRecv? && s.m.d.loop == S.D.Work(R.REQ_DUMP) && s.m.reqs == [] && s.m.resps == []
    ensures Reaches(o, t) && t.v == s.v && t.c == s.c && t.dst == s.dst && t.m.cfg == s.m.cfg
    ensures t.m.r == s.m.r && t.m.resps == [R.RESP_OK] && !t.m.hosts.live
  {
    var e := S.DStep(R.Yes, I.Copied);
    GoSession(o, s, e);
    var u := s.(m := S.Next(s.m, e));
    GoSession(o, u, e);
    t := u.(m := S.Next(u.m, e));
  }

  /** exec launches the restore and gets the resume signal. */
  lemma ReachesResumed(o: State, s: State) returns (t: State)
    requires Reaches(o, s) && s.m.r.pc.FinalRecv? && s.m.resps == [R.RESP_OK] && s.m.cfg.withFwd
    ensures Reaches(o, t) && t.v == s.v && t.c == s.c && t.dst == s.dst
    ensures t.m.r.pc.Retarget? && t.m.hosts == s.m.hosts
  {
    var e := S.RStep(R.Byte(R.RESP_OK), false);
    GoSession(o, s, e);
    var u := s.(m := S.Next(s.m, e));
    GoSession(o, u, S.RStep(R.Yes, false));
    var w := u.(m := S.Next(u.m, S.RStep(R.Yes, false)));
    GoSession(o, w, S.RStep(R.Yes, false));
    t := w.(m := S.Next(w.m, S.RStep(R.Yes, false)));
  }

  lemma ReachesRetargeted(o: State, s: State) returns (t: State)
    requires Reaches(o, s) && s.m.r.pc.Retarget? && Ctl(s, V.Holding(V.Free(true))) && s.v.flag && !s.v.crashed
    ensures Reaches(o, t) && t.v == s.v.(serverAddr := s.dst, dataRate := 0) && t.c == s.c && t.dst == s.dst
    ensures t.m.r.pc == R.Unwind(R.Completed) && t.m.r.defers == s.m.r.defers && t.m.hosts == s.m.hosts
  {
    Go(o, s, Retarget);
    t := ReachesRerated(o, Next(s, Retarget));
  }

  lemma ReachesRerated(o: State, s: State) returns (t: State)
    requires Reaches(o, s) && s.m.r.pc.Rerate? && Ctl(s, V.Holding(V.Free(true))) && s.v.flag && !s.v.crashed
    ensures Reaches(o, t) && t.v == s.v.(dataRate := 0) && t.c == s.c && t.dst == s.dst
    ensures t.m.r.pc == R.Unwind(R.Completed) && t.m.r.defers == s.m.r.defers && t.m.hosts == s.m.hosts
  {
    Go(o, s, Rerate);
    t := Next(s, Rerate);
  }

  lemma {:induction false} ReachesDone(o: State, s: State) returns (t: State)
    requires Reaches(o, s) && s.m.r.pc == R.Unwind(R.Completed) && !s.m.r.defers.Has(R.ResumeService)
    ensures Reaches(o, t) && t.m.r.pc == R.Done(R.Completed) && t.v == s.v && t.dst == s.dst && t.m.hosts == s.m.hosts
    decreases s.m.r.defers
  {
    GoSession(o, s, S.RStep(R.Yes, false));
    t := s.(m := S.Next(s.m, S.RStep(R.Yes, false)));
    if s.m.r.defers.Cons? { t := ReachesDone(o, t); }
  }

  /** The deferred calls: Resume, and then the others. */
  lemma ReachesEnd(o: State, s: State) returns (t: State)
    requires Reaches(o, s) && s.m.r.pc == R.Unwind(R.Completed) && s.m.r.defers == R.Registered(R.Retarget, true)
    requires s.c < |s.v.ctls| && s.v.ctls[s.c] == V.Holding(V.Free(true))
    requires s.v.flag && s.v.lock == V.Unlocked && s.v.lpc == V.Asleep(false) && !s.v.crashed
    ensures Reaches(o, t) && t.m.r.pc == R.Done(R.Completed) && t.m.hosts == s.m.hosts && t.dst == s.dst
    ensures t.v.serverAddr == s.v.serverAddr && t.v.dataRate == s.v.dataRate && !t.v.flag
  {
    ReachesAccepting(o, s);
    var u := s.(v := WithCtl(s.v, s.c, V.Idle).(flag := false, lpc := V.Accepting));
    Go(o, u, ResumeReturns);
    R.ConnectedOnly();
    t := ReachesDone(o, Next(u, ResumeReturns));
  }

  lemma ReachesCompleted(o: State, s: State) returns (t: State)
    requires Initial(o) && Reaches(o, s) && Dumping(s) && s.m.r.pc.FinalRecv?
    ensures Reaches(o, t) && Succeeded(t)
  {
    DumpFacts(s);
    var u := ReachesDumped(o, s);
    var w := ReachesResumed(o, u);
    Registers(w);
    var x := ReachesRetargeted(o, w);
    t := ReachesEnd(o, x);
  }

  /** The whole of what a migration is for. */
  predicate Succeeded(t: State) {
    t.m.r.pc == R.Done(R.Completed) && !t.m.hosts.live && t.v.serverAddr == t.dst && t.v.dataRate == 0 && !t.v.flag
  }

  lemma DumpFacts(s: State)
    requires Reachable(s) && s.m.r.pc.FinalRecv? && s.m.d.loop.Work?
    ensures s.m.reqs == [] && s.m.resps == [] && s.m.cfg.withFwd
  {
    ReachableInv(s);
  }

  lemma Registers(s: State)
    requires Reachable(s) && s.m.r.pc.Retarget?
    ensures s.m.r.defers == R.Registered(R.Retarget, true)
  {
    ReachableInv(s);
  }

  /**
   From the start of every migration, with any number of pre-dumps, some run ends with exec completed, the
   service forwarding to the restored pod at no limit and resumed, and the source stopped.
   */
  lemma MigrationCanComplete(s: State)
    requires Initial(s)
    ensures exists t: State :: Reaches(s, t) && Succeeded(t) && t.dst == s.dst
  {
    assert Legal(s, []) && After(s, []) == s;
    var s1 := ReachesReady(s, s);
    var s2 := ReachesLastRound(s, s1, 0);
    var s3 := ReachesSuspended(s, s2);
    var s4 := ReachesDumping(s, s3);
    var t := ReachesCompleted(s, s4);
    SameTarget(s, t);
  }

  lemma {:induction false} RunKeepsTarget(s: State, acts: seq<Action>)
    requires Legal(s, acts)
    ensures After(s, acts).dst == s.dst
    decreases |acts|
  {
    if acts != [] { RunKeepsTarget(Next(s, acts[0]), acts[1..]); }
  }

  lemma SameTarget(s: State, t: State)
    requires Reaches(s, t)
    ensures t.dst == s.dst
  {
    var acts: seq<Action> :| Legal(s, acts) && After(s, acts) == t;
    RunKeepsTarget(s, acts);
  }
}
