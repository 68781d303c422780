/**
 When no pod has two restore sessions (server/api-core.go:244-294): the deletes of pods that make a
 migration goroutine restore into a pod it did not create, and what they can lead to.
 */
module Restores {
  import opened Basics
  import opened ApiCore
  import opened Incarnations
  import O = Ownership

  // ---------------------------------------------------------------- stale goroutines

  /** m has created its pod and has not started its restore. */
  predicate Pending(s: State, m: nat) { MigAt(s, m, MReady) || MigAt(s, m, MExec) }

  /** A pod is deleted while goroutine m has it for its restore. */
  predicate Hits(s: State, a: Action, m: nat) {
    && a.DeletePod? && a.ok && a.r < |s.reqs| && m < |s.migs| && s.migs[m].name == s.reqs[a.r].name
  }

  lemma ReqBecomesStale(s: State, a: Action, m: nat)
    requires Inv(s) && Enabled(s, a) && !IsMig(a) && Pending(s, m)
    ensures m < |ReqNext(s, a).migs| && ReqNext(s, a).migs[m] == s.migs[m]
    ensures Stale(ReqNext(s, a), m) <==> Stale(s, m) || Hits(s, a, m)
  {
    if !a.CreatePod? && !a.DeletePod? && !a.Proceed? { OneReqMoves(s, a); }
    else if a.CreatePod? { CreateKeepsStale(s, a.r, a.ok, m); }
  }

  lemma CreateKeepsStale(s: State, r: nat, ok: bool, m: nat)
    requires CreatorInv(s) && MigInv(s) && Enabled(s, CreatePod(r, ok)) && Pending(s, m)
    ensures ReqNext(s, CreatePod(r, ok)).migs == s.migs
    ensures Stale(ReqNext(s, CreatePod(r, ok)), m) <==> Stale(s, m)
  {
  }

  lemma MigBecomesStale(s: State, a: Action, m: nat)
    requires Inv(s) && Enabled(s, a) && IsMig(a) && Pending(s, m)
    ensures m < |MigNext(s, a).migs| && MigNext(s, a).migs[m].name == s.migs[m].name
    ensures Stale(MigNext(s, a), m) <==> Stale(s, m)
  {
  }

  /** A goroutine becomes stale exactly by such a delete, and never recovers. */
  lemma BecomesStale(s: State, a: Action, m: nat)
    requires Inv(s) && Enabled(s, a) && Pending(s, m)
    ensures m < |Next(s, a).migs| && Next(s, a).migs[m].name == s.migs[m].name
    ensures Stale(Next(s, a), m) <==> Stale(s, m) || Hits(s, a, m)
  {
    if IsMig(a) { MigBecomesStale(s, a, m); } else { ReqBecomesStale(s, a, m); }
  }

  lemma StaysPast(s: State, a: Action, m: nat)
    requires Enabled(s, a) && m < |s.migs| && !Pending(s, m) && s.migs[m].pc in {MRunning, MEnd}
    ensures m < |Next(s, a).migs| && !Pending(Next(s, a), m) && Next(s, a).migs[m].pc in {MRunning, MEnd}
  {
  }

  lemma LeavesPending(s: State, a: Action, m: nat)
    requires Enabled(s, a) && Pending(s, m) && !Pending(Next(s, a), m)
    ensures m < |Next(s, a).migs| && Next(s, a).migs[m].pc in {MRunning, MEnd}
  {
  }

  lemma {:induction false} PastForever(s: State, acts: seq<Action>, m: nat)
    requires Legal(s, acts) && m < |s.migs| && s.migs[m].pc in {MRunning, MEnd}
    ensures !Pending(After(s, acts), m)
    decreases |acts|
  {
    if acts != [] {
      StaysPast(s, acts[0], m);
      PastForever(Next(s, acts[0]), acts[1..], m);
    }
  }

  /** On the way a pod of m's name was deleted. */
  predicate WasHit(s: State, acts: seq<Action>, m: nat)
    requires Legal(s, acts)
    decreases |acts|
  {
    acts != [] && (Hits(s, acts[0], m) || WasHit(Next(s, acts[0]), acts[1..], m))
  }

  lemma {:induction false} StaleFrom(s: State, acts: seq<Action>, m: nat)
    requires Inv(s) && Legal(s, acts) && Pending(s, m) && Pending(After(s, acts), m)
    ensures Stale(After(s, acts), m) <==> Stale(s, m) || WasHit(s, acts, m)
    decreases |acts|
  {
    if acts != [] {
      var t := Next(s, acts[0]);
      NextKeeps(s, acts[0]);
      BecomesStale(s, acts[0], m);
      if !Pending(t, m) {
        LeavesPending(s, acts[0], m);
        PastForever(t, acts[1..], m);
      }
      StaleFrom(t, acts[1..], m);
    }
  }

  /**
   Over every run from the creation of its pod to its restore: the goroutine finds another pod than
   its own, or none, if and only if in between a pod of its name was deleted.
   */
  lemma StaleIffDeleted(s: State, acts: seq<Action>, m: nat)
    requires Reachable(s) && Legal(s, acts) && Pending(s, m) && !Stale(s, m) && Pending(After(s, acts), m)
    ensures Stale(After(s, acts), m) <==> WasHit(s, acts, m)
  {
    ReachableInv(s);
    StaleFrom(s, acts, m);
  }

  /** Only goroutines of DeployFwdLM can be hit: DeployLM has the lock that a delete needs. */
  lemma OnlyUnlockedAreHit(s: State, a: Action, m: nat, q: nat)
    requires Reachable(s) && Enabled(s, a) && Hits(s, a, m) && q < |s.reqs|
    ensures s.reqs[q].pc != Join(m)
  {
    ReachableInv(s);
  }

  // ---------------------------------------------------------------- runs without such deletes

  /** The delete could be checked for: a goroutine of that name is between creation and restore. */
  predicate Disturbs(s: State, a: Action) {
    exists m :: 0 <= m < |s.migs| && Hits(s, a, m) && Pending(s, m)
  }

  predicate Undisturbed(s: State, acts: seq<Action>)
    requires Legal(s, acts)
    decreases |acts|
  {
    acts != [] ==> !Disturbs(s, acts[0]) && Undisturbed(Next(s, acts[0]), acts[1..])
  }

  predicate AllFresh(s: State) { forall m :: 0 <= m < |s.migs| && Pending(s, m) ==> !Stale(s, m) }

  lemma NewlyPendingIsFresh(s: State, a: Action, m: nat)
    requires Inv(s) && Enabled(s, a) && Pending(Next(s, a), m) && !Pending(s, m)
    ensures !Stale(Next(s, a), m)
  {
    if a.Proceed? { assert m == |s.migs|; }
  }

  lemma NextKeepsFresh(s: State, a: Action)
    requires Inv(s) && AllFresh(s) && Enabled(s, a) && !Disturbs(s, a)
    ensures AllFresh(Next(s, a))
  {
    forall m | 0 <= m < |Next(s, a).migs| && Pending(Next(s, a), m) ensures !Stale(Next(s, a), m) {
      if Pending(s, m) { BecomesStale(s, a, m); } else { NewlyPendingIsFresh(s, a, m); }
    }
  }

  lemma NextKeepsFaithful(s: State, a: Action)
    requires AllFresh(s) && Faithful(s) && Enabled(s, a)
    ensures Faithful(Next(s, a))
  {
    if a.MigExec? { assert !Stale(s, a.m); }
  }

  lemma {:induction false} RunKeepsFaithful(s: State, acts: seq<Action>)
    requires Inv(s) && AllFresh(s) && Faithful(s) && Legal(s, acts) && Undisturbed(s, acts)
    ensures Faithful(After(s, acts))
    decreases |acts|
  {
    if acts != [] {
      NextKeeps(s, acts[0]);
      NextKeepsFresh(s, acts[0]);
      NextKeepsFaithful(s, acts[0]);
      RunKeepsFaithful(Next(s, acts[0]), acts[1..]);
    }
  }

  /**
   In every run of any requests in which no pod is deleted between its creation by a goroutine of
   its name and that goroutine's restore, each session runs into the pod created for it, and no pod
   has two.
   */
  lemma UndisturbedMeansOneRestore(s: State, acts: seq<Action>)
    requires Initial(s) && Legal(s, acts) && Undisturbed(s, acts)
    ensures Faithful(After(s, acts)) && OneRestore(After(s, acts))
  {
    O.InitialSvcInv(s);
    RunKeepsFaithful(s, acts);
    assert Reaches(s, After(s, acts));
    FaithfulMeansOneRestore(After(s, acts));
  }

  // ---------------------------------------------------------------- a second restore into one pod

  predicate Arrives(s: State, r: nat, k: Kind, n: Name) {
    r < |s.reqs| && s.reqs[r] == Req(k, n, Arrive, None, None) && EntryOf(s.entries, n).lock.None?
  }

  function Served(s: State, r: nat): State
    requires r < |s.reqs|
  {
    SetEntry(Goto(s, r, Gone), s.reqs[r].name, EntryOf(s.entries, s.reqs[r].name).(lock := None))
  }

  function Inside(s: State, r: nat, pc: ReqPc): State
    requires r < |s.reqs|
  {
    SetEntry(Goto(s, r, pc), s.reqs[r].name, EntryOf(s.entries, s.reqs[r].name).(lock := Some(r)))
  }

  lemma RunsLock(o: State, s: State, r: nat, k: Kind, n: Name)
    requires Reaches(o, s) && Arrives(s, r, k, n)
    ensures Reaches(o, Inside(s, r, AfterLock(k)))
  {
    Extend(o, s, Load(r));
    var s1 := Next(s, Load(r));
    Extend(o, s1, Lock(r));
    assert Next(s1, Lock(r)) == Inside(s, r, AfterLock(k));
  }

  lemma RunsRelease(o: State, s: State, t: State, r: nat)
    requires r < |s.reqs| && t == Inside(s, r, Unlock).(migs := t.migs, pods := t.pods) && Reaches(o, t)
    ensures Reaches(o, Served(s, r).(migs := t.migs, pods := t.pods))
  {
    Extend(o, t, Release(r));
    assert Next(t, Release(r)) == Served(s, r).(migs := t.migs, pods := t.pods);
  }

  /** A DeployFwdLM whose service does not start, up to the readiness wait of its goroutine. */
  lemma RunsDeploy(o: State, s: State, r: nat, n: Name)
    requires Reaches(o, s) && Arrives(s, r, FwdLM, n) && n !in s.pods
    ensures Reaches(o, Served(s, r).(migs := s.migs + [Mig(n, MReady, Some(s.nextInc))],
                                     pods := s.pods[n := s.nextInc], nextInc := s.nextInc + 1))
  {
    RunsLock(o, s, r, FwdLM, n);
    var s2 := Inside(s, r, Check);
    Extend(o, s2, StartSvc(r, false));
    var s3 := Next(s2, StartSvc(r, false));
    assert s3 == Inside(s, r, AfterSvc);
    Extend(o, s3, Proceed(r));
    var s4 := Next(s3, Proceed(r));
    assert s4 == Inside(s, r, Unlock).(migs := s.migs + [Mig(n, MClient, None)]);
    RunsRelease(o, s, s4, r);
    RunsCreation(o, Served(s, r), n);
  }

  lemma RunsCreation(o: State, s: State, n: Name)
    requires Reaches(o, s.(migs := s.migs + [Mig(n, MClient, None)])) && n !in s.pods
    ensures Reaches(o, s.(migs := s.migs + [Mig(n, MReady, Some(s.nextInc))],
                          pods := s.pods[n := s.nextInc], nextInc := s.nextInc + 1))
  {
    var m := |s.migs|;
    var s5 := s.(migs := s.migs + [Mig(n, MClient, None)]);
    Extend(o, s5, MigClient(m, true));
    var s6 := Next(s5, MigClient(m, true));
    Extend(o, s6, MigCreate(m, true));
    assert Next(s6, MigCreate(m, true)).migs == s.migs + [Mig(n, MReady, Some(s.nextInc))];
  }

  /** A Remove of a name without a service. */
  lemma RunsNoClose(o: State, s: State, r: nat)
    requires r < |s.reqs| && s.reqs[r].kind.Remove? && Reaches(o, Inside(s, r, Client))
    requires EntryOf(s.entries, s.reqs[r].name).svc.None?
    ensures Reaches(o, Inside(s, r, DelPod))
  {
    var s2 := Inside(s, r, Client);
    Extend(o, s2, GetClient(r, true));
    var s3 := Next(s2, GetClient(r, true));
    assert s3 == Inside(s, r, CloseSvc);
    Extend(o, s3, DoClose(r));
    assert Next(s3, DoClose(r)) == Inside(s, r, DelPod);
  }

  lemma RunsRemove(o: State, s: State, r: nat, n: Name)
    requires Reaches(o, s) && Arrives(s, r, Remove, n) && EntryOf(s.entries, n).svc.None?
    ensures Reaches(o, Served(s, r).(pods := s.pods - {n}))
  {
    RunsLock(o, s, r, Remove, n);
    RunsNoClose(o, s, r);
    var s4 := Inside(s, r, DelPod);
    Extend(o, s4, DeletePod(r, true));
    var s5 := Next(s4, DeletePod(r, true));
    assert s5 == Inside(s, r, Unlock).(pods := s.pods - {n});
    RunsRelease(o, s, s5, r);
  }

  lemma RunsRestore(o: State, s: State, m: nat)
    requires Reaches(o, s) && MigAt(s, m, MReady) && s.migs[m].name in s.pods && s.busy.None?
    ensures Reaches(o, MigGoto(s, m, MEnd).(sessions := s.sessions + [Session(m, s.migs[m].created, Some(s.pods[s.migs[m].name]))]))
  {
    Extend(o, s, MigReady(m, true));
    var s1 := Next(s, MigReady(m, true));
    Extend(o, s1, MigExec(m));
    var s2 := Next(s1, MigExec(m));
    Extend(o, s2, MigEnd(m));
    assert Next(s2, MigEnd(m)).migs == MigGoto(s, m, MEnd).migs;
  }

  /** A deploy, a remove and another deploy with forwarding; both goroutines are about to restore. */
  lemma TwoGoroutines(n: Name) returns (s: State, s3: State)
    ensures Initial(s) && Reaches(s, s3) && s3.sessions == [] && s3.busy == None
    ensures s3.migs == [Mig(n, MReady, Some(0)), Mig(n, MReady, Some(1))] && s3.pods == map[n := 1]
  {
    s := Starting([Req(FwdLM, n, Arrive, None, None), Req(Remove, n, Arrive, None, None), Req(FwdLM, n, Arrive, None, None)]);
    ReachesItself(s);
    RunsDeploy(s, s, 0, n);
    var s1 := Served(s, 0).(migs := [Mig(n, MReady, Some(0))], pods := map[n := 0], nextInc := 1);
    RunsRemove(s, s1, 1, n);
    var s2 := Served(s1, 1).(pods := map[]);
    assert s1.pods - {n} == map[];
    RunsDeploy(s, s2, 2, n);
    s3 := Served(s2, 2).(migs := [Mig(n, MReady, Some(0)), Mig(n, MReady, Some(1))], pods := map[n := 1], nextInc := 2);
    assert s2.migs + [Mig(n, MReady, Some(1))] == s3.migs;
  }

  /**
   It does happen: on any name, a deploy, a remove and another deploy with forwarding end with two
   restore sessions in the second pod, one of them by the goroutine that created the first.
   */
  lemma TwoRestoresInOnePod(n: Name)
    ensures exists t: State :: Reachable(t) && !OneRestore(t)
  {
    var s, s3 := TwoGoroutines(n);
    RunsRestore(s, s3, 1);
    var s4 := MigGoto(s3, 1, MEnd).(sessions := [Session(1, Some(1), Some(1))]);
    RunsRestore(s, s4, 0);
    var s5 := MigGoto(s4, 0, MEnd).(sessions := [Session(1, Some(1), Some(1)), Session(0, Some(0), Some(1))]);
    assert s4.sessions + [Session(0, Some(0), Some(1))] == s5.sessions;
    assert s5.sessions[0].target == s5.sessions[1].target;
    assert Reachable(s5);
  }

  // ---------------------------------------------------------------- how far the converse goes

  /** The host's resume signal port gets free. */
  lemma FreesHost(o: State, s: State, m: nat) returns (t: State)
    requires Reaches(o, s) && Inv(s) && Pending(s, m)
    ensures Reaches(o, t) && t.busy.None? && m < |t.migs| && t.migs[m] == s.migs[m] && |t.migs| == |s.migs|
    ensures t.(busy := None, migs := s.migs) == s.(busy := None)
  {
    if s.busy.None? { return s; }
    Extend(o, s, MigEnd(s.busy.value));
    t := Next(s, MigEnd(s.busy.value));
  }

  lemma RunsLastRestore(o: State, s: State, m: nat) returns (t: State)
    requires Reaches(o, s) && Pending(s, m) && s.migs[m].name in s.pods && s.busy.None?
    ensures Reaches(o, t) && |t.sessions| == |s.sessions| + 1 && t.sessions[..|s.sessions|] == s.sessions
    ensures t.sessions[|s.sessions|].target == Some(s.pods[s.migs[m].name])
  {
    var s1 := s;
    if s.migs[m].pc.MReady? {
      Extend(o, s, MigReady(m, true));
      s1 := Next(s, MigReady(m, true));
    }
    Extend(o, s1, MigExec(m));
    t := Next(s1, MigExec(m));
  }

  lemma RunsDeployBetween(o: State, s: State, r: nat, n: Name, m: nat) returns (t: State)
    requires Reaches(o, s) && Arrives(s, r, FwdLM, n) && n !in s.pods && s.busy.None?
    requires Pending(s, m) && s.migs[m].name == n
    ensures Reaches(o, t) && !OneRestore(t)
  {
    RunsDeploy(o, s, r, n);
    var k := |s.migs|;
    var s1 := Served(s, r).(migs := s.migs + [Mig(n, MReady, Some(s.nextInc))],
                            pods := s.pods[n := s.nextInc], nextInc := s.nextInc + 1);
    RunsRestore(o, s1, k);
    var s2 := MigGoto(s1, k, MEnd).(sessions := s1.sessions + [Session(k, Some(s.nextInc), Some(s.nextInc))]);
    assert s1.migs[k].created == Some(s.nextInc) && s2.migs[m] == s.migs[m];
    t := RunsLastRestore(o, s2, m);
    assert t.sessions[|s.sessions|] == s2.sessions[|s.sessions|];
    assert t.sessions[|s.sessions|].target == t.sessions[|s2.sessions|].target;
  }

  /**
   And every such delete, in any reachable state, can lead to two sessions in one pod: it takes no
   more than another DeployFwdLM request on the name.
   */
  lemma DisturbanceCanRestoreTwice(s: State, r: nat, m: nat, q: nat)
    requires Reachable(s) && Enabled(s, DeletePod(r, true)) && Hits(s, DeletePod(r, true), m) && Pending(s, m)
    requires q < |s.reqs| && s.reqs[q] == Req(FwdLM, s.reqs[r].name, Arrive, None, None)
    ensures exists t: State :: Reaches(Next(s, DeletePod(r, true)), t) && !OneRestore(t)
  {
    ReachableInv(s);
    var o, n := Next(s, DeletePod(r, true)), s.reqs[r].name;
    NextKeeps(s, DeletePod(r, true));
    var s1 := RunsLeave(o, r);
    assert q != r && Arrives(s1, q, FwdLM, n);
    var s2 := FreesHost(o, s1, m);
    var t := RunsDeployBetween(o, s2, q, n, m);
  }

  lemma RunsLeave(s: State, r: nat) returns (t: State)
    requires ReqAt(s, r, Unlock) && Inv(s)
    ensures Reaches(s, t) && t.migs == s.migs && t.pods == s.pods
    ensures t.reqs == s.reqs[r := s.reqs[r].(pc := Gone)] && EntryOf(t.entries, s.reqs[r].name).lock.None?
    ensures Inv(t)
  {
    ReachesItself(s);
    Extend(s, s, Release(r));
    NextKeeps(s, Release(r));
    t := Next(s, Release(r));
  }

  /**
   The second session need not be the stale one: with the goroutines of TwoRestoresInOnePod in the
   other order it is the one whose pod it is.
   */
  lemma FreshCanBeSecond(n: Name)
    ensures exists t: State :: Reachable(t) && OneRestore(t) && Enabled(t, MigExec(1)) && t.busy.None? && !Stale(t, 1)
                               && !OneRestore(Next(t, MigExec(1)))
  {
    var s, s3 := TwoGoroutines(n);
    RunsRestore(s, s3, 0);
    var s4 := MigGoto(s3, 0, MEnd).(sessions := s3.sessions + [Session(0, Some(0), Some(1))]);
    assert s4.sessions == [Session(0, Some(0), Some(1))];
    Extend(s, s4, MigReady(1, true));
    var t := Next(s4, MigReady(1, true));
    assert Reachable(t);
    var u := Next(t, MigExec(1));
    assert u.sessions[0].target == u.sessions[1].target;
  }
}
