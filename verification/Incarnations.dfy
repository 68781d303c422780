/** Which pod incarnations a name's restore sessions run into (server/api-core.go). */
module Incarnations {
  import opened Basics
  import opened ApiCore
  import O = Ownership

  /** Each creation of a pod has one creator, and a creator starts at most one session. */
  predicate CreatorInv(s: State) {
    && (forall m :: 0 <= m < |s.migs| && s.migs[m].created.Some? ==> s.migs[m].created.value < s.nextInc)
    && (forall r :: 0 <= r < |s.reqs| && s.reqs[r].created.Some? ==> s.reqs[r].created.value < s.nextInc)
    && (forall m, k :: 0 <= m < k < |s.migs| && s.migs[m].created.Some? ==> s.migs[m].created != s.migs[k].created)
    && (forall r, q :: 0 <= r < q < |s.reqs| && s.reqs[r].created.Some? ==> s.reqs[r].created != s.reqs[q].created)
    && (forall r, m :: 0 <= r < |s.reqs| && 0 <= m < |s.migs| && s.reqs[r].created.Some? ==>
          s.reqs[r].created != s.migs[m].created)
  }

  predicate MigInv(s: State) {
    && (forall m :: 0 <= m < |s.migs| && s.migs[m].pc in {MReady, MExec, MRunning} ==> s.migs[m].created.Some?)
    && (forall m :: 0 <= m < |s.migs| && s.migs[m].pc in {MClient, MCreate} ==> s.migs[m].created.None?)
    && (forall m :: 0 <= m < |s.migs| && s.migs[m].pc.MRunning? ==> s.busy == Some(m))
    && (s.busy.Some? ==> MigAt(s, s.busy.value, MRunning))
    && (forall r :: 0 <= r < |s.reqs| && s.reqs[r].created.Some? ==> s.reqs[r].pc !in {Arrive, WantLock, Client, MakePod})
  }

  /** A session belongs to a goroutine that is past its start; no two to the same. */
  predicate SessionInv(s: State) {
    && (forall i :: 0 <= i < |s.sessions| ==>
          var g := s.sessions[i].mig;
          g < |s.migs| && s.migs[g].pc in {MRunning, MEnd} && s.migs[g].created == s.sessions[i].created
          && s.sessions[i].created.Some?)
    && (forall i, j :: 0 <= i < j < |s.sessions| ==> s.sessions[i].mig != s.sessions[j].mig)
  }

  lemma MigKeepsCreator(s: State, a: Action)
    requires CreatorInv(s) && IsMig(a) && Enabled(s, a)
    ensures CreatorInv(MigNext(s, a))
  {
    var t := MigNext(s, a);
    assert t.reqs == s.reqs && forall m :: 0 <= m < |s.migs| && m != a.m ==> t.migs[m] == s.migs[m];
  }

  lemma MigKeepsMig(s: State, a: Action)
    requires MigInv(s) && SessionInv(s) && IsMig(a) && Enabled(s, a)
    ensures MigInv(MigNext(s, a)) && SessionInv(MigNext(s, a))
  {
    MigKeepsSessions(s, a);
  }

  lemma MigKeepsSessions(s: State, a: Action)
    requires MigInv(s) && SessionInv(s) && IsMig(a) && Enabled(s, a)
    ensures SessionInv(MigNext(s, a))
  {
    var t := MigNext(s, a);
    assert forall i :: 0 <= i < |s.sessions| ==> t.sessions[i] == s.sessions[i];
  }

  lemma CreateKeepsCreator(s: State, r: nat, ok: bool)
    requires CreatorInv(s) && MigInv(s) && SessionInv(s) && Enabled(s, CreatePod(r, ok))
    ensures CreatorInv(ReqNext(s, CreatePod(r, ok)))
    ensures MigInv(ReqNext(s, CreatePod(r, ok))) && SessionInv(ReqNext(s, CreatePod(r, ok)))
  {
  }

  lemma ProceedKeepsCreator(s: State, r: nat)
    requires CreatorInv(s) && Enabled(s, Proceed(r))
    ensures CreatorInv(ReqNext(s, Proceed(r)))
  {
    var t := ReqNext(s, Proceed(r));
    assert forall m :: 0 <= m < |s.migs| ==> t.migs[m] == s.migs[m];
    assert forall q :: 0 <= q < |s.reqs| && q != r ==> t.reqs[q] == s.reqs[q];
  }

  lemma ProceedKeepsMig(s: State, r: nat)
    requires MigInv(s) && Enabled(s, Proceed(r))
    ensures MigInv(ReqNext(s, Proceed(r)))
  {
  }

  lemma ProceedKeepsSessions(s: State, r: nat)
    requires SessionInv(s) && Enabled(s, Proceed(r))
    ensures SessionInv(ReqNext(s, Proceed(r)))
  {
  }

  lemma ReqKeepsCreator(s: State, a: Action)
    requires CreatorInv(s) && MigInv(s) && SessionInv(s) && Enabled(s, a)
    requires !IsMig(a) && !a.CreatePod? && !a.Proceed?
    ensures CreatorInv(ReqNext(s, a)) && MigInv(ReqNext(s, a)) && SessionInv(ReqNext(s, a))
  {
    CreatedStays(s, a);
    CreatorSame(s, ReqNext(s, a));
    ReqKeepsMig(s, a);
  }

  lemma ReqKeepsMig(s: State, a: Action)
    requires MigInv(s) && SessionInv(s) && Enabled(s, a)
    requires !IsMig(a) && !a.CreatePod? && !a.Proceed?
    ensures MigInv(ReqNext(s, a)) && SessionInv(ReqNext(s, a))
  {
    CreatedStays(s, a);
  }

  lemma CreatorSame(s: State, t: State)
    requires CreatorInv(s) && t.migs == s.migs && t.nextInc == s.nextInc && |t.reqs| == |s.reqs|
    requires forall r :: 0 <= r < |s.reqs| ==> t.reqs[r].created == s.reqs[r].created
    ensures CreatorInv(t)
  {
  }

  lemma CreatedStays(s: State, a: Action)
    requires !IsMig(a) && !a.CreatePod? && !a.Proceed? && Enabled(s, a)
    ensures var t := ReqNext(s, a);
      && t.migs == s.migs && t.sessions == s.sessions && t.nextInc == s.nextInc && t.busy == s.busy
      && |t.reqs| == |s.reqs|
      && (forall r :: 0 <= r < |s.reqs| ==> t.reqs[r].created == s.reqs[r].created)
      && (forall r :: 0 <= r < |s.reqs| ==> t.reqs[r].pc == s.reqs[r].pc || r == a.r)
  {
  }

  /** DeployLM keeps the lock while it restores, so nobody deletes its pod in between. */
  predicate PinnedInv(s: State) {
    && (forall r :: 0 <= r < |s.reqs| && s.reqs[r].pc in {Check, Store, AfterSvc} && s.reqs[r].created.Some? ==>
          PodOf(s, s.reqs[r].name) == s.reqs[r].created)
    && (forall r :: 0 <= r < |s.reqs| && s.reqs[r].pc.Join? ==>
          var m := s.reqs[r].pc.m;
          m < |s.migs| && s.migs[m].name == s.reqs[r].name && s.migs[m].created.Some?
          && s.migs[m].pc !in {MClient, MCreate}
          && PodOf(s, s.reqs[r].name) == s.migs[m].created)
  }

  lemma MigKeepsPinned(s: State, a: Action)
    requires PinnedInv(s) && IsMig(a) && Enabled(s, a)
    ensures PinnedInv(MigNext(s, a))
  {
  }

  lemma DeleteKeepsPinned(s: State, r: nat, ok: bool)
    requires O.LockInv(s) && PinnedInv(s) && Enabled(s, DeletePod(r, ok))
    ensures PinnedInv(ReqNext(s, DeletePod(r, ok)))
  {
  }

  lemma CreateKeepsPinned(s: State, r: nat, ok: bool)
    requires PinnedInv(s) && MigInv(s) && Enabled(s, CreatePod(r, ok))
    ensures PinnedInv(ReqNext(s, CreatePod(r, ok)))
  {
  }

  lemma ProceedKeepsPinned(s: State, r: nat)
    requires PinnedInv(s) && Enabled(s, Proceed(r))
    ensures PinnedInv(ReqNext(s, Proceed(r)))
  {
  }

  lemma ReqKeepsPinned(s: State, a: Action)
    requires PinnedInv(s) && MigInv(s) && !IsMig(a) && Enabled(s, a)
    requires !a.DeletePod? && !a.CreatePod? && !a.Proceed?
    ensures PinnedInv(ReqNext(s, a))
  {
    OneReqMoves(s, a);
    var t := ReqNext(s, a);
    assert forall r :: 0 <= r < |s.reqs| && r != a.r ==> t.reqs[r] == s.reqs[r];
  }

  lemma OneReqMoves(s: State, a: Action)
    requires MigInv(s) && !IsMig(a) && Enabled(s, a) && !a.DeletePod? && !a.CreatePod? && !a.Proceed?
    ensures var t := ReqNext(s, a); var p, q := s.reqs[a.r], t.reqs[a.r];
      && t.migs == s.migs && t.pods == s.pods && t.reqs == s.reqs[a.r := q]
      && q.name == p.name && q.created == p.created && !q.pc.Join?
      && (q.pc in {Check, Store, AfterSvc} && q.created.Some? ==> p.pc in {Check, Store, AfterSvc})
  {
  }

  ghost predicate Inv(s: State) {
    O.SvcInv(s) && CreatorInv(s) && MigInv(s) && SessionInv(s) && PinnedInv(s)
  }

  lemma NextKeeps(s: State, a: Action)
    requires Inv(s) && Enabled(s, a)
    ensures Inv(Next(s, a))
  {
    O.NextKeepsSvc(s, a);
    if IsMig(a) {
      MigKeepsCreator(s, a);
      MigKeepsMig(s, a);
      MigKeepsPinned(s, a);
    } else {
      if a.CreatePod? { CreateKeepsCreator(s, a.r, a.ok); }
      else if a.Proceed? {
        ProceedKeepsCreator(s, a.r);
        ProceedKeepsMig(s, a.r);
        ProceedKeepsSessions(s, a.r);
      } else { ReqKeepsCreator(s, a); }
      if a.DeletePod? { DeleteKeepsPinned(s, a.r, a.ok); }
      else if a.CreatePod? { CreateKeepsPinned(s, a.r, a.ok); }
      else if a.Proceed? { ProceedKeepsPinned(s, a.r); }
      else { ReqKeepsPinned(s, a); }
    }
  }

  lemma {:induction false} RunKeeps(s: State, acts: seq<Action>)
    requires Inv(s) && Legal(s, acts)
    ensures Inv(After(s, acts))
    decreases |acts|
  {
    if acts != [] {
      NextKeeps(s, acts[0]);
      RunKeeps(Next(s, acts[0]), acts[1..]);
    }
  }

  lemma ReachableInv(s: State)
    requires Reachable(s)
    ensures Inv(s)
  {
    var s0: State :| Initial(s0) && Reaches(s0, s);
    var acts: seq<Action> :| Legal(s0, acts) && After(s0, acts) == s;
    O.InitialSvcInv(s0);
    RunKeeps(s0, acts);
  }

  /** What a Remove is about to close is an open service of its own name, or nothing. */
  lemma ClosesItsOwn(s: State, r: nat)
    requires Reachable(s) && r < |s.reqs| && s.reqs[r].pc.CloseSvc?
    ensures var svc := EntryOf(s.entries, s.reqs[r].name).svc;
      svc.Some? ==> svc.value < |s.svcs| && s.svcs[svc.value] == Svc(s.reqs[r].name, 0)
  {
    ReachableInv(s);
    var n := s.reqs[r].name;
    assert EntryOf(s.entries, n).lock == Some(r);
    assert O.Owner(s.entries, s.reqs, n) == EntryOf(s.entries, n).svc;
  }

  // ---------------------------------------------------------------- main results

  predicate Faithful(s: State) {
    forall i :: 0 <= i < |s.sessions| ==> s.sessions[i].target == s.sessions[i].created
  }

  /** No pod incarnation had two restore sessions started into it. */
  predicate OneRestore(s: State) {
    forall i, j :: 0 <= i < j < |s.sessions| && s.sessions[i].target.Some? ==>
      s.sessions[i].target != s.sessions[j].target
  }

  /** The pod under m's name is not the one m created. */
  predicate Stale(s: State, m: nat)
    requires m < |s.migs|
  {
    PodOf(s, s.migs[m].name) != s.migs[m].created
  }

  /** Each creation of a pod leads to at most one session, and sessions never overlap on a host. */
  lemma OneSessionPerCreation(s: State, i: nat, j: nat)
    requires Reachable(s) && i < j < |s.sessions|
    ensures s.sessions[i].created.Some? && s.sessions[i].created != s.sessions[j].created
    ensures !(MigAt(s, s.sessions[i].mig, MRunning) && MigAt(s, s.sessions[j].mig, MRunning))
  {
    ReachableInv(s);
    var a, b := s.sessions[i].mig, s.sessions[j].mig;
    assert a != b;
    if a < b { assert s.migs[a].created != s.migs[b].created; } else { assert s.migs[b].created != s.migs[a].created; }
  }

  /** As long as every session ran into the pod its own request created, no pod had two. */
  lemma FaithfulMeansOneRestore(s: State)
    requires Reachable(s) && Faithful(s)
    ensures OneRestore(s)
  {
    forall i, j | 0 <= i < j < |s.sessions| && s.sessions[i].target.Some?
      ensures s.sessions[i].target != s.sessions[j].target
    {
      OneSessionPerCreation(s, i, j);
    }
  }

  /** Some session already ran into pod p. */
  predicate Restored(s: State, p: nat) {
    exists i :: 0 <= i < |s.sessions| && s.sessions[i].target == Some(p)
  }

  /**
   When a further session is the second one into a pod, exactly, whatever happened before: if and
   only if some session, of its creator or of a stranger, already ran into the pod it finds.
   */
  lemma SecondRestoreIffRestored(s: State, m: nat)
    requires Reachable(s) && OneRestore(s) && Enabled(s, MigExec(m)) && s.busy.None?
    ensures OneRestore(Next(s, MigExec(m))) <==>
      !(PodOf(s, s.migs[m].name).Some? && Restored(s, PodOf(s, s.migs[m].name).value))
  {
    var t, p, k := Next(s, MigExec(m)), PodOf(s, s.migs[m].name), |s.sessions|;
    assert t.sessions[k].target == p && t.sessions[..k] == s.sessions;
    assert forall i :: 0 <= i < k ==> t.sessions[i] == s.sessions[i];
    if i :| 0 <= i < k && s.sessions[i].target == p && p.Some? {
      assert t.sessions[i].target == t.sessions[k].target;
    }
  }

  /** DeployLM restores while it keeps the lock, so its goroutine is never stale. */
  lemma LockedRestoreIsFresh(s: State, r: nat)
    requires Reachable(s) && r < |s.reqs| && s.reqs[r].pc.Join?
    ensures s.reqs[r].pc.m < |s.migs| && !Stale(s, s.reqs[r].pc.m)
  {
    ReachableInv(s);
  }

  function Starting(rs: seq<Req>): State { State(map[], rs, [], [], map[], 0, [], None) }
}
