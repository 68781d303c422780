/** Who owns and closes forwarding services (server/api-core.go). */
module Ownership {
  import opened Basics
  import opened ApiCore

  predicate HasLock(pc: ReqPc) { !pc.Arrive? && !pc.WantLock? && !pc.Gone? }

  /** A request has the lock of its entry exactly while it is inside its handler. */
  predicate LockInv(s: State) {
    && (forall r :: 0 <= r < |s.reqs| && HasLock(s.reqs[r].pc) ==> EntryOf(s.entries, s.reqs[r].name).lock == Some(r))
    && (forall n :: n in s.entries && s.entries[n].lock.Some? ==> LockedBy(s, n, s.entries[n].lock.value))
  }

  predicate LockedBy(s: State, n: Name, r: nat) {
    r < |s.reqs| && s.reqs[r].name == n && HasLock(s.reqs[r].pc)
  }

  /** The request inside its handler for name n. */
  function Holder(es: map<Name, Entry>, rs: seq<Req>, n: Name): Option<Req> {
    var lock := EntryOf(es, n).lock;
    if lock.Some? && lock.value < |rs| then Some(rs[lock.value]) else None
  }

  /**
   The open service of name n: the one a request just started and holds, or the current one of the
   entry, which stops being open when a Remove closes it.
   */
  function Owner(es: map<Name, Entry>, rs: seq<Req>, n: Name): Option<nat> {
    var h := Holder(es, rs, n);
    if h.Some? && h.value.pc.Store? then h.value.held
    else if h.Some? && h.value.pc.ClearSvc? then None
    else EntryOf(es, n).svc
  }

  ghost predicate OwnerInv(es: map<Name, Entry>, rs: seq<Req>, svcs: seq<Svc>) {
    && (forall i :: 0 <= i < |svcs| ==>
          svcs[i].closes == (if Owner(es, rs, svcs[i].name) == Some(i) then 0 else 1))
    && (forall n :: Owner(es, rs, n).Some? ==> Owner(es, rs, n).value < |svcs|)
    && (forall n, i {:trigger svcs[i], Owner(es, rs, n)} :: 0 <= i < |svcs| && Owner(es, rs, n) == Some(i) ==>
          svcs[i].name == n)
  }

  predicate StoreInv(s: State) {
    forall r :: 0 <= r < |s.reqs| && s.reqs[r].pc.Store? ==>
      EntryOf(s.entries, s.reqs[r].name).svc.None? && s.reqs[r].held.Some?
  }

  /** A Remove that closed the service is about to clear the field that still names it. */
  predicate ClearInv(s: State) {
    forall r :: 0 <= r < |s.reqs| && s.reqs[r].pc.ClearSvc? ==>
      var svc := EntryOf(s.entries, s.reqs[r].name).svc;
      svc.Some? && svc.value < |s.svcs| && s.svcs[svc.value].name == s.reqs[r].name
  }

  predicate TouchesLock(a: Action) { a.Load? || a.Lock? || a.Release? }

  predicate TouchesSvc(a: Action) { a.StartSvc? || a.StoreSvc? || a.DoClose? || a.DoClear? }

  lemma LockStepsKeepLock(s: State, a: Action)
    requires LockInv(s) && StoreInv(s) && TouchesLock(a) && Enabled(s, a)
    ensures LockInv(ReqNext(s, a)) && StoreInv(ReqNext(s, a))
  {
  }

  lemma SvcStepsKeepLock(s: State, a: Action)
    requires LockInv(s) && StoreInv(s) && TouchesSvc(a) && Enabled(s, a)
    ensures LockInv(ReqNext(s, a)) && StoreInv(ReqNext(s, a))
  {
    if a.StoreSvc? || a.DoClear? { FieldStepsKeepLock(s, a); }
  }

  lemma FieldStepsKeepLock(s: State, a: Action)
    requires LockInv(s) && StoreInv(s) && (a.StoreSvc? || a.DoClear?) && Enabled(s, a)
    ensures LockInv(ReqNext(s, a)) && StoreInv(ReqNext(s, a))
  {
  }

  lemma OtherStepsKeepLock(s: State, a: Action)
    requires LockInv(s) && StoreInv(s) && !IsMig(a) && !TouchesLock(a) && !TouchesSvc(a) && Enabled(s, a)
    ensures LockInv(ReqNext(s, a)) && StoreInv(ReqNext(s, a))
  {
    OtherStepsMove(s, a);
    var t := ReqNext(s, a);
    assert forall r :: 0 <= r < |s.reqs| && r != a.r ==> t.reqs[r] == s.reqs[r];
  }

  /** They move one request within its handler. */
  lemma OtherStepsMove(s: State, a: Action)
    requires !IsMig(a) && !TouchesLock(a) && !TouchesSvc(a) && Enabled(s, a)
    ensures var t := ReqNext(s, a); var q := t.reqs[a.r];
      && t.entries == s.entries && t.reqs == s.reqs[a.r := q]
      && q.name == s.reqs[a.r].name && HasLock(s.reqs[a.r].pc) && HasLock(q.pc) && !q.pc.Store?
  {
  }

  /** Only the four steps on the fwdsvc field move ownership, and only that of their own name. */
  lemma OwnerStays(s: State, a: Action, n: Name)
    requires LockInv(s) && !IsMig(a) && Enabled(s, a) && (TouchesSvc(a) ==> n != s.reqs[a.r].name)
    ensures Owner(ReqNext(s, a).entries, ReqNext(s, a).reqs, n) == Owner(s.entries, s.reqs, n)
  {
    var t, k := ReqNext(s, a), s.reqs[a.r].name;
    if n != k {
      assert EntryOf(t.entries, n) == EntryOf(s.entries, n);
      assert Holder(t.entries, t.reqs, n) == Holder(s.entries, s.reqs, n);
    } else if TouchesLock(a) {
      LockStepsKeepOwn(s, a);
    } else {
      OtherStepsKeepOwn(s, a);
    }
  }

  lemma LockStepsKeepOwn(s: State, a: Action)
    requires LockInv(s) && TouchesLock(a) && Enabled(s, a)
    ensures Owner(ReqNext(s, a).entries, ReqNext(s, a).reqs, s.reqs[a.r].name) == Owner(s.entries, s.reqs, s.reqs[a.r].name)
  {
  }

  lemma OtherStepsKeepOwn(s: State, a: Action)
    requires LockInv(s) && !TouchesLock(a) && !TouchesSvc(a) && !IsMig(a) && Enabled(s, a)
    ensures Owner(ReqNext(s, a).entries, ReqNext(s, a).reqs, s.reqs[a.r].name) == Owner(s.entries, s.reqs, s.reqs[a.r].name)
  {
    assert EntryOf(s.entries, s.reqs[a.r].name).lock == Some(a.r);
  }

  lemma StoreAndClearKeepOwner(s: State, a: Action, n: Name)
    requires LockInv(s) && (a.StoreSvc? || a.DoClear?) && Enabled(s, a)
    ensures Owner(ReqNext(s, a).entries, ReqNext(s, a).reqs, n) == Owner(s.entries, s.reqs, n)
  {
    assert EntryOf(s.entries, s.reqs[a.r].name).lock == Some(a.r);
  }

  lemma StartTakesOwnership(s: State, r: nat)
    requires LockInv(s) && Enabled(s, StartSvc(r, true)) && EntryOf(s.entries, s.reqs[r].name).svc.None?
    ensures Owner(s.entries, s.reqs, s.reqs[r].name).None?
    ensures Owner(ReqNext(s, StartSvc(r, true)).entries, ReqNext(s, StartSvc(r, true)).reqs, s.reqs[r].name) == Some(|s.svcs|)
  {
    assert EntryOf(s.entries, s.reqs[r].name).lock == Some(r);
  }

  lemma NoStartKeepsOwner(s: State, r: nat, ok: bool, n: Name)
    requires LockInv(s) && Enabled(s, StartSvc(r, ok)) && (EntryOf(s.entries, s.reqs[r].name).svc.Some? || !ok)
    ensures Owner(ReqNext(s, StartSvc(r, ok)).entries, ReqNext(s, StartSvc(r, ok)).reqs, n) == Owner(s.entries, s.reqs, n)
  {
    assert EntryOf(s.entries, s.reqs[r].name).lock == Some(r);
  }

  lemma CloseEndsOwnership(s: State, r: nat)
    requires LockInv(s) && OwnerInv(s.entries, s.reqs, s.svcs) && Enabled(s, DoClose(r))
    ensures var n := s.reqs[r].name; var t := ReqNext(s, DoClose(r));
      && Owner(t.entries, t.reqs, n).None?
      && Owner(s.entries, s.reqs, n) == EntryOf(s.entries, n).svc
      && (Owner(s.entries, s.reqs, n).Some? ==> Owner(s.entries, s.reqs, n).value < |s.svcs|)
  {
    var n := s.reqs[r].name;
    assert EntryOf(s.entries, n).lock == Some(r);
    assert Owner(s.entries, s.reqs, n) == EntryOf(s.entries, n).svc;
  }

  lemma SvcStepsKeepOwner(s: State, a: Action)
    requires LockInv(s) && OwnerInv(s.entries, s.reqs, s.svcs) && TouchesSvc(a) && Enabled(s, a)
    ensures OwnerInv(ReqNext(s, a).entries, ReqNext(s, a).reqs, ReqNext(s, a).svcs)
  {
    var t, k := ReqNext(s, a), s.reqs[a.r].name;
    if a.DoClose? { CloseKeepsOwner(s, a.r); }
    else if a.StartSvc? && a.ok && EntryOf(s.entries, k).svc.None? { StartKeepsOwner(s, a.r); }
    else {
      assert t.svcs == s.svcs;
      forall n ensures Owner(t.entries, t.reqs, n) == Owner(s.entries, s.reqs, n) {
        if n != k { OwnerStays(s, a, n); }
        else if a.StartSvc? { NoStartKeepsOwner(s, a.r, a.ok, k); }
        else { StoreAndClearKeepOwner(s, a, k); }
      }
    }
  }

  lemma StartKeepsOwner(s: State, r: nat)
    requires LockInv(s) && OwnerInv(s.entries, s.reqs, s.svcs)
    requires Enabled(s, StartSvc(r, true)) && EntryOf(s.entries, s.reqs[r].name).svc.None?
    ensures var t := ReqNext(s, StartSvc(r, true)); OwnerInv(t.entries, t.reqs, t.svcs)
  {
    var t, k := ReqNext(s, StartSvc(r, true)), s.reqs[r].name;
    forall n | n != k ensures Owner(t.entries, t.reqs, n) == Owner(s.entries, s.reqs, n) { OwnerStays(s, StartSvc(r, true), n); }
    StartTakesOwnership(s, r);
    assert t.svcs == s.svcs + [Svc(k, 0)];
  }

  lemma CloseKeepsOwner(s: State, r: nat)
    requires LockInv(s) && OwnerInv(s.entries, s.reqs, s.svcs) && Enabled(s, DoClose(r))
    ensures var t := ReqNext(s, DoClose(r)); OwnerInv(t.entries, t.reqs, t.svcs)
  {
    var t, k := ReqNext(s, DoClose(r)), s.reqs[r].name;
    forall n | n != k ensures Owner(t.entries, t.reqs, n) == Owner(s.entries, s.reqs, n) { OwnerStays(s, DoClose(r), n); }
    CloseEndsOwnership(s, r);
  }

  lemma OtherStepsKeepOwner(s: State, a: Action)
    requires LockInv(s) && OwnerInv(s.entries, s.reqs, s.svcs) && !IsMig(a) && !TouchesSvc(a) && Enabled(s, a)
    ensures OwnerInv(ReqNext(s, a).entries, ReqNext(s, a).reqs, ReqNext(s, a).svcs)
  {
    var t := ReqNext(s, a);
    assert t.svcs == s.svcs;
    forall n ensures Owner(t.entries, t.reqs, n) == Owner(s.entries, s.reqs, n) { OwnerStays(s, a, n); }
  }

  lemma StepKeepsClear(s: State, a: Action)
    requires LockInv(s) && ClearInv(s) && !IsMig(a) && !a.DoClose? && Enabled(s, a)
    ensures ClearInv(ReqNext(s, a))
  {
    if !TouchesLock(a) && !TouchesSvc(a) { OtherStepsKeepClear(s, a); }
  }

  lemma OtherStepsKeepClear(s: State, a: Action)
    requires ClearInv(s) && !IsMig(a) && !TouchesLock(a) && !TouchesSvc(a) && Enabled(s, a)
    ensures ClearInv(ReqNext(s, a))
  {
    var t := ReqNext(s, a);
    assert t.entries == s.entries && t.svcs == s.svcs && !t.reqs[a.r].pc.ClearSvc?;
    assert forall r :: 0 <= r < |s.reqs| && r != a.r ==> t.reqs[r] == s.reqs[r];
  }

  lemma CloseKeepsClear(s: State, r: nat)
    requires LockInv(s) && ClearInv(s) && OwnerInv(s.entries, s.reqs, s.svcs) && Enabled(s, DoClose(r))
    ensures ClearInv(ReqNext(s, DoClose(r)))
  {
    CloseEndsOwnership(s, r);
  }

  ghost predicate SvcInv(s: State) {
    LockInv(s) && StoreInv(s) && ClearInv(s) && OwnerInv(s.entries, s.reqs, s.svcs)
  }

  lemma NextKeepsSvc(s: State, a: Action)
    requires SvcInv(s) && Enabled(s, a)
    ensures SvcInv(Next(s, a))
  {
    if !IsMig(a) {
      if a.DoClose? { CloseKeepsClear(s, a.r); } else { StepKeepsClear(s, a); }
      if TouchesLock(a) { LockStepsKeepLock(s, a); OtherStepsKeepOwner(s, a); }
      else if TouchesSvc(a) { SvcStepsKeepLock(s, a); SvcStepsKeepOwner(s, a); }
      else { OtherStepsKeepLock(s, a); OtherStepsKeepOwner(s, a); }
    }
  }

  lemma {:induction false} RunKeepsSvc(s: State, acts: seq<Action>)
    requires SvcInv(s) && Legal(s, acts)
    ensures SvcInv(After(s, acts))
    decreases |acts|
  {
    if acts != [] {
      NextKeepsSvc(s, acts[0]);
      RunKeepsSvc(Next(s, acts[0]), acts[1..]);
    }
  }

  lemma ReachableSvcInv(s: State)
    requires Reachable(s)
    ensures SvcInv(s)
  {
    var s0: State :| Initial(s0) && Reaches(s0, s);
    var acts: seq<Action> :| Legal(s0, acts) && After(s0, acts) == s;
    InitialSvcInv(s0);
    RunKeepsSvc(s0, acts);
  }

  lemma InitialSvcInv(s: State)
    requires Initial(s)
    ensures SvcInv(s)
  {
    assert forall n :: Owner(s.entries, s.reqs, n).None?;
  }

  // ---------------------------------------------------------------- main results

  /** Request r holds service i: it has started it and not stored it yet. */
  predicate HeldBy(s: State, r: nat, i: nat) { ReqAt(s, r, Store) && s.reqs[r].held == Some(i) }

  predicate Current(s: State, n: Name, i: nat) { EntryOf(s.entries, n).svc == Some(i) }

  lemma HeldIsOwner(s: State, r: nat, i: nat)
    requires SvcInv(s) && HeldBy(s, r, i)
    ensures Owner(s.entries, s.reqs, s.reqs[r].name) == Some(i) && i < |s.svcs|
    ensures s.svcs[i] == Svc(s.reqs[r].name, 0) && EntryOf(s.entries, s.reqs[r].name) == Entry(Some(r), None)
  {
    assert EntryOf(s.entries, s.reqs[r].name).lock == Some(r);
    assert Owner(s.entries, s.reqs, s.reqs[r].name) == Some(i);
  }

  lemma CurrentIsOwner(s: State, n: Name, i: nat)
    requires SvcInv(s) && Current(s, n, i)
    ensures i < |s.svcs| && s.svcs[i].name == n
    ensures Owner(s.entries, s.reqs, n) == Some(i)
      || (EntryOf(s.entries, n).lock.Some? && ReqAt(s, EntryOf(s.entries, n).lock.value, ClearSvc))
  {
    var e := EntryOf(s.entries, n);
    if e.lock.Some? { assert LockedBy(s, n, e.lock.value); }
    var h := Holder(s.entries, s.reqs, n);
    if h.None? || !h.value.pc.ClearSvc? { assert Owner(s.entries, s.reqs, n) == Some(i); }
  }

  /**
   Ownership, under any interleaving of requests on any names. A started service is closed at most
   once, so close(chanClose) never runs twice. While it is open it has one place: it is held by
   the request that just started it, or it is the current service of the entry of its name. Once
   closed nobody holds it, and an entry that still names it is about to be cleared by the Remove
   that closed it.
   */
  lemma ServiceOwnership(s: State, i: nat)
    requires Reachable(s) && i < |s.svcs|
    ensures s.svcs[i].closes <= 1
    ensures var e := EntryOf(s.entries, s.svcs[i].name);
      s.svcs[i].closes == 0 ==> e.svc == Some(i) || (e.lock.Some? && HeldBy(s, e.lock.value, i))
  {
    ReachableSvcInv(s);
  }

  lemma PlacesAreDisjoint(s: State, r: nat, i: nat)
    requires Reachable(s) && HeldBy(s, r, i)
    ensures i < |s.svcs| && s.svcs[i].closes == 0 && s.svcs[i].name == s.reqs[r].name
    ensures forall n :: !Current(s, n, i)
    ensures forall q :: HeldBy(s, q, i) ==> q == r
  {
    ReachableSvcInv(s);
    HeldIsOwner(s, r, i);
    forall n | Current(s, n, i) ensures false { CurrentIsOwner(s, n, i); }
    forall q | HeldBy(s, q, i) ensures q == r { HeldIsOwner(s, q, i); }
  }

  lemma CurrentBelongsToName(s: State, n: Name, i: nat)
    requires Reachable(s) && Current(s, n, i)
    ensures i < |s.svcs| && s.svcs[i].name == n
    ensures s.svcs[i].closes == 0 <==>
      !(EntryOf(s.entries, n).lock.Some? && ReqAt(s, EntryOf(s.entries, n).lock.value, ClearSvc))
  {
    ReachableSvcInv(s);
    CurrentIsOwner(s, n, i);
  }

  /** A name never has two open services. */
  lemma OneOpenServicePerName(s: State, i: nat, j: nat)
    requires Reachable(s) && i < j < |s.svcs| && s.svcs[i].closes == 0 && s.svcs[j].closes == 0
    ensures s.svcs[i].name != s.svcs[j].name
  {
    ReachableSvcInv(s);
  }
}
