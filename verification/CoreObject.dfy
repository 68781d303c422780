/**
 APICore (server/api-core.go:20-375) as an object whose methods are the handlers of the source. While a
 handler runs, or waits for the lock of its entry, everybody else goes on: the script says what
 other requests and goroutines try to do. Every region is a step of module ApiCore. A method
 returns false in `done` when the script ends before it could take the lock.
 */
module CoreObject {
  import opened Basics
  import opened ApiCore
  import O = Ownership
  import I = Incarnations

  /** Who runs a method: the handler of request r, with the restore it runs inline if any. */
  datatype Actor = Handler(r: nat, inline: Option<nat>) | Goroutine(m: nat)

  predicate Mine(a: Action, me: Actor) {
    match me
    case Handler(r, m) => if IsMig(a) then m == Some(a.m) else a.r == r
    case Goroutine(m) => IsMig(a) && a.m == m
  }

  /** A script played while `me` waits: what is enabled in its turn, and not its own, happens. */
  function Played(s: State, turns: seq<Action>, me: Option<Actor>): State
    decreases |turns|
  {
    if turns == [] then s else Played(Turn(s, turns[0], me), turns[1..], me)
  }

  function Turn(s: State, a: Action, me: Option<Actor>): State {
    if Enabled(s, a) && (me.None? || !Mine(a, me.value)) then Next(s, a) else s
  }

  lemma PlaysOne(s: State, turns: seq<Action>, i: nat, me: Option<Actor>)
    requires i < |turns|
    ensures Played(s, turns[i..], me) == Played(Turn(s, turns[i], me), turns[i + 1..], me)
  {
    assert turns[i..][1..] == turns[i + 1..];
  }

  /** What the others leave alone: the actor's own place and, under its lock, its entry. */
  predicate Left(s: State, t: State, me: Actor) {
    s.sessions <= t.sessions &&
    match me
    case Handler(r, m) =>
      && (r < |s.reqs| ==>
            r < |t.reqs| && t.reqs[r] == s.reqs[r]
            && (O.HasLock(s.reqs[r].pc) ==> EntryOf(t.entries, s.reqs[r].name) == EntryOf(s.entries, s.reqs[r].name)))
      && (m.Some? && m.value < |s.migs| ==> m.value < |t.migs| && t.migs[m.value] == s.migs[m.value])
    case Goroutine(m) => m < |s.migs| ==> m < |t.migs| && t.migs[m] == s.migs[m]
  }

  lemma OthersLeaveReq(s: State, a: Action, r: nat)
    requires Enabled(s, a) && (IsMig(a) || a.r != r) && r < |s.reqs|
    ensures r < |Next(s, a).reqs| && Next(s, a).reqs[r] == s.reqs[r]
  {
  }

  lemma OthersLeaveEntry(s: State, a: Action, r: nat)
    requires O.LockInv(s) && Enabled(s, a) && (IsMig(a) || a.r != r) && r < |s.reqs| && O.HasLock(s.reqs[r].pc)
    ensures EntryOf(Next(s, a).entries, s.reqs[r].name) == EntryOf(s.entries, s.reqs[r].name)
  {
    assert EntryOf(s.entries, s.reqs[r].name).lock == Some(r);
    if !IsMig(a) && s.reqs[a.r].name == s.reqs[r].name { assert !O.HasLock(s.reqs[a.r].pc); }
  }

  lemma OthersLeaveMig(s: State, a: Action, m: nat)
    requires Enabled(s, a) && !(IsMig(a) && a.m == m) && m < |s.migs|
    ensures m < |Next(s, a).migs| && Next(s, a).migs[m] == s.migs[m]
  {
  }

  lemma OthersLeave(s: State, a: Action, me: Actor)
    requires Reachable(s) && Enabled(s, a) && !Mine(a, me)
    ensures Left(s, Next(s, a), me)
  {
    O.ReachableSvcInv(s);
    assert s.sessions <= Next(s, a).sessions;
    match me
    case Handler(r, m) =>
      if r < |s.reqs| {
        OthersLeaveReq(s, a, r);
        if O.HasLock(s.reqs[r].pc) { OthersLeaveEntry(s, a, r); }
      }
      if m.Some? && m.value < |s.migs| { OthersLeaveMig(s, a, m.value); }
    case Goroutine(m) => if m < |s.migs| { OthersLeaveMig(s, a, m); }
  }

  // ---------------------------------------------------------------- what a handler may rely on

  predicate Open(svcs: seq<Svc>, svc: Option<nat>, n: Name) {
    svc.Some? ==> svc.value < |svcs| && svcs[svc.value] == Svc(n, 0)
  }

  /** Service i of name n was open and was closed; nothing else changed. */
  predicate Closes(before: seq<Svc>, after: seq<Svc>, i: nat, n: Name) {
    i < |before| && before[i] == Svc(n, 0) && after == before[i := Svc(n, 1)]
  }

  /** The current service of an entry is open and of its name, but for a Remove between two steps. */
  lemma CurrentIsOpen(s: State, r: nat)
    requires Reachable(s) && r < |s.reqs| && O.HasLock(s.reqs[r].pc) && !s.reqs[r].pc.ClearSvc?
    ensures Open(s.svcs, EntryOf(s.entries, s.reqs[r].name).svc, s.reqs[r].name)
  {
    O.ReachableSvcInv(s);
    var n := s.reqs[r].name;
    assert EntryOf(s.entries, n).lock == Some(r);
    if EntryOf(s.entries, n).svc.Some? { O.CurrentIsOwner(s, n, EntryOf(s.entries, n).svc.value); }
  }

  lemma CloseStep(s: State, r: nat, n: Name, svc: Option<nat>)
    requires Reachable(s) && ReqAt(s, r, CloseSvc) && n == s.reqs[r].name && svc == EntryOf(s.entries, n).svc
    ensures Open(s.svcs, svc, n)
    ensures svc.None? ==> Reachable(Goto(s, r, DelPod))
    ensures svc.Some? ==> Reachable(Goto(s, r, ClearSvc).(svcs := s.svcs[svc.value := Svc(n, 1)]))
  {
    CurrentIsOpen(s, r);
    ExtendReachable(s, DoClose(r));
  }

  /** Without a current service, and with the handler not just starting one, none of its name is open. */
  lemma AllClosed(s: State, r: nat)
    requires Reachable(s) && r < |s.reqs| && O.HasLock(s.reqs[r].pc) && !s.reqs[r].pc.Store?
    requires EntryOf(s.entries, s.reqs[r].name).svc.None?
    ensures forall i :: 0 <= i < |s.svcs| && s.svcs[i].name == s.reqs[r].name ==> s.svcs[i].closes == 1
  {
    O.ReachableSvcInv(s);
    assert EntryOf(s.entries, s.reqs[r].name).lock == Some(r);
    assert O.Owner(s.entries, s.reqs, s.reqs[r].name).None?;
  }

  lemma LockFacts(s: State, r: nat)
    requires Reachable(s) && r < |s.reqs| && O.HasLock(s.reqs[r].pc)
    ensures EntryOf(s.entries, s.reqs[r].name).lock == Some(r)
    ensures s.reqs[r].pc.Client? || s.reqs[r].pc.MakePod? ==> s.reqs[r].created.None?
    ensures s.reqs[r].pc.Store? ==> EntryOf(s.entries, s.reqs[r].name).svc.None? && s.reqs[r].held.Some?
  {
    I.ReachableInv(s);
  }

  lemma SessionFacts(s: State, k: nat)
    requires Reachable(s) && k < |s.sessions|
    ensures forall j :: 0 <= j < |s.sessions| && s.sessions[j].mig == s.sessions[k].mig ==> j == k
    ensures s.sessions[k].created.Some? && forall j :: 0 <= j < |s.sessions| && j != k ==> s.sessions[j].created != s.sessions[k].created
  {
    I.ReachableInv(s);
    forall j | 0 <= j < |s.sessions| && j != k
      ensures s.sessions[j].mig != s.sessions[k].mig && s.sessions[j].created != s.sessions[k].created
    {
      I.OneSessionPerCreation(s, if j < k then j else k, if j < k then k else j);
    }
  }

  // ---------------------------------------------------------------- the object

  class APICore {
    const script: seq<seq<Action>>
    const env: nat -> bool           // answers of the calls that can fail
    var next: nat
    var used: nat
    var resmap: map<Name, Entry>
    var reqs: seq<Req>
    var migs: seq<Mig>
    var svcs: seq<Svc>
    var pods: map<Name, nat>
    var nextInc: nat
    var sessions: seq<Session>
    var busy: Option<nat>

    ghost function View(): State
      reads this
    {
      State(resmap, reqs, migs, svcs, pods, nextInc, sessions, busy)
    }

    constructor (rs: seq<Req>, script: seq<seq<Action>>, env: nat -> bool)
      requires Initial(I.Starting(rs))
      ensures View() == I.Starting(rs) && Reachable(View()) && next == 0
      ensures this.script == script && this.env == env
    {
      this.script, this.env, next, used := script, env, 0, 0;
      resmap, reqs, migs, svcs, pods, nextInc, sessions, busy := map[], rs, [], [], map[], 0, [], None;
      ReachesItself(I.Starting(rs));
    }

    /** These answers were all yes. */
    ghost predicate AllYes(from: nat, to: nat) { forall i: nat :: from <= i < to ==> env(i) }

    method Ask() returns (ok: bool)
      modifies this`used
      ensures ok == env(old(used)) && used == old(used) + 1
    {
      ok := env(used);
      used := used + 1;
    }

    method SetState(s: State)
      modifies this
      ensures View() == s && next == old(next) && used == old(used)
    {
      resmap, reqs, migs, svcs := s.entries, s.reqs, s.migs, s.svcs;
      pods, nextInc, sessions, busy := s.pods, s.nextInc, s.sessions, s.busy;
    }

    /** One region of anybody. */
    method Take(a: Action)
      requires Reachable(View()) && Enabled(View(), a)
      modifies this
      ensures View() == Next(old(View()), a) && next == old(next) && used == old(used) && Reachable(View())
    {
      ExtendReachable(View(), a);
      SetState(Next(State(resmap, reqs, migs, svcs, pods, nextInc, sessions, busy), a));
    }

    method CanRun(a: Action) returns (open: bool)
      ensures open == Enabled(View(), a)
    {
      open := Enabled(State(resmap, reqs, migs, svcs, pods, nextInc, sessions, busy), a);
    }

    /** The others run for a while; what they cannot do, or is not theirs, is skipped. */
    method Others(me: Actor)
      requires Reachable(View())
      modifies this
      ensures Reachable(View()) && Left(old(View()), View(), me) && used == old(used)
      ensures next == if old(next) < |script| then old(next) + 1 else old(next)
      ensures View() == if old(next) < |script| then Played(old(View()), script[old(next)], Some(me)) else old(View())
    {
      if next >= |script| { return; }
      var turns := script[next];
      next := next + 1;
      ghost var s := View();
      for i := 0 to |turns|
        invariant Reachable(View()) && next == old(next) + 1 && used == old(used) && Left(s, View(), me)
        invariant Played(View(), turns[i..], Some(me)) == Played(s, turns, Some(me))
      {
        PlaysOne(View(), turns, i, Some(me));
        OneTurn(turns[i], Some(me));
      }
    }

    method OneTurn(a: Action, me: Option<Actor>)
      requires Reachable(View())
      modifies this
      ensures Reachable(View()) && next == old(next) && used == old(used) && View() == Turn(old(View()), a, me)
      ensures me.Some? ==> Left(old(View()), View(), me.value)
    {
      var open := CanRun(a);
      if open && (me.None? || !Mine(a, me.value)) {
        if me.Some? { OthersLeave(View(), a, me.value); }
        Take(a);
      }
    }

    /** From here on nobody else does anything. */
    predicate Calm()
      reads this
    {
      next >= |script|
    }

    // -------------------------------------------------------------- parts of the handlers

    /** LoadOrStore and the lock of the entry. */
    method Enter(r: nat) returns (ok: bool)
      requires Reachable(View()) && r < |reqs| && reqs[r].pc.Arrive?
      modifies this
      ensures Reachable(View()) && r < |reqs|
      ensures ok ==> reqs[r] == old(reqs[r]).(pc := AfterLock(old(reqs[r]).kind))
      ensures !ok ==> Calm() && EntryOf(resmap, reqs[r].name).lock.Some?
      ensures used == old(used) && reqs[r].name == old(reqs[r].name)
      ensures old(Calm()) ==> Calm() && pods == old(pods) && busy == old(busy)
      ensures old(Calm()) ==> (ok <==> old(EntryOf(resmap, reqs[r].name).lock).None?)
    {
      Look(r);
      Others(Handler(r, None));
      var q := reqs[r];
      while EntryOf(resmap, q.name).lock.Some? && next < |script|
        invariant Reachable(View()) && r < |reqs| && reqs[r] == q && used == old(used)
        invariant old(Calm()) ==> Calm() && pods == old(pods) && busy == old(busy)
        invariant old(Calm()) ==> EntryOf(resmap, q.name).lock == old(EntryOf(resmap, reqs[r].name).lock)
        decreases |script| - next
      {
        Others(Handler(r, None));
      }
      if EntryOf(resmap, q.name).lock.Some? { return false; }
      ExtendReachable(View(), Lock(r));
      resmap := resmap[q.name := EntryOf(resmap, q.name).(lock := Some(r))];
      reqs := reqs[r := q.(pc := AfterLock(q.kind))];
      ok := true;
    }

    method Look(r: nat)
      requires Reachable(View()) && r < |reqs| && reqs[r].pc.Arrive?
      modifies this`resmap, this`reqs
      ensures Reachable(View()) && reqs == old(reqs[r := reqs[r].(pc := WantLock)])
      ensures EntryOf(resmap, reqs[r].name) == old(EntryOf(resmap, reqs[r].name))
    {
      ExtendReachable(View(), Load(r));
      resmap := resmap[reqs[r].name := EntryOf(resmap, reqs[r].name)];
      reqs := reqs[r := reqs[r].(pc := WantLock)];
    }

    /** The deferred unlock. */
    method Leave(r: nat)
      requires Reachable(View()) && r < |reqs| && reqs[r].pc.Unlock?
      modifies this`resmap, this`reqs
      ensures Reachable(View()) && reqs == old(reqs[r := reqs[r].(pc := Gone)])
      ensures EntryOf(resmap, reqs[r].name) == Entry(None, old(EntryOf(resmap, reqs[r].name).svc))
    {
      ExtendReachable(View(), Release(r));
      resmap := resmap[reqs[r].name := EntryOf(resmap, reqs[r].name).(lock := None)];
      reqs := reqs[r := reqs[r].(pc := Gone)];
    }

    /** NewClient */
    method NewClient(r: nat) returns (ok: bool)
      requires Reachable(View()) && r < |reqs| && reqs[r].pc.Client?
      modifies this`reqs, this`used
      ensures Reachable(View()) && ok == env(old(used)) && used == old(used) + 1
      ensures reqs == old(reqs[r := reqs[r].(pc := if !ok then Unlock else if reqs[r].kind.Remove? then CloseSvc else MakePod)])
    {
      ok := Ask();
      ExtendReachable(View(), GetClient(r, ok));
      reqs := reqs[r := reqs[r].(pc := if !ok then Unlock else if reqs[r].kind.Remove? then CloseSvc else MakePod)];
    }

    /** createNewPod: true if this request created it. */
    method CreateNewPod(r: nat) returns (newPod: bool)
      requires Reachable(View()) && r < |reqs| && reqs[r].pc.MakePod?
      modifies this`reqs, this`pods, this`nextInc, this`used
      ensures newPod <==> env(old(used)) && old(reqs[r].name) !in old(pods)
      ensures used == old(used) + 1
      ensures Reachable(View()) && |reqs| == old(|reqs|)
      ensures reqs[r] == old(reqs[r]).(pc := Check, created := if newPod then Some(old(nextInc)) else old(reqs[r].created))
      ensures newPod ==> reqs[r].name !in old(pods) && pods == old(pods)[reqs[r].name := old(nextInc)]
      ensures !newPod ==> pods == old(pods)
    {
      var q := reqs[r];
      newPod := Ask();
      newPod := newPod && q.name !in pods;
      ExtendReachable(View(), CreatePod(r, newPod));
      if newPod {
        reqs := reqs[r := q.(pc := Check, created := Some(nextInc))];
        pods := pods[q.name := nextInc];
        nextInc := nextInc + 1;
      } else {
        reqs := reqs[r := q.(pc := Check)];
      }
    }

    /** Uses the current service or starts one; afterwards it is open and of this name, if there is one. */
    method EnsureService(r: nat)
      requires Reachable(View()) && r < |reqs| && reqs[r].pc.Check?
      modifies this
      ensures Reachable(View()) && r < |reqs| && reqs[r] == old(reqs[r]).(pc := AfterSvc, held := reqs[r].held)
      ensures Open(svcs, EntryOf(resmap, reqs[r].name).svc, reqs[r].name)
      ensures old(EntryOf(resmap, reqs[r].name).svc).Some? ==> EntryOf(resmap, reqs[r].name).svc == old(EntryOf(resmap, reqs[r].name).svc)
      ensures EntryOf(resmap, reqs[r].name).svc.Some? <==> old(EntryOf(resmap, reqs[r].name).svc).Some? || env(old(used))
      ensures used == old(used) + (if old(EntryOf(resmap, reqs[r].name).svc).Some? then 0 else 1)
      ensures old(Calm()) ==> Calm() && pods == old(pods) && busy == old(busy)
    {
      var started := StartService(r);
      if started {
        Others(Handler(r, None));
        Keep(r);
      }
      CurrentIsOpen(View(), r);
    }

    /** StartForwarderService, unless there is a service. */
    method StartService(r: nat) returns (started: bool)
      requires Reachable(View()) && r < |reqs| && reqs[r].pc.Check?
      modifies this`reqs, this`svcs, this`used
      ensures started <==> old(EntryOf(resmap, reqs[r].name).svc).None? && env(old(used))
      ensures used == old(used) + (if old(EntryOf(resmap, reqs[r].name).svc).Some? then 0 else 1)
      ensures Reachable(View()) && r < |reqs| && EntryOf(resmap, reqs[r].name) == old(EntryOf(resmap, reqs[r].name))
      ensures reqs[r] == old(reqs[r]).(pc := if started then Store else AfterSvc, held := reqs[r].held)
      ensures started ==> reqs[r].held.Some?
    {
      var q := reqs[r];
      started := false;
      if EntryOf(resmap, q.name).svc.None? { started := Ask(); }
      ExtendReachable(View(), StartSvc(r, started));
      if started {
        reqs := reqs[r := q.(pc := Store, held := Some(|svcs|))];
        svcs := svcs + [Svc(q.name, 0)];
      } else {
        reqs := reqs[r := q.(pc := AfterSvc)];
      }
    }

    /** res.fwdsvc = fsv */
    method Keep(r: nat)
      requires Reachable(View()) && r < |reqs| && reqs[r].pc.Store?
      modifies this`resmap, this`reqs
      ensures Reachable(View()) && |reqs| == old(|reqs|)
      ensures reqs[r] == old(reqs[r]).(pc := AfterSvc, held := None)
      ensures EntryOf(resmap, reqs[r].name).svc == old(reqs[r].held)
    {
      ExtendReachable(View(), StoreSvc(r));
      var q := reqs[r];
      resmap := resmap[q.name := EntryOf(resmap, q.name).(svc := q.held)];
      reqs := reqs[r := q.(pc := AfterSvc, held := None)];
    }

    /** Nothing more to do under the lock than to give it back. */
    method Settle(r: nat)
      requires Reachable(View()) && r < |reqs| && reqs[r].pc.AfterSvc?
      requires !reqs[r].kind.FwdLM? && !(reqs[r].kind.LM? && reqs[r].created.Some?)
      modifies this`resmap, this`reqs
      ensures Reachable(View()) && |reqs| == old(|reqs|) && reqs[r] == old(reqs[r]).(pc := Gone)
      ensures EntryOf(resmap, reqs[r].name).lock.None? && Open(svcs, EntryOf(resmap, reqs[r].name).svc, reqs[r].name)
      ensures EntryOf(resmap, reqs[r].name).svc == old(EntryOf(resmap, reqs[r].name).svc)
    {
      CurrentIsOpen(View(), r);
      ExtendReachable(View(), Proceed(r));
      reqs := reqs[r := reqs[r].(pc := Unlock)];
      Leave(r);
    }

    // -------------------------------------------------------------- the handlers

    /** DeployFwd. When it is done the name has an open service of its own, or none, and no lock. */
    method DeployFwd(r: nat) returns (done: bool)
      requires Reachable(View()) && r < |reqs| && reqs[r].kind.Fwd? && reqs[r].pc.Arrive?
      modifies this
      ensures Reachable(View()) && r < |reqs|
      ensures done ==> reqs[r].pc.Gone? && EntryOf(resmap, reqs[r].name).lock.None?
      ensures done ==> Open(svcs, EntryOf(resmap, reqs[r].name).svc, reqs[r].name)
      ensures done && AllYes(old(used), used) ==> EntryOf(resmap, reqs[r].name).svc.Some?
      ensures old(Calm()) ==> (done <==> old(EntryOf(resmap, reqs[r].name).lock).None?)
      ensures !done ==> Calm() && EntryOf(resmap, reqs[r].name).lock.Some?
    {
      done := Enter(r);
      if !done { return; }
      Others(Handler(r, None));
      EnsureService(r);
      Others(Handler(r, None));
      Settle(r);
    }

    /** DeployNew. */
    method DeployNew(r: nat) returns (done: bool)
      requires Reachable(View()) && r < |reqs| && reqs[r].kind.New? && reqs[r].pc.Arrive?
      modifies this
      ensures Reachable(View()) && r < |reqs|
      ensures done ==> reqs[r].pc.Gone? && EntryOf(resmap, reqs[r].name).lock.None?
      ensures done ==> Open(svcs, EntryOf(resmap, reqs[r].name).svc, reqs[r].name)
      ensures done && AllYes(old(used), used) ==> EntryOf(resmap, reqs[r].name).svc.Some?
      ensures old(Calm()) ==> (done <==> old(EntryOf(resmap, reqs[r].name).lock).None?)
      ensures !done ==> Calm() && EntryOf(resmap, reqs[r].name).lock.Some?
    {
      done := Enter(r);
      if !done { return; }
      var ok := NewClient(r);
      Others(Handler(r, None));
      if !ok {
        GiveUp(r);
        return;
      }
      LockFacts(View(), r);
      var newPod := Provide(r);
      Settle(r);
    }

    /** Without a client there is only the lock to give back. */
    method GiveUp(r: nat)
      requires Reachable(View()) && r < |reqs| && reqs[r].pc.Unlock?
      modifies this`resmap, this`reqs
      ensures Reachable(View()) && reqs == old(reqs[r := reqs[r].(pc := Gone)])
      ensures EntryOf(resmap, reqs[r].name) == Entry(None, old(EntryOf(resmap, reqs[r].name).svc))
      ensures Open(svcs, EntryOf(resmap, reqs[r].name).svc, reqs[r].name)
    {
      CurrentIsOpen(View(), r);
      Leave(r);
    }

    /** The pod and the service. */
    method Provide(r: nat) returns (newPod: bool)
      requires Reachable(View()) && r < |reqs| && reqs[r].pc.MakePod? && reqs[r].created.None?
      modifies this
      ensures Reachable(View()) && r < |reqs|
      ensures reqs[r].pc.AfterSvc? && reqs[r].kind == old(reqs[r].kind) && reqs[r].name == old(reqs[r].name)
      ensures newPod <==> reqs[r].created.Some?
      ensures newPod <==> env(old(used)) && old(reqs[r].name !in pods)
      ensures used == old(used) + (if old(EntryOf(resmap, reqs[r].name).svc).Some? then 1 else 2)
      ensures EntryOf(resmap, reqs[r].name).svc.Some? <==> old(EntryOf(resmap, reqs[r].name).svc).Some? || env(old(used) + 1)
      ensures old(Calm()) ==> Calm() && busy == old(busy) && (newPod ==> reqs[r].name in pods)
    {
      newPod := CreateNewPod(r);
      Others(Handler(r, None));
      EnsureService(r);
      Others(Handler(r, None));
    }

    /** WaitForPodReady and exec, once the pod was created; the session it ran, if it did. */
    method Migrate(m: nat, me: Actor) returns (ran: bool, k: nat)
      requires Reachable(View()) && m < |migs| && migs[m].pc.MReady?
      requires me == Goroutine(m) || (me.Handler? && me.inline == Some(m) && me.r < |reqs| && reqs[me.r].pc == Join(m))
      modifies this
      ensures Reachable(View()) && m < |migs| && migs[m] == old(migs[m]).(pc := MEnd)
      ensures me.Handler? ==> me.r < |reqs| && reqs[me.r] == old(reqs[me.r])
      ensures me.Handler? ==> EntryOf(resmap, reqs[me.r].name) == old(EntryOf(resmap, reqs[me.r].name))
      ensures ran ==> k < |sessions| && sessions[k].mig == m && sessions[k].created == migs[m].created
      ensures ran && me.Handler? ==> sessions[k].target == sessions[k].created
      ensures used == old(used) + 1 && (ran ==> env(old(used)) && old(migs[m].name in pods))
      ensures old(Calm()) ==> Calm() && (ran <==> env(old(used)) && old(migs[m].name in pods) && old(busy).None?)
    {
      k := 0;
      ran := AwaitPod(m);
      if !ran { return; }
      Others(me);
      ran, k := RunSession(m, me);
    }

    /** exec as far as this object goes: it holds the port from its start to its end. */
    method RunSession(m: nat, me: Actor) returns (ran: bool, k: nat)
      requires Reachable(View()) && m < |migs| && migs[m].pc.MExec?
      requires me == Goroutine(m) || (me.Handler? && me.inline == Some(m) && me.r < |reqs| && reqs[me.r].pc == Join(m))
      modifies this
      ensures Reachable(View()) && m < |migs| && migs[m] == old(migs[m]).(pc := MEnd)
      ensures me.Handler? ==> me.r < |reqs| && reqs[me.r] == old(reqs[me.r])
      ensures me.Handler? ==> EntryOf(resmap, reqs[me.r].name) == old(EntryOf(resmap, reqs[me.r].name))
      ensures ran ==> k < |sessions| && sessions[k].mig == m && sessions[k].created == migs[m].created
      ensures ran && me.Handler? ==> sessions[k].target == sessions[k].created
      ensures (ran <==> old(busy).None?) && used == old(used) && (old(Calm()) ==> Calm())
    {
      ran, k := Exec(m, me);
      if ran {
        Others(me);
        Ends(m);
      }
    }

    /** WaitForPodReady */
    method AwaitPod(m: nat) returns (ok: bool)
      requires Reachable(View()) && m < |migs| && migs[m].pc.MReady?
      modifies this`migs, this`used
      ensures Reachable(View()) && migs == old(migs[m := migs[m].(pc := if ok then MExec else MEnd)])
      ensures used == old(used) + 1 && (ok <==> env(old(used)) && old(migs[m].name) in pods)
    {
      ok := Ask();
      ok := ok && migs[m].name in pods;
      ExtendReachable(View(), MigReady(m, ok));
      migs := migs[m := migs[m].(pc := if ok then MExec else MEnd)];
    }

    /** The start of exec: it has the resume signal port, or gives up. */
    method Exec(m: nat, me: Actor) returns (ran: bool, k: nat)
      requires Reachable(View()) && m < |migs| && migs[m].pc.MExec?
      requires me.Handler? ==> me.r < |reqs| && reqs[me.r].pc == Join(m)
      modifies this`migs, this`sessions, this`busy
      ensures Reachable(View()) && |migs| == old(|migs|)
      ensures migs[m] == old(migs[m]).(pc := if ran then MRunning else MEnd)
      ensures ran <==> old(busy).None?
      ensures |sessions| == old(|sessions|) + (if ran then 1 else 0)
      ensures ran ==> k < |sessions| && sessions[k].mig == m && sessions[k].created == migs[m].created
      ensures ran && me.Handler? ==> sessions[k].target == sessions[k].created
    {
      var g := migs[m];
      k, ran := |sessions|, busy.None?;
      ExtendReachable(View(), MigExec(m));
      if me.Handler? { I.LockedRestoreIsFresh(View(), me.r); }
      if ran {
        sessions := sessions + [Session(m, g.created, if g.name in pods then Some(pods[g.name]) else None)];
        busy := Some(m);
      }
      migs := migs[m := g.(pc := if ran then MRunning else MEnd)];
    }

    method Ends(m: nat)
      requires Reachable(View()) && m < |migs| && migs[m].pc.MRunning?
      modifies this`migs, this`busy
      ensures Reachable(View()) && migs == old(migs[m := migs[m].(pc := MEnd)])
    {
      ExtendReachable(View(), MigEnd(m));
      migs := migs[m := migs[m].(pc := MEnd)];
      busy := None;
    }

    /**
     DeployLM. It restores under the lock, so a session that it runs is into the pod it created,
     and no other session is.
     */
    method DeployLM(r: nat) returns (done: bool, ran: bool, k: nat)
      requires Reachable(View()) && r < |reqs| && reqs[r].kind.LM? && reqs[r].pc.Arrive?
      modifies this
      ensures Reachable(View()) && r < |reqs|
      ensures done ==> reqs[r].pc.Gone? && EntryOf(resmap, reqs[r].name).lock.None?
      ensures done ==> Open(svcs, EntryOf(resmap, reqs[r].name).svc, reqs[r].name)
      ensures ran ==> done && k < |sessions| && sessions[k].created.Some? && sessions[k].target == sessions[k].created
      ensures ran ==> forall j :: 0 <= j < |sessions| && j != k ==> sessions[j].created != sessions[k].created
      ensures old(Calm()) && done && AllYes(old(used), used) && old(reqs[r].name !in pods && busy.None?) ==> ran
      ensures done && AllYes(old(used), used) ==> EntryOf(resmap, reqs[r].name).svc.Some?
      ensures old(Calm()) ==> (done <==> old(EntryOf(resmap, reqs[r].name).lock).None?)
      ensures !done ==> Calm() && EntryOf(resmap, reqs[r].name).lock.Some?
    {
      ran, k := false, 0;
      done := Enter(r);
      if !done { return; }
      var ok := NewClient(r);
      Others(Handler(r, None));
      if !ok {
        GiveUp(r);
        return;
      }
      LockFacts(View(), r);
      var newPod := Provide(r);
      if newPod {
        ran, k := Inline(r);
        if ran { SessionFacts(View(), k); }
      } else {
        Settle(r);
      }
    }

    /** ExecLM inside the handler. */
    method Inline(r: nat) returns (ran: bool, k: nat)
      requires Reachable(View()) && r < |reqs| && reqs[r].pc.AfterSvc? && reqs[r].kind.LM? && reqs[r].created.Some?
      modifies this
      ensures Reachable(View()) && r < |reqs| && reqs[r].pc.Gone?
      ensures EntryOf(resmap, reqs[r].name).lock.None? && Open(svcs, EntryOf(resmap, reqs[r].name).svc, reqs[r].name)
      ensures ran ==> k < |sessions| && sessions[k].created.Some? && sessions[k].target == sessions[k].created
      ensures used == old(used) + 1 && EntryOf(resmap, reqs[r].name).svc == old(EntryOf(resmap, reqs[r].name).svc)
      ensures old(Calm()) ==> (ran <==> env(old(used)) && old(reqs[r].name in pods && busy.None?))
    {
      var m := Spawn(r);
      ran, k := RunInline(r, m);
      JoinAndLeave(r);
      if ran { SessionFacts(View(), k); }
    }

    method RunInline(r: nat, m: nat) returns (ran: bool, k: nat)
      requires Reachable(View()) && r < |reqs| && reqs[r].pc == Join(m) && m < |migs| && migs[m].pc.MReady?
      modifies this
      ensures Reachable(View()) && r < |reqs| && reqs[r] == old(reqs[r]) && m < |migs| && migs[m].pc.MEnd?
      ensures EntryOf(resmap, reqs[r].name) == old(EntryOf(resmap, reqs[r].name))
      ensures ran ==> k < |sessions| && sessions[k].target == sessions[k].created
      ensures used == old(used) + 1
      ensures old(Calm()) ==> (ran <==> env(old(used)) && old(migs[m].name in pods && busy.None?))
    {
      ran, k := Migrate(m, Handler(r, Some(m)));
    }

    method JoinAndLeave(r: nat)
      requires Reachable(View()) && r < |reqs| && reqs[r].pc.Join? && MigAt(View(), reqs[r].pc.m, MEnd)
      modifies this`resmap, this`reqs
      ensures Reachable(View()) && |reqs| == old(|reqs|) && reqs[r] == old(reqs[r]).(pc := Gone)
      ensures EntryOf(resmap, reqs[r].name) == Entry(None, old(EntryOf(resmap, reqs[r].name).svc))
      ensures Open(svcs, EntryOf(resmap, reqs[r].name).svc, reqs[r].name)
    {
      CurrentIsOpen(View(), r);
      ExtendReachable(View(), Joined(r));
      reqs := reqs[r := reqs[r].(pc := Unlock)];
      Leave(r);
    }

    method Spawn(r: nat) returns (m: nat)
      requires Reachable(View()) && r < |reqs| && reqs[r].pc.AfterSvc? && reqs[r].kind.LM? && reqs[r].created.Some?
      modifies this`reqs, this`migs
      ensures Reachable(View()) && m < |migs| && migs[m] == Mig(old(reqs[r].name), MReady, old(reqs[r].created))
      ensures |reqs| == old(|reqs|) && reqs[r] == old(reqs[r]).(pc := Join(m), created := None)
    {
      var q := reqs[r];
      m := |migs|;
      ExtendReachable(View(), Proceed(r));
      reqs := reqs[r := q.(pc := Join(m), created := None)];
      migs := migs + [Mig(q.name, MReady, q.created)];
    }

    /** DeployFwdLM up to its return; the goroutine it leaves behind has nothing yet. */
    method DeployFwdLM(r: nat) returns (done: bool, m: nat)
      requires Reachable(View()) && r < |reqs| && reqs[r].kind.FwdLM? && reqs[r].pc.Arrive?
      modifies this
      ensures Reachable(View()) && r < |reqs|
      ensures done ==> reqs[r].pc.Gone? && EntryOf(resmap, reqs[r].name).lock.None?
      ensures done ==> Open(svcs, EntryOf(resmap, reqs[r].name).svc, reqs[r].name)
      ensures done ==> m < |migs| && migs[m] == Mig(reqs[r].name, MClient, None)
      ensures done && AllYes(old(used), used) ==> EntryOf(resmap, reqs[r].name).svc.Some?
      ensures old(Calm()) ==> (done <==> old(EntryOf(resmap, reqs[r].name).lock).None?)
      ensures !done ==> Calm() && EntryOf(resmap, reqs[r].name).lock.Some?
    {
      m := 0;
      done := Enter(r);
      if !done { return; }
      Others(Handler(r, None));
      EnsureService(r);
      Others(Handler(r, None));
      m := HandOver(r);
    }

    method HandOver(r: nat) returns (m: nat)
      requires Reachable(View()) && r < |reqs| && reqs[r].pc.AfterSvc? && reqs[r].kind.FwdLM?
      modifies this`reqs, this`migs, this`resmap
      ensures Reachable(View()) && |reqs| == old(|reqs|) && reqs[r] == old(reqs[r]).(pc := Gone)
      ensures EntryOf(resmap, reqs[r].name) == Entry(None, old(EntryOf(resmap, reqs[r].name).svc))
      ensures Open(svcs, EntryOf(resmap, reqs[r].name).svc, reqs[r].name)
      ensures m < |migs| && migs[m] == Mig(reqs[r].name, MClient, None)
    {
      m := SpawnBackground(r);
      GiveUp(r);
    }

    /** go func() */
    method SpawnBackground(r: nat) returns (m: nat)
      requires Reachable(View()) && r < |reqs| && reqs[r].pc.AfterSvc? && reqs[r].kind.FwdLM?
      modifies this`reqs, this`migs
      ensures Reachable(View()) && m < |migs| && migs[m] == Mig(old(reqs[r].name), MClient, None)
      ensures reqs == old(reqs[r := reqs[r].(pc := Unlock)])
    {
      m := |migs|;
      ExtendReachable(View(), Proceed(r));
      migs := migs + [Mig(reqs[r].name, MClient, None)];
      reqs := reqs[r := reqs[r].(pc := Unlock)];
    }

    /** That goroutine: at most one session, and only after it created a pod. */
    method Background(m: nat) returns (ran: bool, k: nat)
      requires Reachable(View()) && m < |migs| && migs[m].pc.MClient?
      modifies this
      ensures Reachable(View()) && m < |migs| && migs[m].pc.MEnd?
      ensures ran ==> k < |sessions| && sessions[k].mig == m && migs[m].created.Some? && sessions[k].created == migs[m].created
      ensures ran ==> forall j :: 0 <= j < |sessions| && sessions[j].mig == m ==> j == k
      ensures old(Calm()) && AllYes(old(used), used) && old(migs[m].name !in pods && busy.None?) ==> ran
    {
      k := 0;
      ran := BackgroundClient(m);
      if !ran { return; }
      Others(Goroutine(m));
      ran, k := BackgroundRest(m);
    }

    method BackgroundRest(m: nat) returns (ran: bool, k: nat)
      requires Reachable(View()) && m < |migs| && migs[m].pc.MCreate?
      modifies this
      ensures Reachable(View()) && m < |migs| && migs[m].pc.MEnd?
      ensures ran ==> k < |sessions| && sessions[k].mig == m && migs[m].created.Some? && sessions[k].created == migs[m].created
      ensures ran ==> forall j :: 0 <= j < |sessions| && sessions[j].mig == m ==> j == k
      ensures old(used) <= used
      ensures old(Calm()) && env(old(used)) && env(old(used) + 1) && old(migs[m].name !in pods && busy.None?) ==> ran
      ensures ran ==> used == old(used) + 2
      ensures !env(old(used)) ==> used == old(used) + 1
      ensures env(old(used)) && old(migs[m].name !in pods) ==> used == old(used) + 2
    {
      k := 0;
      ran := Create(m);
      if !ran { return; }
      Others(Goroutine(m));
      ran, k := Migrate(m, Goroutine(m));
      if ran { SessionFacts(View(), k); }
    }

    method BackgroundClient(m: nat) returns (ok: bool)
      requires Reachable(View()) && m < |migs| && migs[m].pc.MClient?
      modifies this`migs, this`used
      ensures Reachable(View()) && migs == old(migs[m := migs[m].(pc := if ok then MCreate else MEnd)])
      ensures ok == env(old(used)) && used == old(used) + 1
    {
      ok := Ask();
      ExtendReachable(View(), MigClient(m, ok));
      migs := migs[m := migs[m].(pc := if ok then MCreate else MEnd)];
    }

    /** createNewPod of the goroutine, without the lock. */
    method Create(m: nat) returns (newPod: bool)
      requires Reachable(View()) && m < |migs| && migs[m].pc.MCreate?
      modifies this`migs, this`pods, this`nextInc, this`used
      ensures Reachable(View()) && |migs| == old(|migs|)
      ensures migs[m].pc == (if newPod then MReady else MEnd) && migs[m].name == old(migs[m].name)
      ensures newPod <==> env(old(used)) && old(migs[m].name) !in old(pods)
      ensures newPod ==> pods == old(pods)[migs[m].name := old(nextInc)] && migs[m].created == Some(old(nextInc))
      ensures !newPod ==> pods == old(pods)
      ensures used == old(used) + 1
    {
      var g := migs[m];
      newPod := Ask();
      newPod := newPod && g.name !in pods;
      ExtendReachable(View(), MigCreate(m, newPod));
      if newPod {
        migs := migs[m := g.(pc := MReady, created := Some(nextInc))];
        pods := pods[g.name := nextInc];
        nextInc := nextInc + 1;
      } else {
        migs := migs[m := g.(pc := MEnd)];
      }
    }

    /**
     Remove. When it has a client, the name has no service left: every one ever started under it was
     closed exactly once.
     */
    method Remove(r: nat) returns (done: bool, ok: bool, deleted: bool)
      requires Reachable(View()) && r < |reqs| && reqs[r].kind.Remove? && reqs[r].pc.Arrive?
      modifies this
      ensures Reachable(View()) && r < |reqs|
      ensures done ==> reqs[r].pc.Gone? && EntryOf(resmap, reqs[r].name).lock.None?
      ensures done && ok ==> EntryOf(resmap, reqs[r].name).svc.None?
      ensures done && ok ==> Emptied(reqs[r].name)
      ensures done ==> ok == env(old(used)) && (ok ==> deleted == env(old(used) + 1))
      ensures old(Calm()) ==> (done <==> old(EntryOf(resmap, reqs[r].name).lock).None?)
      ensures old(Calm()) && done && ok && deleted ==> pods == old(pods - {reqs[r].name})
      ensures !done ==> Calm() && EntryOf(resmap, reqs[r].name).lock.Some?
    {
      ok, deleted := false, false;
      done := Enter(r);
      if done { ok, deleted := RemoveLocked(r); }
    }

    /** Every service that was ever started under the name was closed exactly once. */
    ghost predicate Emptied(n: Name)
      reads this
    {
      forall i :: 0 <= i < |svcs| && svcs[i].name == n ==> svcs[i].closes == 1
    }

    method RemoveLocked(r: nat) returns (ok: bool, deleted: bool)
      requires Reachable(View()) && r < |reqs| && reqs[r].kind.Remove? && reqs[r].pc.Client?
      modifies this
      ensures Reachable(View()) && r < |reqs| && reqs[r].name == old(reqs[r].name)
      ensures reqs[r].pc.Gone? && EntryOf(resmap, reqs[r].name).lock.None?
      ensures ok ==> EntryOf(resmap, reqs[r].name).svc.None? && Emptied(reqs[r].name)
      ensures ok == env(old(used)) && (ok ==> deleted == env(old(used) + 1))
      ensures old(Calm()) && ok && deleted ==> pods == old(pods - {reqs[r].name})
    {
      deleted := false;
      ok := NewClient(r);
      Others(Handler(r, None));
      if ok {
        deleted := Dismantle(r);
        LeaveEmpty(r);
      } else {
        Leave(r);
      }
    }

    method LeaveEmpty(r: nat)
      requires Reachable(View()) && r < |reqs| && reqs[r].pc.Unlock? && EntryOf(resmap, reqs[r].name).svc.None?
      modifies this`resmap, this`reqs
      ensures Reachable(View()) && |reqs| == old(|reqs|) && reqs[r] == old(reqs[r]).(pc := Gone)
      ensures EntryOf(resmap, reqs[r].name) == Entry(None, None)
      ensures Emptied(reqs[r].name)
    {
      AllClosed(View(), r);
      Leave(r);
    }

    /** The service and the pod. */
    method Dismantle(r: nat) returns (deleted: bool)
      requires Reachable(View()) && r < |reqs| && reqs[r].pc.CloseSvc?
      modifies this
      ensures Reachable(View()) && r < |reqs| && reqs[r] == old(reqs[r]).(pc := Unlock)
      ensures EntryOf(resmap, reqs[r].name).svc.None?
      ensures deleted == env(old(used))
      ensures old(Calm()) && deleted ==> pods == old(pods - {reqs[r].name})
    {
      CloseCurrent(r);
      Others(Handler(r, None));
      deleted := Delete(r);
      Others(Handler(r, None));
    }

    /** Closes the current service, if there is one, and forgets it. */
    method CloseCurrent(r: nat)
      requires Reachable(View()) && r < |reqs| && reqs[r].pc.CloseSvc?
      modifies this
      ensures Reachable(View()) && r < |reqs| && reqs[r] == old(reqs[r]).(pc := DelPod)
      ensures EntryOf(resmap, reqs[r].name).svc.None? && used == old(used)
      ensures old(Calm()) ==> Calm() && pods == old(pods)
    {
      var closed := Close(r);
      if closed {
        Others(Handler(r, None));
        Forget(r);
      }
    }

    /** Close of the current service, for the first time. */
    method Close(r: nat) returns (closed: bool)
      requires Reachable(View()) && r < |reqs| && reqs[r].pc.CloseSvc?
      modifies this`svcs, this`reqs
      ensures Reachable(View()) && |reqs| == old(|reqs|) && closed == EntryOf(resmap, reqs[r].name).svc.Some?
      ensures reqs[r] == old(reqs[r]).(pc := if closed then ClearSvc else DelPod)
      ensures closed ==> Closes(old(svcs), svcs, EntryOf(resmap, reqs[r].name).svc.value, reqs[r].name)
      ensures !closed ==> svcs == old(svcs)
    {
      var svc := EntryOf(resmap, reqs[r].name).svc;
      CloseStep(View(), r, reqs[r].name, svc);
      closed := svc.Some?;
      if closed { svcs := svcs[svc.value := svcs[svc.value].(closes := svcs[svc.value].closes + 1)]; }
      reqs := reqs[r := reqs[r].(pc := if closed then ClearSvc else DelPod)];
    }

    /** res.fwdsvc = nil */
    method Forget(r: nat)
      requires Reachable(View()) && r < |reqs| && reqs[r].pc.ClearSvc?
      modifies this`resmap, this`reqs
      ensures Reachable(View()) && reqs == old(reqs[r := reqs[r].(pc := DelPod)])
      ensures EntryOf(resmap, reqs[r].name).svc.None?
    {
      ExtendReachable(View(), DoClear(r));
      resmap := resmap[reqs[r].name := EntryOf(resmap, reqs[r].name).(svc := None)];
      reqs := reqs[r := reqs[r].(pc := DelPod)];
    }

    method Delete(r: nat) returns (ok: bool)
      requires Reachable(View()) && r < |reqs| && reqs[r].pc.DelPod?
      modifies this`reqs, this`pods, this`used
      ensures Reachable(View()) && reqs == old(reqs[r := reqs[r].(pc := Unlock)])
      ensures ok == env(old(used)) && used == old(used) + 1
      ensures pods == if ok then old(pods - {reqs[r].name}) else old(pods)
    {
      ok := Ask();
      ExtendReachable(View(), DeletePod(r, ok));
      if ok { pods := pods - {reqs[r].name}; }
      reqs := reqs[r := reqs[r].(pc := Unlock)];
    }

    /** Any interleaving of all of them. */
    method Schedule(turns: seq<Action>)
      requires Reachable(View())
      modifies this
      ensures Reaches(old(View()), View()) && I.Inv(View())
      ensures View() == Played(old(View()), turns, None)
    {
      ReachesItself(View());
      for i := 0 to |turns|
        invariant Reachable(View()) && Reaches(old(View()), View())
        invariant Played(View(), turns[i..], None) == Played(old(View()), turns, None)
      {
        PlaysOne(View(), turns, i, None);
        var open := CanRun(turns[i]);
        if open {
          Extend(old(View()), View(), turns[i]);
          Take(turns[i]);
        }
      }
      I.ReachableInv(View());
    }
  }
}
