/**
 The request handlers of server/api-core.go as steps over the entry map: any number of concurrent
 deploy and remove requests on any names, and the migration goroutines that run outside the entry
 lock. Kubernetes creates a pod atomically; each creation under a name is a new incarnation.
 */
module ApiCore {
  import opened Basics

  type Name = nat

  datatype Kind = New | Fwd | LM | FwdLM | Remove

  datatype ReqPc =
    | Arrive | WantLock
    | Client | MakePod | Check | Store | AfterSvc | Join(m: nat)
    | CloseSvc | ClearSvc | DelPod
    | Unlock | Gone

  /** held: a service just started; created: the pod incarnation it created. */
  datatype Req = Req(kind: Kind, name: Name, pc: ReqPc, held: Option<nat>, created: Option<nat>)

  datatype MigPc = MClient | MCreate | MReady | MExec | MRunning | MEnd

  /** The part of a migration that creates the pod and restores into it. */
  datatype Mig = Mig(name: Name, pc: MigPc, created: Option<nat>)

  /** DeployResource: its mutex and its fwdsvc field. */
  datatype Entry = Entry(lock: Option<nat>, svc: Option<nat>)

  datatype Svc = Svc(name: Name, closes: nat)

  /** A restore session that got past its listener: who ran it and the pod it ran into. */
  datatype Session = Session(mig: nat, created: Option<nat>, target: Option<nat>)

  datatype State = State(
    entries: map<Name, Entry>,
    reqs: seq<Req>,
    migs: seq<Mig>,
    svcs: seq<Svc>,
    pods: map<Name, nat>,
    nextInc: nat,
    sessions: seq<Session>,
    busy: Option<nat>)          // whose exec has the resume signal port

  datatype Action =
    | Load(r: nat) | Lock(r: nat)
    | GetClient(r: nat, ok: bool) | CreatePod(r: nat, ok: bool)
    | StartSvc(r: nat, ok: bool) | StoreSvc(r: nat) | Proceed(r: nat) | Joined(r: nat)
    | DoClose(r: nat) | DoClear(r: nat) | DeletePod(r: nat, ok: bool) | Release(r: nat)
    | MigClient(m: nat, ok: bool) | MigCreate(m: nat, ok: bool) | MigReady(m: nat, ok: bool)
    | MigExec(m: nat) | MigEnd(m: nat)

  predicate IsMig(a: Action) { a.MigClient? || a.MigCreate? || a.MigReady? || a.MigExec? || a.MigEnd? }

  predicate ReqAt(s: State, r: nat, pc: ReqPc) { r < |s.reqs| && s.reqs[r].pc == pc }

  predicate MigAt(s: State, m: nat, pc: MigPc) { m < |s.migs| && s.migs[m].pc == pc }

  function EntryOf(es: map<Name, Entry>, n: Name): Entry { if n in es then es[n] else Entry(None, None) }

  predicate Enabled(s: State, a: Action) {
    match a
    case Load(r) => ReqAt(s, r, Arrive)
    case Lock(r) => ReqAt(s, r, WantLock) && EntryOf(s.entries, s.reqs[r].name).lock.None?
    case GetClient(r, _) => ReqAt(s, r, Client)
    case CreatePod(r, ok) => ReqAt(s, r, MakePod) && (ok ==> s.reqs[r].name !in s.pods)
    case StartSvc(r, _) => ReqAt(s, r, Check)
    case StoreSvc(r) => ReqAt(s, r, Store)
    case Proceed(r) => ReqAt(s, r, AfterSvc)
    case Joined(r) => r < |s.reqs| && s.reqs[r].pc.Join? && MigAt(s, s.reqs[r].pc.m, MEnd)
    case DoClose(r) => ReqAt(s, r, CloseSvc)
    case DoClear(r) => ReqAt(s, r, ClearSvc)
    case DeletePod(r, _) => ReqAt(s, r, DelPod)
    case Release(r) => ReqAt(s, r, Unlock)
    case MigClient(m, _) => MigAt(s, m, MClient)
    case MigCreate(m, ok) => MigAt(s, m, MCreate) && (ok ==> s.migs[m].name !in s.pods)
    case MigReady(m, ok) => MigAt(s, m, MReady) && (ok ==> s.migs[m].name in s.pods)
    case MigExec(m) => MigAt(s, m, MExec)
    case MigEnd(m) => MigAt(s, m, MRunning)
  }

  function SetReq(s: State, r: nat, q: Req): State
    requires r < |s.reqs|
  {
    s.(reqs := s.reqs[r := q])
  }

  function Goto(s: State, r: nat, pc: ReqPc): State
    requires r < |s.reqs|
  {
    SetReq(s, r, s.reqs[r].(pc := pc))
  }

  function SetEntry(s: State, n: Name, e: Entry): State { s.(entries := s.entries[n := e]) }

  function MigGoto(s: State, m: nat, pc: MigPc): State
    requires m < |s.migs|
  {
    s.(migs := s.migs[m := s.migs[m].(pc := pc)])
  }

  /** The first thing a handler does with the lock. */
  function AfterLock(k: Kind): ReqPc { if k.Fwd? || k.FwdLM? then Check else Client }

  function ReqNext(s: State, a: Action): State
    requires !IsMig(a) && Enabled(s, a)
  {
    var q := s.reqs[a.r];
    match a
    case Load(r) => SetEntry(Goto(s, r, WantLock), q.name, EntryOf(s.entries, q.name))
    case Lock(r) => SetEntry(Goto(s, r, AfterLock(q.kind)), q.name, EntryOf(s.entries, q.name).(lock := Some(r)))
    case GetClient(r, ok) =>
      Goto(s, r, if !ok then Unlock else if q.kind.Remove? then CloseSvc else MakePod)
    case CreatePod(r, ok) =>
      if ok then SetReq(s, r, q.(pc := Check, created := Some(s.nextInc)))
                 .(pods := s.pods[q.name := s.nextInc], nextInc := s.nextInc + 1)
      else Goto(s, r, Check)
    case StartSvc(r, ok) =>
      if EntryOf(s.entries, q.name).svc.Some? || !ok then Goto(s, r, AfterSvc)
      else SetReq(s, r, q.(pc := Store, held := Some(|s.svcs|))).(svcs := s.svcs + [Svc(q.name, 0)])
    case StoreSvc(r) =>
      SetEntry(SetReq(s, r, q.(pc := AfterSvc, held := None)), q.name, EntryOf(s.entries, q.name).(svc := q.held))
    case Proceed(r) =>
      if q.kind.FwdLM? then Goto(s, r, Unlock).(migs := s.migs + [Mig(q.name, MClient, None)])
      else if q.kind.LM? && q.created.Some? then
        SetReq(s, r, q.(pc := Join(|s.migs|), created := None)).(migs := s.migs + [Mig(q.name, MReady, q.created)])
      else Goto(s, r, Unlock)
    case Joined(r) => Goto(s, r, Unlock)
    case DoClose(r) =>
      var svc := EntryOf(s.entries, q.name).svc;
      if svc.Some? && svc.value < |s.svcs| then
        Goto(s, r, ClearSvc).(svcs := s.svcs[svc.value := s.svcs[svc.value].(closes := s.svcs[svc.value].closes + 1)])
      else Goto(s, r, DelPod)
    case DoClear(r) => SetEntry(Goto(s, r, DelPod), q.name, EntryOf(s.entries, q.name).(svc := None))
    case DeletePod(r, ok) => if ok then Goto(s, r, Unlock).(pods := s.pods - {q.name}) else Goto(s, r, Unlock)
    case Release(r) => SetEntry(Goto(s, r, Gone), q.name, EntryOf(s.entries, q.name).(lock := None))
  }

  function MigNext(s: State, a: Action): State
    requires IsMig(a) && Enabled(s, a)
  {
    var g := s.migs[a.m];
    match a
    case MigClient(m, ok) => MigGoto(s, m, if ok then MCreate else MEnd)
    case MigCreate(m, ok) =>
      if ok then s.(migs := s.migs[m := g.(pc := MReady, created := Some(s.nextInc))],
                    pods := s.pods[g.name := s.nextInc], nextInc := s.nextInc + 1)
      else MigGoto(s, m, MEnd)
    case MigReady(m, ok) => MigGoto(s, m, if ok then MExec else MEnd)
    case MigExec(m) =>
      if s.busy.Some? then MigGoto(s, m, MEnd)
      else MigGoto(s, m, MRunning).(busy := Some(m), sessions := s.sessions + [Session(m, g.created, PodOf(s, g.name))])
    case MigEnd(m) => MigGoto(s, m, MEnd).(busy := None)
  }

  function PodOf(s: State, n: Name): Option<nat> { if n in s.pods then Some(s.pods[n]) else None }

  function Next(s: State, a: Action): State
    requires Enabled(s, a)
  {
    if IsMig(a) then MigNext(s, a) else ReqNext(s, a)
  }

  /** Nothing has happened yet; any requests are about to arrive. */
  predicate Initial(s: State) {
    && s.entries == map[] && s.migs == [] && s.svcs == [] && s.pods == map[] && s.nextInc == 0
    && s.sessions == [] && s.busy == None
    && forall r :: 0 <= r < |s.reqs| ==> s.reqs[r] == Req(s.reqs[r].kind, s.reqs[r].name, Arrive, None, None)
  }

  // ---------------------------------------------------------------- runs

  predicate Legal(s: State, acts: seq<Action>)
    decreases |acts|
  {
    acts != [] ==> Enabled(s, acts[0]) && Legal(Next(s, acts[0]), acts[1..])
  }

  function After(s: State, acts: seq<Action>): State
    requires Legal(s, acts)
    decreases |acts|
  {
    if acts == [] then s else After(Next(s, acts[0]), acts[1..])
  }

  ghost predicate Reaches(s: State, t: State) {
    exists acts: seq<Action> :: Legal(s, acts) && After(s, acts) == t
  }

  ghost predicate Reachable(s: State) { exists s0: State :: Initial(s0) && Reaches(s0, s) }

  lemma ReachesItself(s: State)
    ensures Reaches(s, s)
  {
    assert Legal(s, []) && After(s, []) == s;
  }

  lemma {:induction false} AppendStep(s: State, acts: seq<Action>, a: Action)
    requires Legal(s, acts) && Enabled(After(s, acts), a)
    ensures Legal(s, acts + [a]) && After(s, acts + [a]) == Next(After(s, acts), a)
    decreases |acts|
  {
    if acts == [] {
      assert Legal(Next(s, a), []);
      assert [a][1..] == [];
    } else {
      AppendStep(Next(s, acts[0]), acts[1..], a);
      assert (acts + [a])[1..] == acts[1..] + [a];
    }
  }

  lemma Extend(s: State, t: State, a: Action)
    requires Reaches(s, t) && Enabled(t, a)
    ensures Reaches(s, Next(t, a))
  {
    var acts: seq<Action> :| Legal(s, acts) && After(s, acts) == t;
    AppendStep(s, acts, a);
  }

  lemma ExtendReachable(t: State, a: Action)
    requires Reachable(t) && Enabled(t, a)
    ensures Reachable(Next(t, a))
  {
    var s0: State :| Initial(s0) && Reaches(s0, t);
    Extend(s0, t, a);
  }
}
