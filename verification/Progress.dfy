/**
 Fair infinite runs of a migration (server/lm.go:67-200): it ends, unless exec stays for ever in its
 call of Suspend or of CloseAllForwarders; and when it does not stay there.
 */
module Progress {
  import opened Basics
  import opened Migration
  import opened Ending
  import D = Dump
  import R = Restore
  import S = Session
  import V = Service
  import H = Handshake
  import T = Traffic
  import W = Waiters
  import N = Answer
  import O = ServiceObject
  import E = Returns

  datatype Label = Act(a: Action) | Stutter

  ghost predicate StepAt(ms: nat -> State, ls: nat -> Label, n: nat) {
    match ls(n)
    case Act(a) => Enabled(ms(n), a) && ms(n + 1) == Next(ms(n), a)
    case Stutter => ms(n + 1) == ms(n)
  }

  ghost predicate IsRun(ms: nat -> State, ls: nat -> Label) {
    Reachable(ms(0)) && forall n: nat :: StepAt(ms, ls, n)
  }

  // ---------------------------------------------------------------- fairness

  /** exec; the dump side; whoever holds the mutex of the condition variable; the listener. */
  datatype Group = Exec | Dump | Owner | Listener

  predicate Of(s: State, g: Group, a: Action) {
    match g
    case Exec => IsExec(s, a)
    case Dump => IsDump(s, a)
    case Owner => IsOwner(s, a)
    case Listener => a.Svc? && V.IsListener(a.b)
  }

  ghost predicate Blocked(s: State, g: Group) { forall a :: Of(s, g, a) ==> !Enabled(s, a) }

  predicate Acts(s: State, g: Group, l: Label) { l.Act? && Of(s, g, l.a) }

  predicate NoAct(ms: nat -> State, ls: nat -> Label, g: Group, n: nat) { !Acts(ms(n), g, ls(n)) }

  /** g does nothing from n up to m. */
  ghost predicate Idle(ms: nat -> State, ls: nat -> Label, g: Group, n: nat, m: nat) {
    forall i: nat :: n <= i < m ==> NoAct(ms, ls, g, i)
  }

  ghost predicate Served(ms: nat -> State, ls: nat -> Label, g: Group, n: nat) {
    exists m: nat :: m >= n && (Blocked(ms(m), g) || Acts(ms(m), g, ls(m)))
  }

  /** Who can go on without a failure is scheduled again. */
  ghost predicate Fair(ms: nat -> State, ls: nat -> Label) {
    forall g: Group, n: nat :: Served(ms, ls, g, n)
  }

  lemma Scheduled(ms: nat -> State, ls: nat -> Label, g: Group, n: nat) returns (m: nat, blocked: bool)
    requires Fair(ms, ls)
    ensures m >= n && if blocked then Blocked(ms(m), g) else Acts(ms(m), g, ls(m))
  {
    assert Served(ms, ls, g, n);
    m :| m >= n && (Blocked(ms(m), g) || Acts(ms(m), g, ls(m)));
    blocked := Blocked(ms(m), g);
  }

  lemma ExtendReachable(s: State, a: Action)
    requires Reachable(s) && Enabled(s, a)
    ensures Reachable(Next(s, a))
  {
    var s0: State, acts: seq<Action> :| Initial(s0) && Legal(s0, acts) && After(s0, acts) == s;
    Overtake.AppendStep(s0, acts, a);
  }

  lemma {:induction false} RunReaches(ms: nat -> State, ls: nat -> Label, n: nat)
    requires IsRun(ms, ls)
    ensures Reachable(ms(n)) && ms(n).c == ms(0).c
  {
    if n > 0 {
      RunReaches(ms, ls, n - 1);
      assert StepAt(ms, ls, n - 1);
      if ls(n - 1).Act? {
        ExtendReachable(ms(n - 1), ls(n - 1).a);
        StepProjects(ms(n - 1), ls(n - 1).a);
      }
    }
  }

  // ---------------------------------------------------------------- what holds until somebody acts

  /** P is kept by every step that A allows. */
  ghost predicate KeptBy(P: State -> bool, A: (State, Action) -> bool, s: State, a: Action) {
    P(s) && Reachable(s) && Enabled(s, a) && A(s, a) ==> P(Next(s, a))
  }

  ghost predicate Kept(P: State -> bool, A: (State, Action) -> bool) {
    forall s: State, a: Action :: KeptBy(P, A, s, a)
  }

  predicate Allowed(ms: nat -> State, ls: nat -> Label, A: (State, Action) -> bool, n: nat) {
    ls(n).Act? ==> A(ms(n), ls(n).a)
  }

  lemma {:induction false} StaysWhile(ms: nat -> State, ls: nat -> Label, A: (State, Action) -> bool, P: State -> bool, k: nat, j: nat)
    requires IsRun(ms, ls) && Kept(P, A) && P(ms(k)) && k <= j
    requires forall i: nat :: k <= i < j ==> Allowed(ms, ls, A, i)
    ensures P(ms(j))
    decreases j
  {
    if k < j {
      StaysWhile(ms, ls, A, P, k, j - 1);
      StepKeeps(ms, ls, A, P, j - 1);
    }
  }

  lemma StepKeeps(ms: nat -> State, ls: nat -> Label, A: (State, Action) -> bool, P: State -> bool, n: nat)
    requires IsRun(ms, ls) && Kept(P, A) && P(ms(n)) && Allowed(ms, ls, A, n)
    ensures P(ms(n + 1))
  {
    assert StepAt(ms, ls, n);
    RunReaches(ms, ls, n);
    if ls(n).Act? { assert KeptBy(P, A, ms(n), ls(n).a); }
  }

  function Not(g: Group): (State, Action) -> bool { (s: State, a: Action) => !Of(s, g, a) }

  /** P holds as long as g does nothing. */
  lemma StaysIdle(ms: nat -> State, ls: nat -> Label, g: Group, P: State -> bool, k: nat, j: nat)
    requires IsRun(ms, ls) && Kept(P, Not(g)) && P(ms(k)) && k <= j && Idle(ms, ls, g, k, j)
    ensures P(ms(j))
  {
    forall i: nat | k <= i < j ensures Allowed(ms, ls, Not(g), i) { assert NoAct(ms, ls, g, i); }
    StaysWhile(ms, ls, Not(g), P, k, j);
  }

  lemma {:induction false} FirstAct(ms: nat -> State, ls: nat -> Label, g: Group, n: nat, m: nat) returns (k: nat)
    requires n <= m && Acts(ms(m), g, ls(m))
    ensures n <= k <= m && Acts(ms(k), g, ls(k)) && Idle(ms, ls, g, n, k)
    decreases m - n
  {
    if Acts(ms(n), g, ls(n)) { return n; }
    k := FirstAct(ms, ls, g, n + 1, m);
    assert NoAct(ms, ls, g, n);
  }

  /** The next time that g acts or is blocked. */
  lemma NextTurn(ms: nat -> State, ls: nat -> Label, g: Group, n: nat) returns (k: nat, acted: bool)
    requires Fair(ms, ls)
    ensures k >= n && Idle(ms, ls, g, n, k)
    ensures if acted then Acts(ms(k), g, ls(k)) else Blocked(ms(k), g)
  {
    var m, blocked := Scheduled(ms, ls, g, n);
    if e: nat :| n <= e < m && !NoAct(ms, ls, g, e) {
      k := FirstAct(ms, ls, g, n, e);
      acted := true;
    } else {
      k, acted := m, !blocked;
    }
  }

  ghost predicate CanMove(s: State, g: Group) { !Blocked(s, g) }

  /** Where P holds until g acts, and g can act, it does. */
  lemma ActsUnder(ms: nat -> State, ls: nat -> Label, g: Group, P: State -> bool, k: nat) returns (i: nat)
    requires IsRun(ms, ls) && Fair(ms, ls) && Kept(P, Not(g)) && P(ms(k))
    requires Lively(P, g)
    ensures i >= k && P(ms(i)) && Acts(ms(i), g, ls(i))
  {
    var m, acted := NextTurn(ms, ls, g, k);
    StaysIdle(ms, ls, g, P, k, m);
    RunReaches(ms, ls, m);
    assert LivelyAt(P, g, ms(m));
    i := m;
  }

  /** Where P holds g can go on. */
  ghost predicate Lively(P: State -> bool, g: Group) { forall s: State :: LivelyAt(P, g, s) }

  ghost predicate LivelyAt(P: State -> bool, g: Group, s: State) { P(s) && Reachable(s) ==> CanMove(s, g) }

  /** Whether g acts in between. */
  lemma ActsWithin(ms: nat -> State, ls: nat -> Label, g: Group, k: nat, m: nat) returns (acted: bool, i: nat)
    ensures if acted then k <= i <= m && Acts(ms(i), g, ls(i)) else Idle(ms, ls, g, k, m + 1)
  {
    acted, i := false, k;
    if e: nat :| k <= e <= m && !NoAct(ms, ls, g, e) { acted, i := true, e; }
  }

  lemma Syncs(s: State)
    requires Reachable(s)
    ensures Synced(s)
  {
    ReachableInv(s);
  }

  // ---------------------------------------------------------------- the session comes to rest

  /** A step either belongs to the session, and uses up its work, or leaves it alone. */
  lemma SessionStep(s: State, a: Action)
    requires Reachable(s) && Enabled(s, a)
    ensures Next(s, a).m == s.m || 0 <= S.WorkLeft(Next(s, a).m) < S.WorkLeft(s.m)
    ensures a.Sess? || a.SuspendReturns? || a.CloseAllReturns? || a.ResumeReturns? || a.Retarget? || a.Rerate? ==>
      Next(s, a).m != s.m
  {
    ReachableInv(s);
    var e := if a.Sess? then a.e else TICK;
    if Next(s, a).m != s.m || a.Sess? || !(a.Svc? || a.CallSuspend? || a.CallCloseAll? || a.CallResume?) {
      SessionWorks(s.m, e);
    }
  }

  lemma SessionWorks(m: S.State, e: S.Action)
    requires S.Inv(m) && S.Enabled(m, e)
    ensures 0 <= S.WorkLeft(S.Next(m, e)) < S.WorkLeft(m)
  {
    S.StepUsesWork(m, e);
    S.NextKeeps(m, e);
    S.WorkIsBounded(S.Next(m, e));
  }

  lemma WorkIsNat(s: State)
    requires Reachable(s)
    ensures 0 <= S.WorkLeft(s.m)
  {
    ReachableInv(s);
    S.WorkIsBounded(s.m);
  }

  lemma {:induction false} StaysEqual(ms: nat -> State, n: nat, k: nat)
    requires n <= k && forall i: nat :: n <= i ==> Same(ms, i)
    ensures ms(k).m == ms(n).m
    decreases k
  {
    if n < k {
      StaysEqual(ms, n, k - 1);
      assert Same(ms, k - 1);
    }
  }

  predicate Same(ms: nat -> State, i: nat) { ms(i + 1).m == ms(i).m }

  /** From n on the session does nothing more. */
  ghost predicate Still(ms: nat -> State, n: nat) { forall k: nat :: n <= k ==> Rests(ms, n, k) }

  predicate Rests(ms: nat -> State, n: nat, k: nat) { ms(k).m == ms(n).m }

  lemma {:induction false} Settles(ms: nat -> State, ls: nat -> Label, n: nat) returns (k: nat)
    requires IsRun(ms, ls)
    ensures k >= n && Still(ms, k)
    decreases S.WorkLeft(ms(n).m)
  {
    if i: nat :| n <= i && !Same(ms, i) {
      WorkDrops(ms, ls, n, i);
      k := Settles(ms, ls, i + 1);
    } else {
      k := n;
      forall j: nat | n <= j ensures Rests(ms, n, j) { StaysEqual(ms, n, j); }
    }
  }

  lemma {:induction false} WorkStays(ms: nat -> State, ls: nat -> Label, n: nat, i: nat)
    requires IsRun(ms, ls) && n <= i
    ensures S.WorkLeft(ms(i).m) <= S.WorkLeft(ms(n).m)
    decreases i
  {
    if n < i {
      WorkStays(ms, ls, n, i - 1);
      WorkAt(ms, ls, i - 1);
    }
  }

  lemma WorkAt(ms: nat -> State, ls: nat -> Label, i: nat)
    requires IsRun(ms, ls)
    ensures S.WorkLeft(ms(i + 1).m) <= S.WorkLeft(ms(i).m)
  {
    RunReaches(ms, ls, i);
    assert StepAt(ms, ls, i);
    if ls(i).Act? { SessionStep(ms(i), ls(i).a); }
  }

  lemma WorkDrops(ms: nat -> State, ls: nat -> Label, n: nat, i: nat)
    requires IsRun(ms, ls) && n <= i && !Same(ms, i)
    ensures 0 <= S.WorkLeft(ms(i + 1).m) < S.WorkLeft(ms(n).m)
  {
    WorkStays(ms, ls, n, i);
    RunReaches(ms, ls, i);
    assert StepAt(ms, ls, i);
    SessionStep(ms(i), ls(i).a);
  }

  // ---------------------------------------------------------------- outside the calls of the service

  /** Between its calls exec has only the session. */
  lemma ExecIsSession(s: State, a: Action)
    requires Synced(s) && !AtServiceCall(s.m.r) && Enabled(s, a) && IsExec(s, a)
    ensures a.Sess?
  {
  }

  /** A session at rest outside the calls is finished. */
  lemma RestIsFinished(ms: nat -> State, ls: nat -> Label, n: nat)
    requires IsRun(ms, ls) && Fair(ms, ls) && Still(ms, n) && !AtServiceCall(ms(n).m.r)
    ensures S.Finished(ms(n).m)
  {
    RunReaches(ms, ls, n);
    if !S.Finished(ms(n).m) {
      var g := if S.Turn(ms(n).m).DStep? then Dump else Exec;
      var k, blocked := Scheduled(ms, ls, g, n);
      assert Rests(ms, n, k) && Rests(ms, n, k + 1);
      RunReaches(ms, ls, k);
      SessionCanMove(ms(k), g);
      MovesSessionAt(ms, ls, k, g);
      assert false;
    }
  }

  lemma MovesSessionAt(ms: nat -> State, ls: nat -> Label, k: nat, g: Group)
    requires IsRun(ms, ls) && Reachable(ms(k)) && !AtServiceCall(ms(k).m.r) && Acts(ms(k), g, ls(k)) && (g.Dump? || g.Exec?)
    ensures ms(k + 1).m != ms(k).m
  {
    assert StepAt(ms, ls, k);
    MovesSession(ms(k), ls(k).a, g);
  }

  lemma SessionCanMove(s: State, g: Group)
    requires Reachable(s) && !AtServiceCall(s.m.r) && !S.Finished(s.m)
    requires g == if S.Turn(s.m).DStep? then Dump else Exec
    ensures !Blocked(s, g)
  {
    ReachableInv(s);
    S.TurnIsProper(s.m);
    assert Enabled(s, Sess(S.Turn(s.m))) && Of(s, g, Sess(S.Turn(s.m)));
  }

  lemma MovesSession(s: State, a: Action, g: Group)
    requires Reachable(s) && !AtServiceCall(s.m.r) && Enabled(s, a) && Of(s, g, a) && (g.Dump? || g.Exec?)
    ensures Next(s, a).m != s.m
  {
    Syncs(s);
    if g.Exec? { ExecIsSession(s, a); }
    SessionStep(s, a);
  }

  // ---------------------------------------------------------------- the deferred Resume

  /** How far exec is from the end of a call of Resume. */
  function ResumeRank(p: V.Ctl): nat {
    match p case Holding(_) => 4 case LowerWant(_) => 3 case LowerSet(_) => 2 case LowerTell => 1 case _ => 0
  }

  /** exec's step there. */
  lemma ResumeStep(s: State, a: Action)
    requires Synced(s) && AtResume(s.m.r) && Enabled(s, a) && IsExec(s, a)
    ensures a.ResumeReturns? || (Next(s, a).m == s.m && Next(s, a).c == s.c)
    ensures a.ResumeReturns? || (s.c < |Next(s, a).v.ctls| && ResumeRank(Next(s, a).v.ctls[s.c]) < ResumeRank(s.v.ctls[s.c]))
  {
  }

  /** A step that is not exec's leaves its controller alone. */
  lemma OthersLeaveExec(s: State, a: Action)
    requires Synced(s) && AtServiceCall(s.m.r) && Enabled(s, a) && !IsExec(s, a)
    ensures s.c < |Next(s, a).v.ctls| && Next(s, a).v.ctls[s.c] == s.v.ctls[s.c]
  {
    if a.Svc? { O.OthersLeavePlace(s.v, a.b, s.c); }
  }

  // ---------------------------------------------------------------- the mutex gets free

  function CtlWork(p: V.Ctl): nat {
    match p case Idle => 12 case RaiseWant => 9 case RaiseSet => 6 case RaiseTell => 3 case _ => 0
  }

  function CtlsWork(ps: seq<V.Ctl>): nat {
    if ps == [] then 0 else CtlWork(ps[0]) + CtlsWork(ps[1..])
  }

  lemma {:induction false} CtlsWorkUpdate(ps: seq<V.Ctl>, d: nat, p: V.Ctl)
    requires d < |ps|
    ensures CtlsWork(ps[d := p]) == CtlsWork(ps) - CtlWork(ps[d]) + CtlWork(p)
  {
    if d == 0 {
      assert ps[d := p][1..] == ps[1..];
    } else {
      assert ps[d := p][1..] == ps[1..][d - 1 := p];
      CtlsWorkUpdate(ps[1..], d - 1, p);
    }
  }

  /** What can still be done with the mutex while somebody holds the service. */
  function LockWork(v: V.State): nat {
    CtlsWork(v.ctls) + (match v.lpc case Asleep(true) => 2 case Retesting => 1 case _ => 0)
  }

  predicate HoldsAt(v: V.State, c: nat) { c < |v.ctls| && H.Holds(v.ctls[c]) }

  lemma ListenerUsesLock(v: V.State, b: V.Action, c: nat)
    requires H.Inv(v) && HoldsAt(v, c) && V.IsListener(b) && V.ListenerEnabled(v, b)
    ensures LockWork(V.ListenerNext(v, b)) < LockWork(v)
  {
    assert H.Parked(v.lpc) && v.flag;
  }

  lemma DoorUsesLock(v: V.State, b: V.Action, c: nat)
    requires H.Inv(v) && HoldsAt(v, c) && V.IsDoor(b) && V.DoorEnabled(v, b) && b.c != c
    ensures LockWork(V.DoorNext(v, b)) < LockWork(v)
  {
    assert H.Parked(v.lpc) && v.flag && v.tokens == 0 && !H.Holds(v.ctls[b.c]);
    CtlsWorkUpdate(v.ctls, b.c, V.DoorNext(v, b).ctls[b.c]);
  }

  /** Others use the mutex only so often while c holds the service. */
  lemma OthersUseLock(v: V.State, b: V.Action, c: nat)
    requires H.Inv(v) && HoldsAt(v, c) && V.Enabled(v, b) && !((V.IsDoor(b) || V.IsHeld(b)) && b.c == c)
    ensures LockWork(V.Next(v, b)) < LockWork(v) || (LockWork(V.Next(v, b)) == LockWork(v) && V.Next(v, b).lock == v.lock)
  {
    if V.IsListener(b) { ListenerUsesLock(v, b, c); }
    else if V.IsDoor(b) { DoorUsesLock(v, b, c); }
    else if V.IsHeld(b) { HeldLeavesLock(v, b, c); }
  }

  lemma HeldLeavesLock(v: V.State, b: V.Action, c: nat)
    requires H.Inv(v) && HoldsAt(v, c) && V.IsHeld(b) && V.HeldEnabled(v, b)
    ensures b.c == c
  {
    assert H.Holds(v.ctls[b.c]);
  }

  /** The owner's step is one of those. */
  lemma OwnerUsesLock(v: V.State, b: V.Action, c: nat)
    requires H.Inv(v) && HoldsAt(v, c) && V.Enabled(v, b) && !((V.IsDoor(b) || V.IsHeld(b)) && b.c == c)
    requires V.IsListener(b) || b.SetFlag? || b.Tell?
    ensures LockWork(V.Next(v, b)) < LockWork(v)
  {
    if V.IsListener(b) { ListenerUsesLock(v, b, c); } else { DoorUsesLock(v, b, c); }
  }

  // ---------------------------------------------------------------- the deferred Resume returns

  /** exec is in its deferred Resume at place p of its controller. */
  predicate Resuming(s: State, r: R.R, p: V.Ctl) {
    s.m.r == r && AtResume(r) && Ctl(s, p)
  }

  /** A step that is not exec's leaves its controller where it is. */
  lemma ResumingStep(s: State, a: Action, r: R.R, p: V.Ctl)
    requires Reachable(s) && Resuming(s, r, p) && Enabled(s, a) && !IsExec(s, a)
    ensures Resuming(Next(s, a), r, p)
  {
    Syncs(s);
    OthersLeaveExec(s, a);
    OthersLeaveRestore(s, a);
  }

  lemma OthersLeaveRestore(s: State, a: Action)
    requires AtServiceCall(s.m.r) && Enabled(s, a) && !IsExec(s, a)
    ensures Next(s, a).m.r == s.m.r && Next(s, a).c == s.c
  {
  }

  lemma StepLock(s: State, a: Action, p: V.Ctl)
    requires H.Inv(s.v) && AtResume(s.m.r) && Ctl(s, p) && H.Holds(p) && Enabled(s, a) && !IsExec(s, a)
    ensures var t := Next(s, a).v;
      LockWork(t) < LockWork(s.v) || (LockWork(t) == LockWork(s.v) && t.lock == s.v.lock)
    ensures IsOwner(s, a) ==> LockWork(Next(s, a).v) < LockWork(s.v)
  {
    if a.Svc? {
      OthersUseLock(s.v, a.b, s.c);
      if IsOwner(s, a) { OwnerUsesLock(s.v, a.b, s.c); }
    }
  }

  /** And of the mutex at most w is left to do, or as much and the owner is still l. */
  predicate ResumingWith(s: State, r: R.R, p: V.Ctl, w: nat, l: V.LockOwner) {
    Resuming(s, r, p) && H.Holds(p) && (LockWork(s.v) < w || (LockWork(s.v) == w && s.v.lock == l))
  }

  lemma ResumingWithStep(s: State, a: Action, r: R.R, p: V.Ctl, w: nat, l: V.LockOwner)
    requires Reachable(s) && ResumingWith(s, r, p, w, l) && Enabled(s, a) && !IsExec(s, a)
    ensures ResumingWith(Next(s, a), r, p, w, l) && (IsOwner(s, a) ==> LockWork(Next(s, a).v) < w)
  {
    ResumingStep(s, a, r, p);
    ReachableInv(s);
    StepLock(s, a, p);
  }

  lemma ResumingStays(ms: nat -> State, ls: nat -> Label, k: nat, j: nat, r: R.R, p: V.Ctl)
    requires IsRun(ms, ls) && Resuming(ms(k), r, p) && k <= j && Idle(ms, ls, Exec, k, j)
    ensures Resuming(ms(j), r, p)
  {
    var P := (s: State) => Resuming(s, r, p);
    forall s: State, a: Action ensures KeptBy(P, Not(Exec), s, a) {
      if P(s) && Reachable(s) && Enabled(s, a) && !IsExec(s, a) { ResumingStep(s, a, r, p); }
    }
    StaysIdle(ms, ls, Exec, P, k, j);
  }

  lemma ResumingWithStays(ms: nat -> State, ls: nat -> Label, k: nat, j: nat, r: R.R, p: V.Ctl)
    requires IsRun(ms, ls) && Resuming(ms(k), r, p) && H.Holds(p) && k <= j && Idle(ms, ls, Exec, k, j)
    ensures ResumingWith(ms(j), r, p, LockWork(ms(k).v), ms(k).v.lock)
  {
    var w, l := LockWork(ms(k).v), ms(k).v.lock;
    var P := (s: State) => ResumingWith(s, r, p, w, l);
    forall s: State, a: Action ensures KeptBy(P, Not(Exec), s, a) {
      if P(s) && Reachable(s) && Enabled(s, a) && !IsExec(s, a) { ResumingWithStep(s, a, r, p, w, l); }
    }
    StaysIdle(ms, ls, Exec, P, k, j);
  }

  /** An owner of the mutex gives it back, or uses up lock work, unless exec gets on before. */
  lemma MutexMoves(ms: nat -> State, ls: nat -> Label, k: nat, r: R.R, p: V.Ctl) returns (j: nat, acted: bool)
    requires IsRun(ms, ls) && Fair(ms, ls) && Resuming(ms(k), r, p) && H.Holds(p) && ms(k).v.lock != V.Unlocked
    ensures j >= k
    ensures if acted then Acts(ms(j), Exec, ls(j)) else Resuming(ms(j), r, p) && LockWork(ms(j).v) < LockWork(ms(k).v)
  {
    var owned;
    j, owned, acted := OwnerTurn(ms, ls, k, r, p);
    if !acted && owned {
      OwnerMoved(ms, ls, k, j, r, p);
      j := j + 1;
    }
  }

  lemma OwnerTurn(ms: nat -> State, ls: nat -> Label, k: nat, r: R.R, p: V.Ctl) returns (j: nat, owned: bool, acted: bool)
    requires IsRun(ms, ls) && Fair(ms, ls) && Resuming(ms(k), r, p) && H.Holds(p)
    ensures j >= k
    ensures acted ==> Acts(ms(j), Exec, ls(j))
    ensures !acted ==> ResumingWith(ms(j), r, p, LockWork(ms(k).v), ms(k).v.lock) && NoAct(ms, ls, Exec, j)
    ensures !acted ==> if owned then Acts(ms(j), Owner, ls(j)) else ms(j).v.lock == V.Unlocked
  {
    var m;
    m, owned := OwnerTime(ms, ls, k);
    acted, j := ActsWithin(ms, ls, Exec, k, m);
    if !acted {
      assert Idle(ms, ls, Exec, k, m) && NoAct(ms, ls, Exec, m);
      ResumingWithStays(ms, ls, k, m, r, p);
      j := m;
    }
  }

  lemma OwnerTime(ms: nat -> State, ls: nat -> Label, k: nat) returns (m: nat, owned: bool)
    requires IsRun(ms, ls) && Fair(ms, ls)
    ensures m >= k && if owned then Acts(ms(m), Owner, ls(m)) else ms(m).v.lock == V.Unlocked
  {
    m, owned := NextTurn(ms, ls, Owner, k);
    RunReaches(ms, ls, m);
    if !owned { BlockedOwner(ms(m)); }
  }

  lemma OwnerMoved(ms: nat -> State, ls: nat -> Label, k: nat, m: nat, r: R.R, p: V.Ctl)
    requires IsRun(ms, ls) && ResumingWith(ms(m), r, p, LockWork(ms(k).v), ms(k).v.lock)
    requires Acts(ms(m), Owner, ls(m)) && NoAct(ms, ls, Exec, m)
    ensures Resuming(ms(m + 1), r, p) && LockWork(ms(m + 1).v) < LockWork(ms(k).v)
  {
    assert StepAt(ms, ls, m);
    RunReaches(ms, ls, m);
    ResumingWithStep(ms(m), ls(m).a, r, p, LockWork(ms(k).v), ms(k).v.lock);
  }

  lemma BlockedOwner(s: State)
    requires Reachable(s) && Blocked(s, Owner)
    ensures s.v.lock == V.Unlocked
  {
    ReachableInv(s);
    if s.v.lock != V.Unlocked { OwnerCanMove(s); }
  }

  lemma BlockedExec(s: State)
    requires Reachable(s) && AtResume(s.m.r) && Blocked(s, Exec)
    ensures s.c < |s.v.ctls| && s.v.ctls[s.c].LowerWant? && s.v.lock != V.Unlocked
  {
    ReachableInv(s);
    if !AwaitsMutex(s) { CallGoesOn(s); }
  }

  /** exec gets on in its deferred Resume. */
  lemma {:induction false} ResumeActs(ms: nat -> State, ls: nat -> Label, k: nat, r: R.R, p: V.Ctl) returns (i: nat)
    requires IsRun(ms, ls) && Fair(ms, ls) && Resuming(ms(k), r, p)
    ensures i >= k && Acts(ms(i), Exec, ls(i))
    decreases LockWork(ms(k).v)
  {
    var m, acted := NextTurn(ms, ls, Exec, k);
    if acted { return m; }
    ResumingStays(ms, ls, k, m, r, p);
    RunReaches(ms, ls, m);
    BlockedExec(ms(m));
    ResumingWithStays(ms, ls, k, m, r, p);
    var j, gone := MutexMoves(ms, ls, m, r, p);
    if gone { i := j; } else { i := ResumeActs(ms, ls, j, r, p); }
  }

  /** In every fair run the deferred Resume returns. */
  lemma {:induction false} ResumeComesBack(ms: nat -> State, ls: nat -> Label, k: nat, r: R.R, p: V.Ctl) returns (j: nat)
    requires IsRun(ms, ls) && Fair(ms, ls) && Resuming(ms(k), r, p)
    ensures j >= k && ls(j) == Act(ResumeReturns)
    decreases ResumeRank(p)
  {
    var m := ResumeActs(ms, ls, k, r, p);
    var i := FirstAct(ms, ls, Exec, k, m);
    ResumingStays(ms, ls, k, i, r, p);
    if ls(i).a.ResumeReturns? { j := i; }
    else {
      var q := ResumeMoves(ms, ls, i, r, p);
      j := ResumeComesBack(ms, ls, i + 1, r, q);
    }
  }

  lemma ResumeMoves(ms: nat -> State, ls: nat -> Label, k: nat, r: R.R, p: V.Ctl) returns (q: V.Ctl)
    requires IsRun(ms, ls) && Resuming(ms(k), r, p) && Acts(ms(k), Exec, ls(k)) && !ls(k).a.ResumeReturns?
    ensures Resuming(ms(k + 1), r, q) && ResumeRank(q) < ResumeRank(p)
  {
    assert StepAt(ms, ls, k);
    RunReaches(ms, ls, k);
    Syncs(ms(k));
    ResumeStep(ms(k), ls(k).a);
    q := ms(k + 1).v.ctls[ms(k).c];
  }

  // ---------------------------------------------------------------- how a migration ends

  lemma ChangesReturn(ms: nat -> State, ls: nat -> Label, n: nat)
    requires IsRun(ms, ls) && Fair(ms, ls) && Still(ms, n)
    ensures !ms(n).m.r.pc.Retarget? && !ms(n).m.r.pc.Rerate?
  {
    if ms(n).m.r.pc.Retarget? || ms(n).m.r.pc.Rerate? {
      var k, blocked := Scheduled(ms, ls, Exec, n);
      assert Rests(ms, n, k) && Rests(ms, n, k + 1);
      RunReaches(ms, ls, k);
      ChangeIsEnabled(ms(k));
      assert StepAt(ms, ls, k);
      SessionStep(ms(k), ls(k).a);
      assert false;
    }
  }

  lemma ChangeIsEnabled(s: State)
    requires Reachable(s) && (s.m.r.pc.Retarget? || s.m.r.pc.Rerate?)
    ensures !Blocked(s, Exec)
    ensures forall a :: Enabled(s, a) && IsExec(s, a) ==> a.Retarget? || a.Rerate?
  {
    ReachableInv(s);
    CallGoesOn(s);
    forall a | Enabled(s, a) && IsExec(s, a) ensures a.Retarget? || a.Rerate? { ChangeIsNext(s, a); }
  }

  lemma ChangeIsNext(s: State, a: Action)
    requires Synced(s) && (s.m.r.pc.Retarget? || s.m.r.pc.Rerate?) && Enabled(s, a) && IsExec(s, a)
    ensures a.Retarget? || a.Rerate?
  {
  }

  /** exec is in its call of Suspend, or of CloseAllForwarders, from n on. */
  ghost predicate StaysInSuspend(ms: nat -> State, n: nat) { forall k: nat :: n <= k ==> InSuspend(ms, k) }

  ghost predicate StaysInCloseAll(ms: nat -> State, n: nat) { forall k: nat :: n <= k ==> InCloseAll(ms, k) }

  predicate InSuspend(ms: nat -> State, k: nat) { ms(k).m.r.pc.Suspend? }

  predicate InCloseAll(ms: nat -> State, k: nat) { ms(k).m.r.pc.CloseAll? }

  /**
   Every fair run of a migration, with any behaviour of the service, its other controllers, the peers
   and the network, finishes both sides, unless exec stays for ever in its call of Suspend or of
   CloseAllForwarders.
   */
  lemma FinishesUnlessServiceStays(ms: nat -> State, ls: nat -> Label)
    requires IsRun(ms, ls) && Fair(ms, ls)
    ensures exists n: nat :: S.Finished(ms(n).m) || StaysInSuspend(ms, n) || StaysInCloseAll(ms, n)
  {
    var n := Settles(ms, ls, 0);
    RunReaches(ms, ls, n);
    ReachableInv(ms(n));
    ChangesReturn(ms, ls, n);
    var pc := ms(n).m.r.pc;
    if pc.Suspend? {
      forall k: nat | n <= k ensures InSuspend(ms, k) { assert Rests(ms, n, k); }
      assert StaysInSuspend(ms, n);
    } else if pc.CloseAll? {
      forall k: nat | n <= k ensures InCloseAll(ms, k) { assert Rests(ms, n, k); }
      assert StaysInCloseAll(ms, n);
    } else if AtResume(ms(n).m.r) {
      var j := ResumeComesBack(ms, ls, n, ms(n).m.r, ms(n).v.ctls[ms(n).c]);
      RunReaches(ms, ls, j);
      assert StepAt(ms, ls, j) && Rests(ms, n, j) && Rests(ms, n, j + 1);
      SessionStep(ms(j), ResumeReturns);
      assert false;
    } else {
      RestIsFinished(ms, ls, n);
    }
  }
}
