/**
 What a forwarder promises (server/fwd.go): bytes are conserved, the emergency channel is closed at
 most once, chanClosed means everything is over, and the shutdown cascade ends. The last is a
 statement about infinite fair runs.
 */
module Cascade {
  import opened Basics
  import opened Forwarder

  // ---------------------------------------------------------------- safety

  /** Delivered bytes are a prefix of those read, and those of what the peer sent. */
  lemma StreamConserved(h: Half)
    requires FlowInv(h)
    ensures h.got <= |h.sent| && h.out <= h.sent[..h.got]
    ensures !h.pump.Write? && Reported(h.pump) != Some(WriteError) ==> h.out == h.sent[..h.got]
    ensures !h.pump.Write? ==> h.out + h.lost == h.sent[..h.got]
    ensures !h.pump.Write? && Reported(h.pump) == Some(Eof) ==> h.out == h.sent
  {
    assert h.sent[..h.got] == h.out + (InBuffer(h.pump) + h.lost);
    if h.got == |h.sent| { assert h.sent[..h.got] == h.sent; }
  }

  lemma EmergencyFiresOnce(f: Fwd, a: Action)
    requires Inv(f) && Enabled(f, a)
    ensures f.fires <= Next(f, a).fires <= 1
  {
    NextKeepsInv(f, a);
  }

  /** Once chanClosed is closed both pumps ended, both connections are closed, no byte moves. */
  lemma ClosedIsFinal(f: Fwd, a: Action)
    requires Inv(f) && f.chanClosed
    ensures f.up.closed && (f.up.pump.Done? <==> f.down.pump.Done?) && (f.up.pump.Done? ==> f.down.closed)
    ensures f.up.pump.Idle? || f.up.pump.Done?
    ensures Enabled(f, a) ==> Next(f, a).chanClosed && Next(f, a).up == f.up.(shut := Next(f, a).up.shut)
    ensures Enabled(f, a) ==> Next(f, a).down.out == f.down.out
  {
    if IsClose(a) && Enabled(f, a) { ClosersOnlyShut(f, a); }
  }

  lemma ClosersOnlyShut(f: Fwd, a: Action)
    requires IsClose(a) && Enabled(f, a)
    ensures Next(f, a).up == f.up.(shut := Next(f, a).up.shut) && Next(f, a).down.out == f.down.out
    ensures Next(f, a).chanClosed == f.chanClosed
  {
    if a.DownEnd? { CloseOnlyShuts(f, f.down.pump.at, DownPump); }
    else if a.CallerStep? { CloseOnlyShuts(f, f.callers[a.k].at, Caller(a.k)); }
  }

  lemma CloseOnlyShuts(f: Fwd, at: ClosePc, me: Owner)
    ensures var g := CloseNext(f, at, me);
      g.up == f.up.(shut := g.up.shut) && g.down == f.down && g.chanClosed == f.chanClosed && g.callers == f.callers
  {
  }

  /** What any step leaves alone, as the forwarding service relies on it. */
  lemma NextKeepsLabels(f: Fwd, a: Action)
    requires Enabled(f, a)
    ensures Next(f, a).rate == f.rate && Next(f, a).addr == f.addr
    ensures f.chanClosed ==> Next(f, a).chanClosed
  {
    if a.DownEnd? { CloseKeepsLabels(f, f.down.pump.at, DownPump); }
    else if a.CallerStep? { CloseKeepsLabels(f, f.callers[a.k].at, Caller(a.k)); }
  }

  lemma CloseKeepsLabels(f: Fwd, at: ClosePc, me: Owner)
    ensures var g := CloseNext(f, at, me); g.rate == f.rate && g.addr == f.addr && g.chanClosed == f.chanClosed
  {
  }

  lemma NextKeepsMain(f: Fwd, a: Action)
    requires Enabled(f, a)
    ensures f.main in {Made, Listed, Spawned, Finished, Removed} ==> Next(f, a).main == f.main
    ensures Next(f, a).main in {Made, Listed, Spawned, Called, Removed} ==> Next(f, a).main == f.main
  {
  }

  lemma NextKeepsCallers(f: Fwd, a: Action)
    requires Enabled(f, a)
    ensures |Next(f, a).callers| == |f.callers|
    ensures forall k :: 0 <= k < |f.callers| && f.callers[k].Returned? ==> Next(f, a).callers[k].Returned?
  {
  }

  // ---------------------------------------------------------------- liveness

  /** Groups of goroutines: closers of the upstream side, that side, and all of them. */
  datatype Scope = Closers | UpSide | Everything

  predicate InScope(s: Scope, a: Action) {
    match s
    case Closers => IsClose(a)
    case UpSide => IsClose(a) || IsMain(a) || IsUp(a)
    case Everything => !IsPeer(a)
  }

  /** An action the program takes by itself; a spontaneous error of the network is not one. */
  predicate Prompt(a: Action) {
    && !IsPeer(a) && !a.DialFail?
    && !(a.UpRead? && a.r == Failed) && !(a.DownRead? && a.r == Failed)
  }

  ghost predicate Quiet(f: Fwd, s: Scope) {
    forall a :: InScope(s, a) && Prompt(a) ==> !Enabled(f, a)
  }

  /** Retire: the service removes a forwarder whose Accept returned from its list. */
  datatype Label = Act(a: Action) | Stutter | Retire

  ghost predicate StepOk(f: Fwd, l: Label, g: Fwd) {
    match l
    case Act(a) => Enabled(f, a) && g == Next(f, a)
    case Stutter => g == f
    case Retire => f.main == Finished && g == f.(main := Removed)
  }

  ghost predicate IsRun(fs: nat -> Fwd, ls: nat -> Label) {
    forall n: nat :: StepAt(fs, ls, n)
  }

  ghost predicate StepAt(fs: nat -> Fwd, ls: nat -> Label, n: nat) { StepOk(fs(n), ls(n), fs(n + 1)) }

  predicate Taken(l: Label, s: Scope) { l.Act? && InScope(s, l.a) }

  /** As long as a group can act, one of its goroutines is scheduled again. */
  ghost predicate Fair(fs: nat -> Fwd, ls: nat -> Label, s: Scope) {
    forall n: nat :: Served(fs, ls, s, n)
  }

  ghost predicate Served(fs: nat -> Fwd, ls: nat -> Label, s: Scope, n: nat) {
    exists m: nat :: m >= n && (Quiet(fs(m), s) || Taken(ls(m), s))
  }

  function CloseRank(at: ClosePc): nat {
    match at case Want => 6 case Check => 5 case Signal => 4 case Shut => 3 case Mark => 2 case Leave => 1
  }

  function CallerRank(c: CallerPc): nat {
    match c case Closing(at) => 2 + CloseRank(at) case Awaiting => 1 case Returned => 0
  }

  function CallersRank(cs: seq<CallerPc>): nat {
    if cs == [] then 0 else CallerRank(cs[0]) + CallersRank(cs[1..])
  }

  function EndRank(p: Pump): nat {
    match p case Ending(_, at) => 1 + CloseRank(at) case Done(_) => 0 case _ => 8
  }

  function MainRank(m: MainPc): nat {
    match m
    case Made => 12 case Listed => 11 case Spawned => 10 case Called => 9 case Stored => 8
    case Dialing => 7 case Joining => 6 case CloseClient => 5 case CloseServer => 4
    case DialFailed => 4 case Announce => 3 case Finished => 2 case Removed => 1
  }

  function UpRank(h: Half): int {
    match h.pump
    case Done(_) => 0
    case Ending(_, _) => 1
    case Read => 4 * Queued(h) + 2
    case Idle => 4 * Queued(h) + 3
    case Poll => 4 * Queued(h) + 3
    case Pace(_) => 4 * Queued(h) + 4
    case Write(_, _) => 4 * Queued(h) + 5
  }

  function DownRank(h: Half): int {
    4 * Queued(h) + (match h.pump case Idle => 2 case Read => 2 case Write(_, _) => 3 case _ => 0)
  }

  function CloserWork(f: Fwd): int { CallersRank(f.callers) + EndRank(f.down.pump) }

  function SideWork(f: Fwd): int { MainRank(f.main) + UpRank(f.up) }

  function Measure(f: Fwd, s: Scope): int {
    match s
    case Closers => CloserWork(f)
    case UpSide => CloserWork(f) + SideWork(f)
    case Everything => CloserWork(f) + SideWork(f) + DownRank(f.down)
  }

  /** The peers can no longer feed this group. */
  predicate Starved(f: Fwd, s: Scope) {
    match s
    case Closers => true
    case UpSide => f.up.shut || f.up.pump.Ending? || f.up.pump.Done? || f.chanClosed
    case Everything => f.up.pump.Done? || f.chanClosed
  }

  lemma {:induction false} CallersRankUpdate(cs: seq<CallerPc>, k: nat, c: CallerPc)
    requires k < |cs|
    ensures CallersRank(cs[k := c]) == CallersRank(cs) - CallerRank(cs[k]) + CallerRank(c)
  {
    if k == 0 {
      assert cs[k := c][1..] == cs[1..];
    } else {
      assert cs[k := c][1..] == cs[1..][k - 1 := c];
      CallersRankUpdate(cs[1..], k - 1, c);
    }
  }

  lemma CloserWorkDrops(f: Fwd, a: Action)
    requires Enabled(f, a) && StageInv(f)
    ensures CloserWork(Next(f, a)) <= CloserWork(f) - (if IsClose(a) then 1 else 0)
  {
    if a.CallerStep? { CallerWorks(f, a.k); }
    else if a.CallerReturn? { CallersRankUpdate(f.callers, a.k, Returned); }
    else if !a.DownEnd? { OthersKeepCallers(f, a); }
  }

  lemma CallerWorks(f: Fwd, k: nat)
    requires k < |f.callers| && f.callers[k].Closing?
    ensures CloserWork(CallerNext(f, k)) < CloserWork(f)
  {
    CallersRankUpdate(f.callers, k, CallerNext(f, k).callers[k]);
  }

  lemma OthersKeepCallers(f: Fwd, a: Action)
    requires Enabled(f, a) && StageInv(f) && !IsClose(a)
    ensures Next(f, a).callers == f.callers && EndRank(Next(f, a).down.pump) <= EndRank(f.down.pump)
  {
  }

  lemma MainRankDrops(f: Fwd, a: Action)
    requires Enabled(f, a)
    ensures if IsMain(a) then MainRank(Next(f, a).main) < MainRank(f.main) else Next(f, a).main == f.main
  {
  }

  lemma UpRankDrops(f: Fwd, a: Action)
    requires Enabled(f, a) && StageInv(f) && f.up.got <= |f.up.sent| && Starved(f, UpSide)
    ensures Starved(Next(f, a), UpSide)
    ensures UpRank(Next(f, a).up) <= UpRank(f.up) - (if IsUp(a) then 1 else 0)
  {
    if IsUp(a) { PumpRankDrops(f, a); }
  }

  lemma PumpRankDrops(f: Fwd, a: Action)
    requires Enabled(f, a) && IsUp(a) && f.up.got <= |f.up.sent| && Starved(f, UpSide)
    ensures Starved(Next(f, a), UpSide) && UpRank(Next(f, a).up) < UpRank(f.up)
  {
  }

  lemma DownRankDrops(f: Fwd, a: Action)
    requires Enabled(f, a) && StageInv(f) && Starved(f, Everything)
    ensures Starved(Next(f, a), Everything)
    ensures DownRank(Next(f, a).down) <= DownRank(f.down) - (if IsDown(a) then 1 else 0)
  {
  }

  lemma MeasureDrops(f: Fwd, a: Action, s: Scope)
    requires Inv(f) && Enabled(f, a) && Starved(f, s)
    ensures Starved(Next(f, a), s) && Inv(Next(f, a)) && 0 <= Measure(f, s)
    ensures Measure(Next(f, a), s) <= Measure(f, s) - (if InScope(s, a) then 1 else 0)
  {
    NextKeepsInv(f, a);
    CloserWorkDrops(f, a);
    if s != Closers { MainRankDrops(f, a); UpRankDrops(f, a); }
    if s == Everything { DownRankDrops(f, a); }
  }

  lemma RetireKeepsInv(f: Fwd)
    requires Inv(f) && f.main == Finished
    ensures Inv(f.(main := Removed))
  {
    assert forall me :: At(f.(main := Removed), me) == At(f, me);
  }

  lemma MeasureStep(f: Fwd, l: Label, g: Fwd, s: Scope)
    requires StepOk(f, l, g) && Inv(f) && Starved(f, s)
    ensures Inv(g) && Starved(g, s) && Measure(g, s) <= Measure(f, s) - (if Taken(l, s) then 1 else 0)
  {
    if l.Act? { MeasureDrops(f, l.a, s); } else if l.Retire? { RetireKeepsInv(f); }
  }

  lemma {:induction false} MeasureStays(fs: nat -> Fwd, ls: nat -> Label, s: Scope, n: nat, m: nat)
    requires IsRun(fs, ls) && n <= m && Inv(fs(n)) && Starved(fs(n), s)
    ensures Inv(fs(m)) && Starved(fs(m), s) && 0 <= Measure(fs(m), s) <= Measure(fs(n), s)
    decreases m
  {
    if n < m {
      MeasureStays(fs, ls, s, n, m - 1);
      assert StepAt(fs, ls, m - 1);
      MeasureStep(fs(m - 1), ls(m - 1), fs(m - 1 + 1), s);
    }
    MeasureNat(fs(m), s);
  }

  lemma MeasureNat(f: Fwd, s: Scope)
    requires Inv(f)
    ensures 0 <= Measure(f, s)
  {
  }

  lemma Comes(fs: nat -> Fwd, ls: nat -> Label, s: Scope, n: nat) returns (m: nat, quiet: bool)
    requires Fair(fs, ls, s)
    ensures m >= n && if quiet then Quiet(fs(m), s) else Taken(ls(m), s)
  {
    assert Served(fs, ls, s, n);
    m :| m >= n && (Quiet(fs(m), s) || Taken(ls(m), s));
    quiet := Quiet(fs(m), s);
  }

  lemma TakenDrops(fs: nat -> Fwd, ls: nat -> Label, s: Scope, n: nat, m: nat)
    requires IsRun(fs, ls) && n <= m && Taken(ls(m), s) && Inv(fs(n)) && Starved(fs(n), s)
    ensures Inv(fs(m + 1)) && Starved(fs(m + 1), s) && 0 <= Measure(fs(m + 1), s) < Measure(fs(n), s)
  {
    MeasureStays(fs, ls, s, n, m);
    assert StepAt(fs, ls, m);
    MeasureStep(fs(m), ls(m), fs(m + 1), s);
    MeasureNat(fs(m + 1), s);
  }

  /** A starved group that is scheduled fairly runs out of things to do. */
  lemma {:induction false} Settles(fs: nat -> Fwd, ls: nat -> Label, s: Scope, n: nat) returns (k: nat)
    requires IsRun(fs, ls) && Fair(fs, ls, s) && Inv(fs(n)) && Starved(fs(n), s)
    ensures k >= n && Quiet(fs(k), s)
    decreases Measure(fs(n), s)
  {
    var m, quiet := Comes(fs, ls, s, n);
    if quiet { return m; }
    TakenDrops(fs, ls, s, n, m);
    k := Settles(fs, ls, s, m + 1);
  }

  lemma OwnerCanMove(f: Fwd)
    requires MutexInv(f) && f.mux != Nobody
    ensures exists a :: InScope(Closers, a) && Prompt(a) && Enabled(f, a)
  {
    assert At(f, f.mux) != Want;
    var a := if f.mux.Caller? then CallerStep(f.mux.k) else DownEnd;
    assert InScope(Closers, a) && Prompt(a) && Enabled(f, a);
  }

  /** A goroutine inside closeUpstream can always go on. */
  lemma ClosersRest(f: Fwd)
    requires Inv(f) && Quiet(f, Closers)
    ensures f.mux == Nobody && !f.down.pump.Ending?
    ensures forall k :: 0 <= k < |f.callers| ==> !f.callers[k].Closing?
  {
    if f.mux != Nobody { OwnerCanMove(f); }
    assert At(f, DownPump) == Want && !Enabled(f, DownEnd);
    forall k | 0 <= k < |f.callers| ensures !f.callers[k].Closing? {
      assert At(f, Caller(k)) == Want && !Enabled(f, CallerStep(k));
    }
  }

  /** A pump whose connection's read side was shut is never stuck in a read. */
  lemma ReadReady(h: Half) returns (n: nat, r: ReadResult)
    requires h.pump.Read? && h.got <= |h.sent| && (h.shut || h.fin)
    ensures CanRead(h, n, r) && r != Failed
  {
    if Queued(h) == 0 { return 0, AtEof; }
    n, r := if Queued(h) < BUFFER_SIZE then Queued(h) else BUFFER_SIZE, More;
  }

  /** With nothing left to do, the upstream side is over or waits for a client that is still open. */
  predicate AwaitsClient(f: Fwd) {
    f.up.pump.Read? && !f.up.shut && !f.up.fin && f.up.got == |f.up.sent|
  }

  lemma UpSideRests(f: Fwd)
    requires Inv(f) && Quiet(f, UpSide) && HasClient(f)
    ensures f.up.pump.Done? || f.chanClosed || AwaitsClient(f)
  {
    MainRests(f);
    PumpRests(f);
    if f.up.pump.Read? { ReadRests(f); }
  }

  lemma MainRests(f: Fwd)
    requires Quiet(f, UpSide) && HasClient(f)
    ensures f.main !in {Stored, Dialing, DialFailed, Announce}
  {
    assert !Enabled(f, Arm) && !Enabled(f, DialOk) && !Enabled(f, DropClientConn) && !Enabled(f, CloseChan);
  }

  lemma PumpRests(f: Fwd)
    requires Quiet(f, UpSide)
    ensures f.up.pump.Idle? || f.up.pump.Read? || f.up.pump.Done?
  {
    assert !Enabled(f, UpPoll) && !Enabled(f, UpPace) && !Enabled(f, UpEnd);
    if f.up.pump.Write? { assert Enabled(f, UpWrite(|f.up.pump.chunk|, false)); }
  }

  lemma ReadRests(f: Fwd)
    requires f.up.got <= |f.up.sent| && Quiet(f, UpSide) && f.up.pump.Read?
    ensures AwaitsClient(f)
  {
    if f.up.shut || f.up.fin {
      var n, r := ReadReady(f.up);
      assert Enabled(f, UpRead(n, r));
    } else {
      assert !Enabled(f, UpRead(1, More));
    }
  }

  lemma DownSideRests(f: Fwd)
    requires Inv(f) && Quiet(f, Everything) && f.up.pump.Done? && !f.down.pump.Ending?
    ensures f.down.pump.Done?
  {
    if f.down.pump.Read? {
      var n, r := ReadReady(f.down);
      assert Enabled(f, DownRead(n, r));
    }
    if f.down.pump.Write? { assert Enabled(f, DownWrite(|f.down.pump.chunk|, false)); }
  }

  lemma MainCanMove(f: Fwd)
    requires StageInv(f) && f.up.pump.Done? && f.down.pump.Done? && !f.chanClosed
    ensures exists a :: IsMain(a) && Prompt(a) && Enabled(f, a)
  {
    var a := match f.main
      case Joining => Join
      case CloseClient => ShutClientConn
      case CloseServer => ShutServerConn
      case _ => CloseChan;
    assert IsMain(a) && Prompt(a) && Enabled(f, a);
  }

  lemma EverythingRests(f: Fwd)
    requires Inv(f) && Quiet(f, Everything) && Starved(f, Everything)
    ensures Over(f)
  {
    assert Quiet(f, Closers);
    ClosersRest(f);
    if !f.chanClosed {
      DownSideRests(f);
      MainCanMove(f);
    }
    forall k | 0 <= k < |f.callers| ensures f.callers[k].Returned? {
      assert !Enabled(f, CallerReturn(k));
    }
  }

  /** The end of a forwarder: everything closed and every Close returned. */
  predicate Over(f: Fwd) {
    f.chanClosed && forall k :: 0 <= k < |f.callers| ==> f.callers[k].Returned?
  }

  /** The shutdown has begun: CloseRead reached the client side, or a pump left its loop. */
  predicate Triggered(f: Fwd) {
    var up, down := f.up.pump, f.down.pump;
    f.up.shut || up.Ending? || up.Done? || down.Ending? || down.Done?
  }

  predicate DownEnded(f: Fwd) { !f.early && (f.down.pump.Ending? || f.down.pump.Done?) }

  lemma EndingStep(f: Fwd, a: Action)
    requires Enabled(f, a) && StageInv(f) && DownEnded(f)
    ensures DownEnded(Next(f, a))
  {
  }

  lemma {:induction false} EndingStays(fs: nat -> Fwd, ls: nat -> Label, n: nat, m: nat)
    requires IsRun(fs, ls) && n <= m && Inv(fs(n)) && DownEnded(fs(n))
    ensures Inv(fs(m)) && DownEnded(fs(m))
    decreases m
  {
    if n < m {
      EndingStays(fs, ls, n, m - 1);
      assert StepAt(fs, ls, m - 1);
      StepKeepsEnding(fs(m - 1), ls(m - 1), fs(m - 1 + 1));
    }
  }

  lemma StepKeepsEnding(f: Fwd, l: Label, g: Fwd)
    requires StepOk(f, l, g) && Inv(f) && DownEnded(f)
    ensures Inv(g) && DownEnded(g)
  {
    if l.Act? {
      NextKeepsInv(f, l.a);
      EndingStep(f, l.a);
    } else if l.Retire? {
      RetireKeepsInv(f);
    }
  }

  /** A downstream pump that ended gets the client's read side shut. */
  lemma DownEndShutsUp(fs: nat -> Fwd, ls: nat -> Label, n: nat) returns (k: nat)
    requires IsRun(fs, ls) && Fair(fs, ls, Closers) && Inv(fs(n)) && DownEnded(fs(n))
    ensures k >= n && Inv(fs(k)) && Starved(fs(k), UpSide) && HasClient(fs(k))
  {
    k := Settles(fs, ls, Closers, n);
    EndingStays(fs, ls, n, k);
    ClosersRest(fs(k));
  }

  /** Both pumps ended and both connections are closed; or there never was a server connection. */
  predicate Closed(f: Fwd) {
    && f.chanClosed && f.up.closed
    && ((f.up.pump.Idle? && f.down.pump.Idle?) || (f.up.pump.Done? && f.down.pump.Done? && f.down.closed))
  }

  /** Accept has stored the client connection, no Close was early, and some Close was called. */
  predicate BeingClosed(f: Fwd) { HasClient(f) && !f.early && f.callers != [] }

  lemma StepKeepsBeingClosed(f: Fwd, l: Label, g: Fwd)
    requires StepOk(f, l, g) && Inv(f) && BeingClosed(f)
    ensures Inv(g) && BeingClosed(g)
  {
    if l.Act? {
      NextKeepsInv(f, l.a);
      NextKeepsCallers(f, l.a);
      ClosersStayOnTime(f, l.a);
    } else if l.Retire? {
      RetireKeepsInv(f);
    }
  }

  lemma ClosersStayOnTime(f: Fwd, a: Action)
    requires Enabled(f, a) && HasClient(f) && !f.early
    ensures HasClient(Next(f, a)) && !Next(f, a).early
  {
  }

  lemma {:induction false} BeingClosedStays(fs: nat -> Fwd, ls: nat -> Label, n: nat, m: nat)
    requires IsRun(fs, ls) && n <= m && Inv(fs(n)) && BeingClosed(fs(n))
    ensures Inv(fs(m)) && BeingClosed(fs(m))
    decreases m
  {
    if n < m {
      BeingClosedStays(fs, ls, n, m - 1);
      assert StepAt(fs, ls, m - 1);
      StepKeepsBeingClosed(fs(m - 1), ls(m - 1), fs(m - 1 + 1));
    }
  }

  /** A Close that is called on time gets the client's read side shut. */
  lemma CloseShutsUp(fs: nat -> Fwd, ls: nat -> Label, n: nat) returns (k: nat)
    requires IsRun(fs, ls) && Fair(fs, ls, Closers) && Inv(fs(n)) && BeingClosed(fs(n))
    ensures k >= n && Inv(fs(k)) && !fs(k).early && fs(k).up.shut
  {
    k := Settles(fs, ls, Closers, n);
    BeingClosedStays(fs, ls, n, k);
    ClosersRest(fs(k));
    assert Left(fs(k).callers[0]);
  }

  /**
   The shutdown cascade terminates. In every fair run, once a Close was called on a forwarder that
   Accept had given its client connection, or CloseRead reached the client side, or a pump left
   its loop, both pumps end, the connections and chanClosed get closed and every Close returns,
   provided no Close ran before Accept had stored the client connection.
   */
  lemma CascadeTerminates(fs: nat -> Fwd, ls: nat -> Label, n: nat)
    requires IsRun(fs, ls) && forall s :: Fair(fs, ls, s)
    requires Inv(fs(n)) && !fs(n).early && (Triggered(fs(n)) || BeingClosed(fs(n)))
    ensures exists k: nat :: k >= n && Over(fs(k)) && Closed(fs(k))
  {
    if Triggered(fs(n)) { TriggeredEnds(fs, ls, n); }
    else {
      var k := CloseShutsUp(fs, ls, n);
      TriggeredEnds(fs, ls, k);
    }
  }

  lemma TriggeredEnds(fs: nat -> Fwd, ls: nat -> Label, n: nat)
    requires IsRun(fs, ls) && forall s :: Fair(fs, ls, s)
    requires Inv(fs(n)) && Triggered(fs(n)) && !fs(n).early
    ensures exists k: nat :: k >= n && Over(fs(k)) && Closed(fs(k))
  {
    var a := n;
    if !Starved(fs(n), UpSide) { a := DownEndShutsUp(fs, ls, n); }
    var b := Settles(fs, ls, UpSide, a);
    MeasureStays(fs, ls, UpSide, a, b);
    UpSideRests(fs(b));
    var c := RestEnds(fs, ls, b);
  }

  /** Once the upstream pump is over, or chanClosed is closed, the rest follows. */
  lemma RestEnds(fs: nat -> Fwd, ls: nat -> Label, n: nat) returns (k: nat)
    requires IsRun(fs, ls) && Fair(fs, ls, Everything) && Inv(fs(n)) && Starved(fs(n), Everything)
    ensures k >= n && Over(fs(k)) && Closed(fs(k))
  {
    k := Settles(fs, ls, Everything, n);
    MeasureStays(fs, ls, Everything, n, k);
    EverythingRests(fs(k));
  }

  /**
   The only way a triggered forwarder, or a started one with a Close, can come to rest unfinished
   is an early Close.
   */
  lemma UnfinishedRestIsEarly(f: Fwd)
    requires Inv(f) && Quiet(f, Everything) && !f.chanClosed
    requires Triggered(f) || (HasClient(f) && f.callers != [])
    ensures f.early && f.upClosed && AwaitsClient(f)
  {
    assert Quiet(f, Closers) && Quiet(f, UpSide);
    ClosersRest(f);
    if f.callers != [] { assert Left(f.callers[0]); }
    UpSideRests(f);
    if f.up.pump.Done? { EverythingRests(f); }
  }

  ghost predicate Path(fs: seq<Fwd>, acts: seq<Action>) {
    && |fs| == |acts| + 1
    && forall i :: 0 <= i < |acts| ==> Enabled(fs[i], acts[i]) && fs[i + 1] == Next(fs[i], acts[i])
  }

  ghost predicate Reaches(f: Fwd, g: Fwd) {
    exists fs: seq<Fwd>, acts: seq<Action> :: Path(fs, acts) && fs[0] == f && fs[|acts|] == g
  }

  /** Accept was entered, a Close was called, and the client connection is not stored yet. */
  function EarlyClose(rate: int, addr: Addr): Fwd {
    Call(New().(rate := rate, addr := Some(addr), main := Called))
  }

  lemma Extend(f: Fwd, g: Fwd, a: Action)
    requires Reaches(f, g) && Enabled(g, a)
    ensures Reaches(f, Next(g, a))
  {
    var fs: seq<Fwd>, acts: seq<Action> :| Path(fs, acts) && fs[0] == f && fs[|acts|] == g;
    assert Path(fs + [Next(g, a)], acts + [a]);
    assert (fs + [Next(g, a)])[|acts + [a]|] == Next(g, a);
  }

  lemma EarlyCloseReturns(f: Fwd)
    requires f == EarlyClose(f.rate, f.addr.GetOr(0)) && f.addr.Some?
    ensures Reaches(f, f.(early := true, upClosed := true, callers := [Awaiting]))
  {
    assert Path([f], []);
    var c := CallerStep(0);
    var f1 := Next(f, c);
    Extend(f, f, c);
    var f2 := Next(f1, c);
    Extend(f, f1, c);
    var f3 := Next(f2, c);
    Extend(f, f2, c);
    var f4 := Next(f3, c);
    Extend(f, f3, c);
    var f5 := Next(f4, c);
    Extend(f, f4, c);
    Extend(f, f5, c);
  }

  lemma ThenStarts(f: Fwd, g: Fwd)
    requires Reaches(f, g) && g.main == Called && g.emerg == NoChan
    ensures exists e :: Reaches(f, g.(main := Joining, up := g.up.(pump := Read), down := g.down.(pump := Read), emerg := e))
  {
    Extend(f, g, Store);
    var g1 := Next(g, Store);
    Extend(f, g1, Arm);
    var g2 := Next(g1, Arm);
    Extend(f, g2, DialOk);
    var g3 := Next(g2, DialOk);
    if g3.emerg != Fired { Extend(f, g3, UpPoll); }
  }

  lemma ThenServerEnds(f: Fwd, g: Fwd)
    requires Reaches(f, g) && g.down == FRESH_HALF.(pump := Read) && g.upClosed && g.mux == Nobody
    ensures Reaches(f, g.(down := g.down.(fin := true, pump := Done(Eof))))
  {
    Extend(f, g, ServerFin);
    var g1 := Next(g, ServerFin);
    Extend(f, g1, DownRead(0, AtEof));
    var g2 := Next(g1, DownRead(0, AtEof));
    Extend(f, g2, DownEnd);
    var g3 := Next(g2, DownEnd);
    Extend(f, g3, DownEnd);
    var g4 := Next(g3, DownEnd);
    Extend(f, g4, DownEnd);
  }

  /**
   And with an early Close it does: whatever the rate, the forwarder gets to a point where the
   server has finished, the client is idle, and neither the pump nor that Close ever returns by
   itself.
   */
  lemma EarlyCloseHangs(rate: int, addr: Addr)
    ensures exists g: Fwd :: Reaches(EarlyClose(rate, addr), g) && Triggered(g) && Quiet(g, Everything)
                             && !g.chanClosed
  {
    var f := EarlyClose(rate, addr);
    EarlyCloseReturns(f);
    var f1 := f.(early := true, upClosed := true, callers := [Awaiting]);
    ThenStarts(f, f1);
    var e :| Reaches(f, f1.(main := Joining, up := f1.up.(pump := Read), down := f1.down.(pump := Read), emerg := e));
    var f2 := f1.(main := Joining, up := f1.up.(pump := Read), down := f1.down.(pump := Read), emerg := e);
    ThenServerEnds(f, f2);
  }
}
