/**
 LM_Restore.exec (server/lm.go:67-200) as an automaton that takes one answer of the environment per
 step, with Go's stack of deferred calls and a log of what it did to the world.
 */
module Restore {
  import opened Basics

  const REQ_PRE_DUMP: byte := 0x01
  const REQ_DUMP: byte := 0x02
  const RESP_OK: byte := 0x00
  const RESP_ERROR: byte := 0xFF

  /** patience: how often the resume wait can poll before its timer fires. */
  datatype Config = Config(withFwd: bool, hasService: bool, iteration: int, patience: nat)

  datatype Outcome = Completed | Aborted | Panicked

  datatype Pc =
    | Listen | Script | Daemon | AskDump | Dial | Tunnel
    | PreSend(i: nat) | PreRecv(i: nat)
    | Suspend | CloseAll | FinalSend | FinalRecv
    | Launch | Await(left: nat) | Retarget | Rerate
    | Unwind(out: Outcome) | Done(out: Outcome)

  /** Deferred calls, in the order the code registers them. */
  datatype Defer = StopListening | HangUp | CloseTunnel | ResumeService

  datatype Effect =
    | Opened(d: Defer)          // the effect that d undoes
    | Undone(d: Defer)
    | SentPre | SentDump | FinalAnswer(ok: bool) | Launched
    | ClosedAll | AddrChanged | RateChanged

  /** What the environment answers: success, failure, or a byte read. */
  datatype Input = Yes | No | Byte(b: byte)

  datatype R = R(pc: Pc, defers: List<Defer>, log: List<Effect>)

  const INIT := R(Listen, Nil, Nil)

  /** Number of pre-dumps. */
  function Rounds(iteration: int): nat {
    if iteration > 0 then iteration else if iteration == 0 then 1 else 0
  }

  function Fail(r: R): R { r.(pc := Unwind(Aborted)) }

  /** The head of the pre-dump loop. */
  function LoopTop(cfg: Config, i: nat): Pc {
    if i < Rounds(cfg.iteration) then PreSend(i) else if cfg.withFwd then Suspend else FinalSend
  }

  function Open(r: R, d: Defer, pc: Pc): R {
    R(pc, Cons(d, r.defers), Cons(Opened(d), r.log))
  }

  function Do(r: R, e: Effect, pc: Pc): R {
    r.(pc := pc, log := Cons(e, r.log))
  }

  function Next(cfg: Config, r: R, x: Input): R {
    match r.pc
    case Listen => if x == Yes then Open(r, StopListening, Script) else Fail(r)
    case Script => if x == Yes then r.(pc := Daemon) else Fail(r)
    case Daemon => if x == Yes then r.(pc := AskDump) else Fail(r)
    case AskDump => if x == Yes then r.(pc := Dial) else Fail(r)
    case Dial => if x == Yes then Open(Open(r, HangUp, Dial), CloseTunnel, Tunnel) else Fail(r)
    case Tunnel => if x == Yes then r.(pc := LoopTop(cfg, 0)) else Fail(r)
    case PreSend(i) => if x == Yes then Do(r, SentPre, PreRecv(i)) else Fail(r)
    case PreRecv(i) => if x == Byte(RESP_OK) then r.(pc := LoopTop(cfg, i + 1)) else Fail(r)
    case Suspend =>
      if cfg.hasService then Open(r, ResumeService, CloseAll) else r.(pc := Unwind(Panicked))
    case CloseAll => Do(r, ClosedAll, FinalSend)
    case FinalSend => if x == Yes then Do(r, SentDump, FinalRecv) else Fail(r)
    case FinalRecv =>
      if x == Byte(RESP_OK) then Do(r, FinalAnswer(true), Launch) else Fail(Do(r, FinalAnswer(false), FinalRecv))
    case Launch => Do(r, Launched, Await(cfg.patience))
    case Await(left) =>
      if x == Yes || left == 0 then r.(pc := if cfg.withFwd then Retarget else Unwind(Completed))
      else r.(pc := Await(left - 1))
    case Retarget => Do(r, AddrChanged, Rerate)
    case Rerate => Do(r, RateChanged, Unwind(Completed))
    case Unwind(out) =>
      if r.defers.Nil? then r.(pc := Done(out))
      else R(r.pc, r.defers.tail, Cons(Undone(r.defers.head), r.log))
    case Done(_) => r
  }

  /** The state after n answers of the environment. */
  function Run(cfg: Config, env: nat -> Input, n: nat): R {
    if n == 0 then INIT else Next(cfg, Run(cfg, env, n - 1), env(n - 1))
  }

  // ---------------------------------------------------------------- balance

  /** What is open after one more effect; None when the effect is not allowed there. */
  function Allow(open: List<Defer>, e: Effect): Option<List<Defer>> {
    match e
    case Opened(d) => if open.Has(d) then None else Some(Cons(d, open))
    case Undone(d) => if open.Cons? && open.head == d then Some(open.tail) else None
    case ClosedAll => if open.Has(ResumeService) then Some(open) else None
    case AddrChanged => if open.Has(ResumeService) then Some(open) else None
    case RateChanged => if open.Has(ResumeService) then Some(open) else None
    case _ => Some(open)
  }

  /**
   Replays a log: what is open afterwards, innermost first. None when something was undone out of
   order or twice, or when CloseAllForwarders or a Change ran while the service was not suspended.
   */
  function Replay(log: List<Effect>): Option<List<Defer>> {
    match log
    case Nil => Some(Nil)
    case Cons(e, before) => if Replay(before).None? then None else Allow(Replay(before).value, e)
  }

  const CONNECTED := Cons(CloseTunnel, Cons(HangUp, Cons(StopListening, Nil)))

  /** The deferred calls registered at each point of the body. */
  function Registered(pc: Pc, withFwd: bool): List<Defer> {
    match pc
    case Listen => Nil
    case Done(_) => Nil
    case Script => Cons(StopListening, Nil)
    case Daemon => Cons(StopListening, Nil)
    case AskDump => Cons(StopListening, Nil)
    case Dial => Cons(StopListening, Nil)
    case Tunnel => CONNECTED
    case PreSend(_) => CONNECTED
    case PreRecv(_) => CONNECTED
    case Suspend => CONNECTED
    case _ => if withFwd then Cons(ResumeService, CONNECTED) else CONNECTED
  }

  predicate AfterFinalOk(pc: Pc) {
    pc.Launch? || pc.Await? || pc.Retarget? || pc.Rerate? || pc == Unwind(Completed) || pc == Done(Completed)
  }

  predicate BalanceInv(cfg: Config, r: R) {
    && Replay(r.log) == Some(r.defers)
    && (!r.pc.Unwind? ==> r.defers == Registered(r.pc, cfg.withFwd))
    && (r.pc.Suspend? || r.pc.CloseAll? || r.pc.Retarget? || r.pc.Rerate? ==> cfg.withFwd)
  }

  lemma NextKeepsBalance(cfg: Config, r: R, x: Input)
    requires BalanceInv(cfg, r)
    ensures BalanceInv(cfg, Next(cfg, r, x))
  {
    ConnectedOnly();
  }

  lemma ConnectedOnly()
    ensures !CONNECTED.Has(ResumeService)
  {
    assert !CONNECTED.tail.tail.Has(ResumeService);
  }

  // ---------------------------------------------------------------- what the log tells

  /** What must be in the log at each point. */
  predicate LogInv(cfg: Config, r: R) {
    var pc := r.pc;
    var completed := pc == Unwind(Completed) || pc == Done(Completed);
    && (r.log.Has(Launched) <==> pc.Await? || pc.Retarget? || pc.Rerate? || completed)
    && (r.log.Has(FinalAnswer(true)) <==> AfterFinalOk(pc))
    && (r.log.Has(AddrChanged) <==> pc.Rerate? || (completed && cfg.withFwd))
    && (r.log.Has(RateChanged) <==> completed && cfg.withFwd)
    && (pc == Unwind(Panicked) || pc == Done(Panicked) ==> cfg.withFwd && !cfg.hasService)
    && (pc.CloseAll? ==> cfg.hasService)
    && (pc.Await? ==> pc.left <= cfg.patience)
    && (pc.FinalSend? || pc.FinalRecv? || AfterFinalOk(pc) ==> !cfg.withFwd || cfg.hasService)
  }

  predicate SentInv(cfg: Config, r: R) {
    var pres, dumps, k := r.log.Count(SentPre), r.log.Count(SentDump), Rounds(cfg.iteration);
    && pres <= k
    && dumps <= 1
    && (dumps == 1 ==> pres == k)
    && (AfterFinalOk(r.pc) ==> dumps == 1)
    && (match r.pc
        case PreSend(i) => pres == i < k && dumps == 0
        case PreRecv(i) => pres == i + 1 <= k && dumps == 0
        case Suspend => pres == k && dumps == 0
        case CloseAll => pres == k && dumps == 0
        case FinalSend => pres == k && dumps == 0
        case Unwind(_) => true
        case Done(_) => true
        case _ => if Before(r.pc) then pres == 0 && dumps == 0 else pres == k && dumps == 1)
  }

  /** Not yet connected for requests. */
  predicate Before(pc: Pc) {
    pc.Listen? || pc.Script? || pc.Daemon? || pc.AskDump? || pc.Dial? || pc.Tunnel?
  }

  lemma NextKeepsLog(cfg: Config, r: R, x: Input)
    requires LogInv(cfg, r)
    requires r.pc.Suspend? || r.pc.CloseAll? || r.pc.Retarget? || r.pc.Rerate? ==> cfg.withFwd
    ensures LogInv(cfg, Next(cfg, r, x))
  {
  }

  lemma NextKeepsSent(cfg: Config, r: R, x: Input)
    requires SentInv(cfg, r)
    ensures SentInv(cfg, Next(cfg, r, x))
  {
    if r.pc.PreSend? || r.pc.PreRecv? { RoundKeepsSent(cfg, r, x); }
    else if r.pc.Unwind? || r.pc.Done? { UnwindKeepsSent(cfg, r, x); }
    else if Before(r.pc) { ConnectKeepsSent(cfg, r, x); }
    else { FinalKeepsSent(cfg, r, x); }
  }

  lemma ConnectKeepsSent(cfg: Config, r: R, x: Input)
    requires SentInv(cfg, r) && Before(r.pc)
    ensures SentInv(cfg, Next(cfg, r, x))
  {
  }

  lemma FinalKeepsSent(cfg: Config, r: R, x: Input)
    requires SentInv(cfg, r) && !Before(r.pc) && !r.pc.PreSend? && !r.pc.PreRecv? && !r.pc.Unwind? && !r.pc.Done?
    ensures SentInv(cfg, Next(cfg, r, x))
  {
  }

  lemma RoundKeepsSent(cfg: Config, r: R, x: Input)
    requires SentInv(cfg, r) && (r.pc.PreSend? || r.pc.PreRecv?)
    ensures SentInv(cfg, Next(cfg, r, x))
  {
  }

  lemma UnwindKeepsSent(cfg: Config, r: R, x: Input)
    requires SentInv(cfg, r) && (r.pc.Unwind? || r.pc.Done?)
    ensures SentInv(cfg, Next(cfg, r, x))
  {
  }

  lemma {:induction false} RunKeeps(cfg: Config, env: nat -> Input, n: nat)
    ensures var r := Run(cfg, env, n); BalanceInv(cfg, r) && LogInv(cfg, r) && SentInv(cfg, r)
  {
    if n > 0 {
      RunKeeps(cfg, env, n - 1);
      NextKeepsBalance(cfg, Run(cfg, env, n - 1), env(n - 1));
      NextKeepsLog(cfg, Run(cfg, env, n - 1), env(n - 1));
      NextKeepsSent(cfg, Run(cfg, env, n - 1), env(n - 1));
    }
  }

  // ---------------------------------------------------------------- termination

  /** Upper bound on the steps left. */
  function Work(cfg: Config, r: R): nat {
    var k, tail := Rounds(cfg.iteration), cfg.patience + 20;
    match r.pc
    case Listen => tail + 2 * k + 12
    case Script => tail + 2 * k + 11
    case Daemon => tail + 2 * k + 10
    case AskDump => tail + 2 * k + 9
    case Dial => tail + 2 * k + 8
    case Tunnel => tail + 2 * k + 7
    case PreSend(i) => tail + (if i < k then 2 * (k - i) else 0) + 6
    case PreRecv(i) => tail + (if i < k then 2 * (k - i) else 0) + 5
    case Suspend => tail + 4
    case CloseAll => tail + 3
    case FinalSend => tail + 2
    case FinalRecv => tail + 1
    case Launch => tail
    case Await(left) => left + 12
    case Retarget => 11
    case Rerate => 10
    case Unwind(_) => r.defers.Size() + 1
    case Done(_) => 0
  }

  lemma NextWorks(cfg: Config, r: R, x: Input)
    requires BalanceInv(cfg, r) && SentInv(cfg, r) && LogInv(cfg, r) && !r.pc.Done?
    ensures Work(cfg, Next(cfg, r, x)) < Work(cfg, r)
  {
  }

  // ---------------------------------------------------------------- main results

  /** In a replayable log everything opened was undone as often, but for what is still open. */
  lemma {:induction false} ReplayCounts(log: List<Effect>, d: Defer)
    requires Replay(log).Some?
    ensures log.Count(Opened(d)) == log.Count(Undone(d)) + Replay(log).value.Count(d)
  {
    if log.Cons? { ReplayCounts(log.tail, d); }
  }

  /**
   Every exit of exec, on success, failure or panic, is balanced: all it opened is undone as often,
   in reverse order, so each Suspend that returned is matched by one Resume; the guards of
   CloseAllForwarders and Change never fired.
   */
  lemma BalancedExit(cfg: Config, env: nat -> Input, n: nat, d: Defer)
    requires Run(cfg, env, n).pc.Done?
    ensures Replay(Run(cfg, env, n).log) == Some(Nil)
    ensures Run(cfg, env, n).log.Count(Opened(d)) == Run(cfg, env, n).log.Count(Undone(d))
  {
    RunKeeps(cfg, env, n);
    ReplayCounts(Run(cfg, env, n).log, d);
  }

  /** What exec has opened when it gets to pc without giving up. */
  predicate IsDue(pc: Pc, withFwd: bool, d: Defer) {
    match d
    case StopListening => !pc.Listen?
    case HangUp => !Before(pc) || pc.Tunnel?
    case CloseTunnel => !Before(pc) || pc.Tunnel?
    case ResumeService => withFwd && !Before(pc) && !pc.PreSend? && !pc.PreRecv? && !pc.Suspend?
  }

  predicate OpenedInv(cfg: Config, r: R, d: Defer) {
    && (NotAborted(r.pc) && r.pc != Unwind(Panicked) && r.pc != Done(Panicked) ==>
          r.log.Count(Opened(d)) == if IsDue(r.pc, cfg.withFwd, d) then 1 else 0)
    && (r.pc.Suspend? || r.pc.CloseAll? ==> cfg.withFwd)
  }

  lemma NextKeepsOpened(cfg: Config, r: R, x: Input, d: Defer)
    requires OpenedInv(cfg, r, d)
    ensures OpenedInv(cfg, Next(cfg, r, x), d)
  {
    if Before(r.pc) { ConnectKeepsOpened(cfg, r, x, d); }
    else if r.pc.Unwind? { UnwindKeepsOpened(cfg, r, x, d); }
    else if r.pc.Suspend? { SuspendKeepsOpened(cfg, r, x, d); }
    else if r.pc.PreSend? || r.pc.PreRecv? { RoundKeepsOpened(cfg, r, x, d); }
    else { FinalKeepsOpened(cfg, r, x, d); }
  }

  lemma SuspendKeepsOpened(cfg: Config, r: R, x: Input, d: Defer)
    requires OpenedInv(cfg, r, d) && r.pc.Suspend?
    ensures OpenedInv(cfg, Next(cfg, r, x), d)
  {
  }

  lemma RoundKeepsOpened(cfg: Config, r: R, x: Input, d: Defer)
    requires OpenedInv(cfg, r, d) && (r.pc.PreSend? || r.pc.PreRecv?)
    ensures OpenedInv(cfg, Next(cfg, r, x), d)
  {
  }

  lemma FinalKeepsOpened(cfg: Config, r: R, x: Input, d: Defer)
    requires OpenedInv(cfg, r, d) && !Before(r.pc) && !r.pc.Unwind? && !r.pc.Suspend? && !r.pc.PreSend? && !r.pc.PreRecv?
    ensures OpenedInv(cfg, Next(cfg, r, x), d)
  {
    FinalOpensNothing(cfg, r, x);
    SameCount(r.log, Next(cfg, r, x).log, d);
    FinalStaysDue(cfg, r, x, d);
  }

  predicate AddsNoOpened(before: List<Effect>, after: List<Effect>) {
    after == before || (after.Cons? && after.tail == before && !after.head.Opened?)
  }

  lemma SameCount(before: List<Effect>, after: List<Effect>, d: Defer)
    requires AddsNoOpened(before, after)
    ensures after.Count(Opened(d)) == before.Count(Opened(d))
  {
  }

  lemma FinalOpensNothing(cfg: Config, r: R, x: Input)
    requires !Before(r.pc) && !r.pc.Unwind? && !r.pc.Suspend?
    ensures AddsNoOpened(r.log, Next(cfg, r, x).log)
  {
  }

  lemma FinalStaysDue(cfg: Config, r: R, x: Input, d: Defer)
    requires !Before(r.pc) && !r.pc.Unwind? && !r.pc.Suspend? && !r.pc.PreSend? && !r.pc.PreRecv?
    ensures var pc := Next(cfg, r, x).pc;
      NotAborted(pc) ==> NotAborted(r.pc) && IsDue(pc, cfg.withFwd, d) == IsDue(r.pc, cfg.withFwd, d)
                         && !pc.Suspend? && !pc.CloseAll?
                         && (pc != Unwind(Panicked) && pc != Done(Panicked) ==> r.pc != Done(Panicked))
  {
  }

  lemma ConnectKeepsOpened(cfg: Config, r: R, x: Input, d: Defer)
    requires OpenedInv(cfg, r, d) && Before(r.pc)
    ensures OpenedInv(cfg, Next(cfg, r, x), d)
  {
  }

  lemma UnwindKeepsOpened(cfg: Config, r: R, x: Input, d: Defer)
    requires OpenedInv(cfg, r, d) && r.pc.Unwind?
    ensures OpenedInv(cfg, Next(cfg, r, x), d)
  {
  }

  lemma {:induction false} RunKeepsOpened(cfg: Config, env: nat -> Input, n: nat, d: Defer)
    ensures OpenedInv(cfg, Run(cfg, env, n), d)
  {
    if n > 0 {
      RunKeepsOpened(cfg, env, n - 1, d);
      NextKeepsOpened(cfg, Run(cfg, env, n - 1), env(n - 1), d);
    }
  }

  /**
   What a completed exec had opened, and so undone, exactly once: the listener, the connection, the
   tunnel, and, with forwarding, the suspension of the service.
   */
  lemma CompletedOpenedAll(cfg: Config, env: nat -> Input, n: nat, d: Defer)
    requires Run(cfg, env, n).pc == Done(Completed)
    ensures var log := Run(cfg, env, n).log;
      log.Count(Opened(d)) == log.Count(Undone(d)) == if d.ResumeService? && !cfg.withFwd then 0 else 1
  {
    RunKeepsOpened(cfg, env, n, d);
    BalancedExit(cfg, env, n, d);
  }

  /** The address changes, and the restore is launched, exactly when the final dump answered Ok. */
  lemma RetargetIffAnswered(cfg: Config, env: nat -> Input, n: nat)
    requires Run(cfg, env, n).pc.Done?
    ensures var r := Run(cfg, env, n);
      && (r.log.Has(AddrChanged) <==> cfg.withFwd && r.log.Has(FinalAnswer(true)))
      && (r.log.Has(RateChanged) <==> r.log.Has(AddrChanged))
      && (r.log.Has(Launched) <==> r.log.Has(FinalAnswer(true)))
      && (r.pc == Done(Completed) <==> r.log.Has(FinalAnswer(true)))
      && (r.pc == Done(Panicked) ==> cfg.withFwd && !cfg.hasService)
      && (cfg.withFwd && !cfg.hasService ==> r.pc != Done(Completed))
  {
    RunKeeps(cfg, env, n);
  }

  /**
   The pre-dumps that the final dump follows: as many as asked for, one when that is zero, none when it
   is negative.
   */
  lemma PreDumpsAsAsked(cfg: Config, env: nat -> Input, n: nat)
    requires Run(cfg, env, n).log.Has(SentDump)
    ensures var sent := Run(cfg, env, n).log.Count(SentPre);
      && (cfg.iteration > 0 ==> sent == cfg.iteration)
      && (cfg.iteration == 0 ==> sent == 1)
      && (cfg.iteration < 0 ==> sent == 0)
    ensures Run(cfg, env, n).log.Count(SentDump) == 1
  {
    RunKeeps(cfg, env, n);
    HasCounts(Run(cfg, env, n).log, SentDump);
  }

  lemma {:induction false} HasCounts(log: List<Effect>, e: Effect)
    ensures log.Has(e) <==> log.Count(e) > 0
  {
    if log.Cons? { HasCounts(log.tail, e); }
  }

  /** The requests that were sent. */
  function Requests(log: List<Effect>): nat { log.Count(SentPre) + log.Count(SentDump) }

  /**
   exec ends in every environment, after at most one request per round and one final one, given that
   its calls of the forwarding service return, which they do not have to (module Ending).
   */
  lemma ExecEnds(cfg: Config, env: nat -> Input)
    ensures exists n: nat :: Run(cfg, env, n).pc.Done?
    ensures forall n: nat :: Requests(Run(cfg, env, n).log) <= Rounds(cfg.iteration) + 1
  {
    var n := EndsFrom(cfg, env, 0);
    forall m: nat ensures Requests(Run(cfg, env, m).log) <= Rounds(cfg.iteration) + 1 {
      RunKeeps(cfg, env, m);
    }
  }

  lemma {:induction false} EndsFrom(cfg: Config, env: nat -> Input, n: nat) returns (m: nat)
    ensures Run(cfg, env, m).pc.Done?
    decreases Work(cfg, Run(cfg, env, n))
  {
    if Run(cfg, env, n).pc.Done? { return n; }
    RunKeeps(cfg, env, n);
    NextWorks(cfg, Run(cfg, env, n), env(n));
    m := EndsFrom(cfg, env, n + 1);
  }

  // ---------------------------------------------------------------- when it completes and when it panics

  /** What an environment answers in which nothing fails. */
  function Obliging(pc: Pc): Input { if pc.PreRecv? || pc.FinalRecv? then Byte(RESP_OK) else Yes }

  predicate NotAborted(pc: Pc) { pc != Unwind(Aborted) && pc != Done(Aborted) }

  lemma ObligedStep(cfg: Config, r: R)
    requires NotAborted(r.pc)
    ensures NotAborted(Next(cfg, r, Obliging(r.pc)).pc)
  {
  }

  lemma {:induction false} RunUsesPrefix(cfg: Config, env: nat -> Input, other: nat -> Input, n: nat)
    requires forall i: nat :: i < n ==> env(i) == other(i)
    ensures Run(cfg, env, n) == Run(cfg, other, n)
  {
    if n > 0 { RunUsesPrefix(cfg, env, other, n - 1); }
  }

  ghost predicate CanEnd(cfg: Config, out: Outcome) {
    exists env: nat -> Input, n: nat :: Run(cfg, env, n).pc == Done(out)
  }

  lemma EndsPanickedOrCompleted(cfg: Config, env: nat -> Input, n: nat)
    requires Run(cfg, env, n).pc.Done? && NotAborted(Run(cfg, env, n).pc)
    ensures CanEnd(cfg, if cfg.withFwd && !cfg.hasService then Panicked else Completed)
  {
    RetargetIffAnswered(cfg, env, n);
    var out := Run(cfg, env, n).pc.out;
    assert Run(cfg, env, n).pc == Done(out) && out != Aborted;
  }

  /** From where nothing has failed, an obliging environment leads to the end. */
  lemma {:induction false} ObligedEnds(cfg: Config, env: nat -> Input, n: nat)
    requires NotAborted(Run(cfg, env, n).pc)
    ensures CanEnd(cfg, if cfg.withFwd && !cfg.hasService then Panicked else Completed)
    decreases Work(cfg, Run(cfg, env, n))
  {
    var r := Run(cfg, env, n);
    if r.pc.Done? {
      EndsPanickedOrCompleted(cfg, env, n);
    } else {
      var other := (i: nat) => if i == n then Obliging(r.pc) else env(i);
      RunUsesPrefix(cfg, env, other, n);
      ObligedStep(cfg, r);
      RunKeeps(cfg, env, n);
      NextWorks(cfg, r, Obliging(r.pc));
      assert Run(cfg, other, n + 1) == Next(cfg, r, Obliging(r.pc));
      ObligedEnds(cfg, other, n + 1);
    }
  }

  lemma EndsOnlySo(cfg: Config, out: Outcome)
    requires CanEnd(cfg, out)
    ensures out == Panicked ==> cfg.withFwd && !cfg.hasService
    ensures out == Completed ==> !(cfg.withFwd && !cfg.hasService)
  {
    var env: nat -> Input, n: nat :| Run(cfg, env, n).pc == Done(out);
    RetargetIffAnswered(cfg, env, n);
  }

  /**
   exec panics in some environment if and only if forwarding was asked for and no service is there,
   and it is exactly then that it completes in none.
   */
  lemma PanicsIffNoService(cfg: Config)
    ensures CanEnd(cfg, Panicked) <==> cfg.withFwd && !cfg.hasService
    ensures CanEnd(cfg, Completed) <==> !(cfg.withFwd && !cfg.hasService)
  {
    ObligedEnds(cfg, (i: nat) => Yes, 0);
    if CanEnd(cfg, Panicked) { EndsOnlySo(cfg, Panicked); }
    if CanEnd(cfg, Completed) { EndsOnlySo(cfg, Completed); }
  }

  // ---------------------------------------------------------------- which answers lead to the restore

  /** Where exec is after n answers that were all what it needs. */
  function Place(cfg: Config, n: nat): Pc {
    var k := Rounds(cfg.iteration);
    var f := 6 + 2 * k + (if cfg.withFwd then 2 else 0);
    match n
    case 0 => Listen case 1 => Script case 2 => Daemon case 3 => AskDump case 4 => Dial case 5 => Tunnel
    case _ =>
      if n < 6 + 2 * k then (if n % 2 == 0 then PreSend((n - 6) / 2) else PreRecv((n - 7) / 2))
      else if n < f then (if n == 6 + 2 * k then Suspend else CloseAll)
      else if n == f then FinalSend
      else if n == f + 1 then FinalRecv
      else Launch
  }

  /** The answers up to the launch. */
  function Needed(cfg: Config): nat { 8 + 2 * Rounds(cfg.iteration) + (if cfg.withFwd then 2 else 0) }

  /** Every call and every read but the two of the service answers as it must. */
  predicate Serves(pc: Pc, x: Input) {
    if pc.PreRecv? || pc.FinalRecv? then x == Byte(RESP_OK) else pc.Suspend? || pc.CloseAll? || x == Yes
  }

  ghost predicate AllServe(cfg: Config, env: nat -> Input, n: nat) {
    forall i: nat :: i < n ==> ServesAt(cfg, env, i)
  }

  predicate ServesAt(cfg: Config, env: nat -> Input, i: nat) { Serves(Place(cfg, i), env(i)) }

  lemma StepServes(cfg: Config, r: R, n: nat, x: Input)
    requires r.pc == Place(cfg, n) && n < Needed(cfg) && (cfg.withFwd ==> cfg.hasService)
    ensures Next(cfg, r, x).pc == if Serves(r.pc, x) then Place(cfg, n + 1) else Unwind(Aborted)
  {
  }

  lemma {:induction false} Proceeds(cfg: Config, env: nat -> Input, n: nat)
    requires n <= Needed(cfg) && AllServe(cfg, env, n) && (cfg.withFwd ==> cfg.hasService)
    ensures Run(cfg, env, n).pc == Place(cfg, n)
  {
    if n > 0 {
      Proceeds(cfg, env, n - 1);
      assert ServesAt(cfg, env, n - 1);
      StepServes(cfg, Run(cfg, env, n - 1), n - 1, env(n - 1));
    }
  }

  /** After the first answer that is not what it needs exec gives up. */
  lemma {:induction false} GivesUp(cfg: Config, env: nat -> Input, i: nat, n: nat)
    requires i < Needed(cfg) && AllServe(cfg, env, i) && !ServesAt(cfg, env, i) && (cfg.withFwd ==> cfg.hasService)
    requires i < n
    ensures !NotAborted(Run(cfg, env, n).pc)
  {
    if n == i + 1 {
      Proceeds(cfg, env, i);
      StepServes(cfg, Run(cfg, env, i), i, env(i));
    } else {
      GivesUp(cfg, env, i, n - 1);
    }
  }

  lemma {:induction false} FirstRefusal(cfg: Config, env: nat -> Input, n: nat) returns (i: nat)
    requires !AllServe(cfg, env, n)
    ensures i < n && AllServe(cfg, env, i) && !ServesAt(cfg, env, i)
  {
    if AllServe(cfg, env, n - 1) {
      i := n - 1;
    } else {
      i := FirstRefusal(cfg, env, n - 1);
    }
  }

  ghost predicate Launches(cfg: Config, env: nat -> Input) {
    exists n: nat :: Run(cfg, env, n).log.Has(Launched)
  }

  /**
   The restore is launched if and only if every answer was what it had to be: the listener, the
   script, the daemon, the start request, the connection, the tunnel, each pre-dump, the final dump.
   After any other answer exec gives up and sends nothing more.
   */
  lemma LaunchesIffAllServe(cfg: Config, env: nat -> Input)
    requires cfg.withFwd ==> cfg.hasService
    ensures Launches(cfg, env) <==> AllServe(cfg, env, Needed(cfg))
    ensures forall i: nat, n: nat :: i < Needed(cfg) && AllServe(cfg, env, i) && !ServesAt(cfg, env, i) && i < n ==>
      !NotAborted(Run(cfg, env, n).pc)
  {
    if AllServe(cfg, env, Needed(cfg)) {
      var n := Needed(cfg);
      Proceeds(cfg, env, n);
      assert Run(cfg, env, n + 1) == Do(Run(cfg, env, n), Launched, Await(cfg.patience));
    } else {
      var i := FirstRefusal(cfg, env, Needed(cfg));
      forall n: nat ensures !Run(cfg, env, n).log.Has(Launched) { NotLaunched(cfg, env, i, n); }
    }
    forall i: nat, n: nat | i < Needed(cfg) && AllServe(cfg, env, i) && !ServesAt(cfg, env, i) && i < n
      ensures !NotAborted(Run(cfg, env, n).pc)
    {
      GivesUp(cfg, env, i, n);
    }
  }

  lemma NotLaunched(cfg: Config, env: nat -> Input, i: nat, n: nat)
    requires i < Needed(cfg) && AllServe(cfg, env, i) && !ServesAt(cfg, env, i) && (cfg.withFwd ==> cfg.hasService)
    ensures !Run(cfg, env, n).log.Has(Launched)
  {
    RunKeeps(cfg, env, n);
    if n <= i { Proceeds(cfg, env, n); } else { GivesUp(cfg, env, i, n); }
  }

  /**
   The resume wait: it polls until the first signal, or patience polls and one more, and only then
   goes on to the address.
   */
  lemma {:induction false} WaitsForSignal(cfg: Config, env: nat -> Input, n: nat, j: nat)
    requires Run(cfg, env, n).pc == Await(cfg.patience) && j <= cfg.patience
    requires forall i: nat :: n <= i < n + j ==> env(i) != Yes
    ensures Run(cfg, env, n + j).pc == Await(cfg.patience - j)
    ensures env(n + j) == Yes || j == cfg.patience ==>
      Run(cfg, env, n + j + 1).pc == if cfg.withFwd then Retarget else Unwind(Completed)
  {
    if j > 0 {
      WaitsForSignal(cfg, env, n, j - 1);
      assert env(n + j - 1) != Yes && n + (j - 1) + 1 == n + j;
    }
  }
}
