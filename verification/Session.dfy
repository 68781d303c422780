/**
 One migration session between two hosts (server/lm.go:120-199 against :314-392): the restore side's
 automaton, the dump side's loop, the TCP stream between them, and the image directories. Pod execs,
 reads and writes succeed or fail as the environment likes.
 */
module Session {
  import opened Basics
  import opened Images
  import R = Restore
  import D = Dump

  datatype State = State(
    cfg: R.Config,
    sid: nat,
    r: R.R,
    d: D.D,
    reqs: seq<byte>,       // written by the restore side, not yet read
    resps: seq<byte>,
    hosts: Hosts,
    oks: seq<bool>)        // whether the command of each request carried out succeeded

  /** The connection was just established; images of earlier sessions may lie around. */
  predicate Initial(s: State) {
    && s.r.pc.Tunnel? && R.BalanceInv(s.cfg, s.r) && R.LogInv(s.cfg, s.r) && R.SentInv(s.cfg, s.r)
    && s.d.loop.Accept? && s.d.it == 1 && D.Inv(s.d)
    && s.reqs == [] && s.resps == [] && s.oks == [] && s.hosts.live
  }

  datatype Action =
    | RStep(x: R.Input, sent: bool)        // sent: a failing write may still have been delivered
    | DStep(x: R.Input, p: Progress)

  predicate RClosed(s: State) { !s.r.defers.Has(R.HangUp) }

  predicate DClosed(s: State) { s.d.loop.Ended? || (s.d.loop.Release? && !s.d.loopDefers.Has(D.Connection)) }

  predicate Enabled(s: State, a: Action) {
    match a
    case RStep(x, _) =>
      && !s.r.pc.Done?
      && (s.r.pc.PreRecv? || s.r.pc.FinalRecv? ==> x == R.No || (s.resps != [] && x == R.Byte(s.resps[0])))
    case DStep(x, p) =>
      match s.d.loop
      case Ended => false
      case NotSpawned => false
      case Read => x == R.No || (s.reqs != [] && x == R.Byte(s.reqs[0]))
      case Work(_) => x == R.Yes ==> p == Copied
      case _ => true
  }

  /** The request byte that the restore side writes at pc. */
  function Request(pc: R.Pc): byte { if pc.FinalSend? then R.REQ_DUMP else R.REQ_PRE_DUMP }

  function Next(s: State, a: Action): State
    requires Enabled(s, a)
  {
    match a
    case RStep(x, sent) =>
      var t := s.(r := R.Next(s.cfg, s.r, x));
      if s.r.pc.PreSend? || s.r.pc.FinalSend? then
        (if x == R.Yes || sent then t.(reqs := s.reqs + [Request(s.r.pc)]) else t)
      else if (s.r.pc.PreRecv? || s.r.pc.FinalRecv?) && x.Byte? then t.(resps := s.resps[1..])
      else t
    case DStep(x, p) =>
      var t := s.(d := D.LoopNext(s.d, x));
      match s.d.loop
      case Read => if x.Byte? then t.(reqs := s.reqs[1..]) else t
      case Work(req) => t.(hosts := Perform(s.hosts, s.sid, req, s.d.it, p), oks := s.oks + [x == R.Yes])
      case Reply(b) => if x == R.Yes then t.(resps := s.resps + [b]) else t
      case _ => t
  }

  // ---------------------------------------------------------------- lockstep

  function K(s: State): nat { R.Rounds(s.cfg.iteration) }

  predicate Gone(s: State) { s.d.loop.Release? || s.d.loop.Ended? }

  predicate Waits(s: State) { s.d.loop.Accept? || s.d.loop.Read? }

  /** What an Ok to request number n+1 stands for. */
  predicate Succeeded(s: State, n: nat, req: byte) {
    if req == R.REQ_DUMP then Chained(s.hosts, s.sid, n) && FinalCopied(s.hosts, s.sid, n) && !s.hosts.live
    else Chained(s.hosts, s.sid, n + 1)
  }

  /** n requests were answered with Ok and none is under way. */
  predicate Between(s: State, n: nat) {
    s.reqs == [] && s.resps == [] && Chained(s.hosts, s.sid, n) && (Gone(s) || (Waits(s) && s.d.it == n + 1))
  }

  /** Request number n+1 is under way: in the stream, at work, being answered, or answered. */
  predicate UnderWay(s: State, n: nat, req: byte) {
    && Chained(s.hosts, s.sid, n)
    && (match s.d.loop
        case Work(q) => s.reqs == [] && s.resps == [] && q == req && s.d.it == n + 1
        case Reply(b) =>
          s.reqs == [] && s.resps == [] && s.d.it == n + 1 && (b == R.RESP_OK ==> Succeeded(s, n, req))
        case _ =>
          if s.resps == [] then (Waits(s) && s.reqs == [req] && s.d.it == n + 1) || (Gone(s) && |s.reqs| <= 1)
          else |s.resps| == 1 && s.reqs == [] && (Gone(s) || (Waits(s) && s.d.it == n + 2))
               && (s.resps[0] == R.RESP_OK ==> Succeeded(s, n, req)))
  }

  /** Request number `it` is one the restore side sends. */
  predicate Fits(s: State, req: byte, it: nat) {
    (req == R.REQ_PRE_DUMP && 1 <= it <= K(s)) || (req == R.REQ_DUMP && it == K(s) + 1)
  }

  /** The restore side gave up: at most the request under way is still carried out. */
  predicate Abandoned(s: State) {
    match s.d.loop
    case Work(q) => s.reqs == [] && s.resps == [] && Fits(s, q, s.d.it) && Chained(s.hosts, s.sid, s.d.it - 1)
    case Reply(_) => s.reqs == [] && s.resps == [] && 1 <= s.d.it <= K(s) + 1
    case _ =>
      if s.reqs == [] then |s.resps| <= 1 && 1 <= s.d.it <= K(s) + 2
      else |s.reqs| == 1 && s.resps == [] && 1 <= s.d.it <= K(s) + 2
           && (Gone(s) || (Fits(s, s.reqs[0], s.d.it) && Chained(s.hosts, s.sid, s.d.it - 1)))
  }

  /** The final dump was answered with Ok. */
  predicate Finalised(s: State) {
    && s.reqs == [] && s.resps == [] && Succeeded(s, K(s), R.REQ_DUMP)
    && (Gone(s) || Waits(s)) && 1 <= s.d.it <= K(s) + 2
  }

  predicate Lockstep(s: State) {
    && 1 <= s.d.it <= K(s) + 2
    && !s.d.loop.NotSpawned?
    && match s.r.pc
       case Tunnel => Between(s, 0)
       case PreSend(i) => i < K(s) && Between(s, i)
       case PreRecv(i) => i < K(s) && UnderWay(s, i, R.REQ_PRE_DUMP)
       case Suspend => Between(s, K(s))
       case CloseAll => Between(s, K(s))
       case FinalSend => Between(s, K(s))
       case FinalRecv => UnderWay(s, K(s), R.REQ_DUMP)
       case Unwind(out) => if out == R.Completed then Finalised(s) else Abandoned(s)
       case Done(out) => if out == R.Completed then Finalised(s) else Abandoned(s)
       case _ => R.AfterFinalOk(s.r.pc) && Finalised(s)
  }

  /** The answer b stands for the last command. */
  predicate Tells(s: State, b: byte) {
    s.oks != [] && (b == R.RESP_OK <==> s.oks[|s.oks| - 1])
  }

  /** Every answer tells whether its own command succeeded. */
  predicate AnswersInv(s: State) {
    && (Waits(s) || s.d.loop.Work? ==> |s.oks| == s.d.it - 1)
    && (s.d.loop.Reply? ==> |s.oks| == s.d.it && Tells(s, s.d.loop.b))
    && |s.resps| <= 1
    && (s.resps != [] ==> !s.d.loop.Work? && !s.d.loop.Reply? && s.reqs == [] && Tells(s, s.resps[0]))
  }

  /** The source runs until criu has finished its final dump. */
  predicate LiveInv(s: State) {
    && (s.d.it <= K(s) && !Gone(s) ==> s.hosts.live)
    && (s.d.it == K(s) + 1 && (Waits(s) || s.d.loop.Work?) ==> s.hosts.live)
    && (!s.hosts.live ==> Final in s.hosts.src && s.hosts.src[Final].session == s.sid && s.hosts.src[Final].complete)
  }

  predicate Inv(s: State) {
    && R.BalanceInv(s.cfg, s.r) && R.LogInv(s.cfg, s.r) && R.SentInv(s.cfg, s.r)
    && D.Inv(s.d)
    && Lockstep(s) && AnswersInv(s) && LiveInv(s)
  }

  /** Requests at work are ones the restore side sends. */
  lemma WorkFits(s: State)
    requires Lockstep(s) && s.d.loop.Work?
    ensures Fits(s, s.d.loop.req, s.d.it) && s.resps == []
  {
  }

  lemma RStepKeepsAnswers(s: State, a: Action)
    requires Enabled(s, a) && a.RStep? && Lockstep(s) && AnswersInv(s)
    ensures AnswersInv(Next(s, a))
  {
  }

  lemma WorkKeepsAnswers(s: State, a: Action)
    requires Enabled(s, a) && a.DStep? && s.d.loop.Work? && Lockstep(s) && AnswersInv(s) && LiveInv(s)
    ensures AnswersInv(Next(s, a)) && LiveInv(Next(s, a))
  {
    WorkFits(s);
  }

  lemma DStepKeepsAnswers(s: State, a: Action)
    requires Enabled(s, a) && a.DStep? && !s.d.loop.Work? && Lockstep(s) && AnswersInv(s) && LiveInv(s)
    ensures AnswersInv(Next(s, a)) && LiveInv(Next(s, a))
  {
  }

  lemma RStepKeepsLive(s: State, a: Action)
    requires Enabled(s, a) && a.RStep? && LiveInv(s)
    ensures LiveInv(Next(s, a))
  {
  }

  lemma InitialInv(s: State)
    requires Initial(s)
    ensures Inv(s)
  {
  }

  lemma GivesUpBetween(s: State, n: nat, req: byte)
    requires Between(s, n) && Fits(s, req, n + 1) && 1 <= s.d.it <= K(s) + 2
    ensures Abandoned(s) && Abandoned(s.(reqs := s.reqs + [req]))
    ensures UnderWay(s.(reqs := s.reqs + [req]), n, req)
  {
  }

  lemma GivesUpUnderWay(s: State, n: nat, req: byte)
    requires UnderWay(s, n, req) && Fits(s, req, n + 1) && 1 <= s.d.it <= K(s) + 2
    ensures Abandoned(s)
    ensures s.resps != [] ==> Abandoned(s.(resps := s.resps[1..]))
    ensures s.resps != [] && s.resps[0] == R.RESP_OK ==>
      if req == R.REQ_DUMP then Finalised(s.(resps := s.resps[1..])) else Between(s.(resps := s.resps[1..]), n + 1)
  {
  }

  lemma SendKeepsLockstep(s: State, a: Action)
    requires Enabled(s, a) && a.RStep? && Lockstep(s) && (s.r.pc.PreSend? || s.r.pc.FinalSend?)
    ensures Lockstep(Next(s, a))
  {
    if s.r.pc.PreSend? { GivesUpBetween(s, s.r.pc.i, R.REQ_PRE_DUMP); } else { FinalSendKeepsLockstep(s, a); }
  }

  lemma FinalSendKeepsLockstep(s: State, a: Action)
    requires Enabled(s, a) && a.RStep? && Lockstep(s) && s.r.pc.FinalSend?
    ensures Lockstep(Next(s, a))
  {
    GivesUpBetween(s, K(s), R.REQ_DUMP);
  }

  lemma RecvKeepsLockstep(s: State, a: Action)
    requires Enabled(s, a) && a.RStep? && Lockstep(s) && (s.r.pc.PreRecv? || s.r.pc.FinalRecv?)
    ensures Lockstep(Next(s, a))
  {
    var pre := s.r.pc.PreRecv?;
    GivesUpUnderWay(s, if pre then s.r.pc.i else K(s), if pre then R.REQ_PRE_DUMP else R.REQ_DUMP);
  }

  lemma RStepKeepsLockstep(s: State, a: Action)
    requires Enabled(s, a) && a.RStep? && Lockstep(s)
    requires !(s.r.pc.PreSend? || s.r.pc.FinalSend? || s.r.pc.PreRecv? || s.r.pc.FinalRecv?)
    ensures Lockstep(Next(s, a))
  {
  }

  lemma WorkKeepsLockstep(s: State, a: Action)
    requires Enabled(s, a) && a.DStep? && Lockstep(s) && s.d.loop.Work?
    ensures Lockstep(Next(s, a))
  {
    var n: nat := s.d.it - 1;
    PerformKeepsChain(s.hosts, s.sid, s.d.loop.req, n, a.p);
    if a.p == Copied && Known(s.d.loop.req) { CopiedExtendsChain(s.hosts, s.sid, s.d.loop.req, n); }
  }

  lemma ReadKeepsLockstep(s: State, a: Action)
    requires Enabled(s, a) && a.DStep? && Lockstep(s) && (s.d.loop.Read? || s.d.loop.Accept?)
    ensures Lockstep(Next(s, a))
  {
  }

  lemma DStepKeepsLockstep(s: State, a: Action)
    requires Enabled(s, a) && a.DStep? && Lockstep(s) && !s.d.loop.Work? && !s.d.loop.Read? && !s.d.loop.Accept?
    ensures Lockstep(Next(s, a))
  {
  }

  lemma NextKeeps(s: State, a: Action)
    requires Enabled(s, a) && Inv(s)
    ensures Inv(Next(s, a))
  {
    if a.RStep? { RStepKeeps(s, a); } else { DStepKeeps(s, a); }
  }

  lemma RStepKeeps(s: State, a: Action)
    requires Enabled(s, a) && Inv(s) && a.RStep?
    ensures Inv(Next(s, a))
  {
    if s.r.pc.PreSend? || s.r.pc.FinalSend? { SendKeepsLockstep(s, a); }
    else if s.r.pc.PreRecv? || s.r.pc.FinalRecv? { RecvKeepsLockstep(s, a); }
    else { RStepKeepsLockstep(s, a); }
    RStepKeepsAnswers(s, a);
    RStepKeepsLive(s, a);
    R.NextKeepsBalance(s.cfg, s.r, a.x);
    R.NextKeepsLog(s.cfg, s.r, a.x);
    R.NextKeepsSent(s.cfg, s.r, a.x);
  }

  lemma DStepKeeps(s: State, a: Action)
    requires Enabled(s, a) && Inv(s) && a.DStep?
    ensures Inv(Next(s, a))
  {
    if s.d.loop.Work? {
      WorkKeepsAnswers(s, a);
      WorkKeepsLockstep(s, a);
    } else {
      DStepKeepsAnswers(s, a);
      if s.d.loop.Read? || s.d.loop.Accept? { ReadKeepsLockstep(s, a); } else { DStepKeepsLockstep(s, a); }
    }
    D.LoopKeeps(s.d, a.x);
  }

  // ---------------------------------------------------------------- runs

  predicate Legal(s: State, acts: seq<Action>)
    decreases |acts|
  {
    acts != [] ==> Enabled(s, acts[0]) && Legal(Next(s, acts[0]), acts[1..])
  }

  function After(s: State, acts: seq<Action>): State
    requires Legal(s, acts)
    decreases |acts|
  {
    if acts == [] then s else After(Next(s, acts[0]), acts[1..])
  }

  ghost predicate Reachable(s: State) {
    exists s0: State, acts: seq<Action> :: Initial(s0) && Legal(s0, acts) && After(s0, acts) == s
  }

  lemma {:induction false} RunKeeps(s: State, acts: seq<Action>)
    requires Inv(s) && Legal(s, acts)
    ensures Inv(After(s, acts))
    decreases |acts|
  {
    if acts != [] {
      NextKeeps(s, acts[0]);
      RunKeeps(Next(s, acts[0]), acts[1..]);
    }
  }

  lemma ReachableInv(s: State)
    requires Reachable(s)
    ensures Inv(s)
  {
    var s0: State, acts: seq<Action> :| Initial(s0) && Legal(s0, acts) && After(s0, acts) == s;
    InitialInv(s0);
    RunKeeps(s0, acts);
  }

  // ---------------------------------------------------------------- main results

  /**
   Whenever a pre-dump or the final dump runs, the directory it names as its predecessor was
   completed by the request before it, in this session, on its own predecessor, and was copied.
   */
  lemma PredecessorCompleted(s: State)
    requires Reachable(s) && s.d.loop.Work?
    ensures 1 <= s.d.it && Known(s.d.loop.req) && Chained(s.hosts, s.sid, s.d.it - 1)
    ensures s.d.it > 1 ==> Prev(s.d.it) == Some(Num(s.d.it - 1)) && PrevGood(s.hosts.src, s.sid, s.d.it)
  {
    ReachableInv(s);
  }

  /**
   Once the restore may be launched, the chain it reads on the destination is final, k, ..., 1,
   complete, for the k asked for (one if that is zero, none if it is negative), and the source container is stopped: there are
   never two live copies.
   */
  lemma RestoreReadsWholeChain(s: State)
    requires Reachable(s) && (s.r.pc.Launch? || s.r.log.Has(R.Launched))
    ensures s.cfg.iteration > 0 ==> Follow(s.hosts.dst, Final, s.cfg.iteration + 1) == Some([Final] + Down(s.cfg.iteration))
    ensures s.cfg.iteration == 0 ==> Follow(s.hosts.dst, Final, 2) == Some([Final, Num(1)])
    ensures s.cfg.iteration < 0 ==> Follow(s.hosts.dst, Final, 1) == Some([Final])
    ensures !s.hosts.live
  {
    ReachableInv(s);
    FinalChain(s.hosts, s.sid, K(s));
    assert Down(0) == [] && Down(1) == [Num(1)] && [Final] + Down(1) == [Final, Num(1)];
  }

  /** An action that is not a spontaneous failure of the network. */
  predicate Proper(s: State, a: Action) {
    match a
    case RStep(x, _) => x == R.No ==> (s.r.pc.PreRecv? || s.r.pc.FinalRecv?) && DClosed(s) && s.resps == []
    case DStep(x, _) => x == R.No ==> s.d.loop.Work? || (s.d.loop.Read? && RClosed(s) && s.reqs == [])
  }

  predicate Finished(s: State) { s.r.pc.Done? && s.d.loop.Ended? }

  /**
   Every answer that is on its way is Ok if and only if the command of its own request succeeded: for
   a pre-dump as for the final dump.
   */
  lemma AnswersTellTheTruth(s: State, j: nat)
    requires Reachable(s) && j < |s.resps|
    ensures j == 0 && s.oks != [] && (s.resps[j] == R.RESP_OK <==> s.oks[|s.oks| - 1])
    ensures !Gone(s) ==> |s.oks| == s.d.it - 1
  {
    ReachableInv(s);
  }

  /** And the source container is stopped only by a final dump of this session that criu finished. */
  lemma StoppedByFinalDump(s: State)
    requires Reachable(s) && !s.hosts.live
    ensures Final in s.hosts.src && s.hosts.src[Final].session == s.sid && s.hosts.src[Final].complete
    ensures s.d.it > K(s) || Gone(s)
  {
    ReachableInv(s);
  }

  /** A next step of one side. */
  function Turn(s: State): Action {
    if s.d.loop.Read? && s.reqs != [] then DStep(R.Byte(s.reqs[0]), Nothing)
    else if s.d.loop.Read? && RClosed(s) then DStep(R.No, Nothing)
    else if !s.d.loop.Read? && !s.d.loop.Ended? then DStep(R.Yes, Copied)
    else if s.r.pc.PreRecv? || s.r.pc.FinalRecv? then RStep(if s.resps != [] then R.Byte(s.resps[0]) else R.No, false)
    else RStep(R.Yes, false)
  }

  lemma TurnIsProper(s: State)
    requires Inv(s) && !Finished(s)
    ensures Enabled(s, Turn(s)) && Proper(s, Turn(s))
  {
  }

  /**
   No deadlock of the session: until both sides have finished, one of them can go on. The calls
   that exec makes of the forwarding service are taken to return here; module Ending is about them.
   */
  lemma DeadlockFree(s: State)
    requires Reachable(s) && !Finished(s)
    ensures exists a :: Enabled(s, a) && Proper(s, a)
  {
    ReachableInv(s);
    TurnIsProper(s);
  }

  function LoopRank(s: State): int {
    match s.d.loop
    case NotSpawned => 0
    case Accept => 3 * (K(s) + 3 - s.d.it) + 13
    case Read => 3 * (K(s) + 3 - s.d.it) + 12
    case Work(_) => 3 * (K(s) + 3 - s.d.it) + 11
    case Reply(_) => 3 * (K(s) + 3 - s.d.it) + 10
    case Release => s.d.loopDefers.Size() + 1
    case Ended => 0
  }

  lemma LoopStepDrops(s: State, a: Action)
    requires Enabled(s, a) && a.DStep? && 1 <= s.d.it <= K(s) + 2 && D.LoopStack(s.d.loop, s.d.loopDefers)
    ensures 0 <= LoopRank(Next(s, a)) < LoopRank(s)
  {
    assert s.d.loopDefers.Cons? ==> s.d.loopDefers.tail.Size() + 1 == s.d.loopDefers.Size() <= 3;
  }

  function WorkLeft(s: State): int { R.Work(s.cfg, s.r) + LoopRank(s) }

  /** Every step of either side, a failure too, uses up some of a bounded amount of work. */
  lemma StepUsesWork(s: State, a: Action)
    requires Inv(s) && Enabled(s, a)
    ensures WorkLeft(Next(s, a)) < WorkLeft(s)
  {
    if a.RStep? { R.NextWorks(s.cfg, s.r, a.x); } else { LoopStepDrops(s, a); }
  }

  lemma WorkIsBounded(s: State)
    requires Inv(s)
    ensures 0 <= LoopRank(s) <= 3 * K(s) + 19
  {
    assert s.d.loop.Release? ==> s.d.loopDefers.Size() <= 3;
  }

  lemma {:induction false} RunUsesWork(s: State, acts: seq<Action>)
    requires Inv(s) && Legal(s, acts)
    ensures |acts| + WorkLeft(After(s, acts)) <= WorkLeft(s)
    decreases |acts|
  {
    if acts != [] {
      StepUsesWork(s, acts[0]);
      NextKeeps(s, acts[0]);
      RunUsesWork(Next(s, acts[0]), acts[1..]);
    }
  }

  /**
   Termination: from the moment it is connected a session takes at most a number of steps that is
   linear in its pre-dumps and in how long the resume wait can poll, with or without failures.
   */
  lemma SessionEnds(s: State, acts: seq<Action>)
    requires Initial(s) && Legal(s, acts)
    ensures |acts| <= 5 * K(s) + s.cfg.patience + 46
  {
    InitialInv(s);
    RunUsesWork(s, acts);
    RunKeeps(s, acts);
    WorkIsBounded(s);
    WorkIsBounded(After(s, acts));
  }

  /** At most k+1 requests are carried out. */
  lemma AtMostOneFinal(s: State)
    requires Reachable(s) && s.d.loop.Work?
    ensures 1 <= s.d.it <= K(s) + 1 && (s.d.loop.req == R.REQ_DUMP <==> s.d.it == K(s) + 1)
  {
    ReachableInv(s);
  }
}
