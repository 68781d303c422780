/**
 LM_DumpService.Start (server/lm.go:265-394): its deferred handlers, the goroutine it spawns, and who
 owns the message listener, the tunnel's close channel and the connection in between.
 */
module Dump {
  import opened Basics
  import opened Restore
  import opened Images

  datatype Owned = Listener | TunnelChan | Connection

  datatype Event = Acquired(o: Owned) | Released(o: Owned)

  /** Start itself; Leaving(failed) runs its deferred handlers with reterr set or not. */
  datatype StartPc = Bind | Key | OpenTunnel | Pid | Leaving(failed: bool) | Returned(failed: bool)

  datatype LoopPc = NotSpawned | Accept | Read | Work(req: byte) | Reply(b: byte) | Release | Ended

  datatype D = D(start: StartPc, loop: LoopPc, it: nat, startDefers: List<Owned>,
                 loopDefers: List<Owned>, log: List<Event>)

  const FRESH := D(Bind, NotSpawned, 1, Nil, Nil, Nil)

  // The spawned goroutine closes the tunnel channel first, then the listener.
  const OWNS_TUNNEL := Cons(TunnelChan, Cons(Listener, Nil))

  function Get(d: D, o: Owned, pc: StartPc): D {
    d.(start := pc, startDefers := Cons(o, d.startDefers), log := Cons(Acquired(o), d.log))
  }

  function StartNext(d: D, x: Input): D {
    match d.start
    case Bind => if x == Yes then Get(d, Listener, Key) else d.(start := Leaving(true))
    case Key => if x == Yes then Get(d, TunnelChan, OpenTunnel) else d.(start := Leaving(true))
    case OpenTunnel => d.(start := if x == Yes then Pid else Leaving(true))
    case Pid =>
      if x == Yes then d.(start := Leaving(false), loop := Accept, loopDefers := OWNS_TUNNEL)
      else d.(start := Leaving(true))
    case Leaving(failed) =>
      if d.startDefers.Nil? then d.(start := Returned(failed))
      else
        d.(startDefers := d.startDefers.tail,
           log := if failed then Cons(Released(d.startDefers.head), d.log) else d.log)
    case Returned(_) => d
  }

  function Response(req: byte, ok: bool): byte { if Known(req) && ok then RESP_OK else RESP_ERROR }

  function LoopNext(d: D, x: Input): D {
    match d.loop
    case NotSpawned => d
    case Accept =>
      if x == Yes then d.(loop := Read, loopDefers := Cons(Connection, d.loopDefers), log := Cons(Acquired(Connection), d.log))
      else d.(loop := Release)
    case Read => d.(loop := if x.Byte? then Work(x.b) else Release)
    case Work(req) => d.(loop := Reply(Response(req, x == Yes)))
    case Reply(_) => if x == Yes then d.(loop := Read, it := d.it + 1) else d.(loop := Release)
    case Release =>
      if d.loopDefers.Nil? then d.(loop := Ended)
      else d.(loopDefers := d.loopDefers.tail, log := Cons(Released(d.loopDefers.head), d.log))
    case Ended => d
  }

  /** One step of either goroutine. */
  datatype Step = Starter(x: Input) | Looper(x: Input)

  function Next(d: D, s: Step): D {
    match s case Starter(x) => StartNext(d, x) case Looper(x) => LoopNext(d, x)
  }

  /** Any interleaving; the latest step is the head. */
  function After(steps: List<Step>): D {
    match steps case Nil => FRESH case Cons(s, before) => Next(After(before), s)
  }

  /** What is held after a log; None when something is taken twice or given back when not held. */
  function Held(log: List<Event>): Option<List<Owned>> {
    match log
    case Nil => Some(Nil)
    case Cons(e, before) =>
      var held := Held(before);
      if held.None? then None
      else
        match e
        case Acquired(o) => if held.value.Has(o) then None else Some(Cons(o, held.value))
        case Released(o) => if held.value.Cons? && held.value.head == o then Some(held.value.tail) else None
  }

  /** The stacks of deferred calls that can occur. */
  predicate StartStack(pc: StartPc, ds: List<Owned>) {
    match pc
    case Bind => ds == Nil
    case Key => ds == Cons(Listener, Nil)
    case OpenTunnel => ds == OWNS_TUNNEL
    case Pid => ds == OWNS_TUNNEL
    case Leaving(_) => ds == OWNS_TUNNEL || ds == OWNS_TUNNEL.tail || ds == Nil
    case Returned(_) => ds == Nil
  }

  predicate LoopStack(pc: LoopPc, ds: List<Owned>) {
    match pc
    case NotSpawned => ds == Nil
    case Accept => ds == OWNS_TUNNEL
    case Release => ds == Cons(Connection, OWNS_TUNNEL) || ds == OWNS_TUNNEL || ds == OWNS_TUNNEL.tail || ds == Nil
    case Ended => ds == Nil
    case _ => ds == Cons(Connection, OWNS_TUNNEL)
  }

  /** The deferred calls of the goroutine in charge. */
  function Charge(d: D): List<Owned> { if d.loop.NotSpawned? then d.startDefers else d.loopDefers }

  predicate Inv(d: D) {
    && StartStack(d.start, d.startDefers) && LoopStack(d.loop, d.loopDefers)
    && (d.loop.NotSpawned? <==> d.start != Leaving(false) && d.start != Returned(false))
    && Held(d.log) == Some(Charge(d))
  }

  lemma StartKeeps(d: D, x: Input)
    requires Inv(d)
    ensures Inv(StartNext(d, x))
  {
  }

  lemma LoopKeeps(d: D, x: Input)
    requires Inv(d)
    ensures Inv(LoopNext(d, x))
  {
    assert !OWNS_TUNNEL.tail.Has(Connection);
  }

  lemma {:induction false} AfterInv(steps: List<Step>)
    ensures Inv(After(steps))
  {
    if steps.Cons? {
      AfterInv(steps.tail);
      var d := After(steps.tail);
      if steps.head.Starter? { StartKeeps(d, steps.head.x); } else { LoopKeeps(d, steps.head.x); }
    }
  }

  lemma {:induction false} HeldCounts(log: List<Event>, o: Owned)
    requires Held(log).Some?
    ensures log.Count(Acquired(o)) == log.Count(Released(o)) + Held(log).value.Count(o)
  {
    if log.Cons? { HeldCounts(log.tail, o); }
  }

  /**
   Resource balance, over every interleaving of Start and the goroutine it spawns. What is held is
   always exactly what the deferred calls of the one in charge will give back, so ownership passes
   from Start to the goroutine with no gap and no overlap; after a failing exit of Start, and after
   the loop ended, everything taken was given back as often.
   */
  lemma DumpSideBalanced(steps: List<Step>, o: Owned)
    ensures var d := After(steps);
      && Held(d.log) == Some(Charge(d))
      && d.log.Count(Acquired(o)) == d.log.Count(Released(o)) + Charge(d).Count(o)
      && (d.start == Returned(true) || d.loop == Ended ==> d.log.Count(Acquired(o)) == d.log.Count(Released(o)))
  {
    AfterInv(steps);
    HeldCounts(After(steps).log, o);
  }
}
