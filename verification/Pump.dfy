/**
 The two pump loops of server/fwd.go as methods over the reused buffer, and the pacing of the
 upstream one. A turn is what the environment does in one round of the loop. The loops are proved
 to take exactly the steps of module Forwarder, so its invariant applies to them.
 */
module Pump {
  import opened Basics
  import opened Forwarder
  import opened Cascade

  datatype Turn = Turn(
    fired: bool,                     // the emergency channel is closed when it is polled
    n: nat, r: ReadResult,           // Read
    nw: nat, failed: bool,           // Write
    waited: nat, writeNs: nat,       // time until the write starts, and the write's own time
    overslept: nat)                  // what a sleep takes beyond what was asked for

  /** One write and the sleep after it. */
  datatype Chunk = Chunk(start: nat, wrote: nat, done: nat, n: nat)

  // ---------------------------------------------------------------- the loops as step sequences

  predicate Stops(t: Turn, top: Pump) { t.fired && top.Poll? }

  predicate CanTurn(h: Half, t: Turn, top: Pump) {
    var g := h.(pump := Read);
    Stops(t, top) ||
    (CanRead(g, t.n, t.r) && (t.n > 0 ==> CanWrite(ReadStep(g, t.n, t.r), t.nw, t.failed)))
  }

  /** One round of the loop that starts at `top`; only upstream polls the emergency channel. */
  function TurnStep(h: Half, t: Turn, top: Pump): Half
    requires CanTurn(h, t, top)
  {
    if Stops(t, top) then h.(pump := Ending(Emergency, Want))
    else
      var g := ReadStep(h.(pump := Read), t.n, t.r);
      if t.n > 0 then WriteStep(g, t.nw, t.failed, false, top) else g
  }

  predicate Feasible(h: Half, ts: seq<Turn>, top: Pump)
    decreases |ts|
  {
    ts != [] && h.pump == top ==>
      CanTurn(h, ts[0], top) && Feasible(TurnStep(h, ts[0], top), ts[1..], top)
  }

  function Turns(h: Half, ts: seq<Turn>, top: Pump): Half
    requires Feasible(h, ts, top)
    decreases |ts|
  {
    if ts == [] || h.pump != top then h else Turns(TurnStep(h, ts[0], top), ts[1..], top)
  }

  lemma {:induction false} TurnsKeepFlow(h: Half, ts: seq<Turn>, top: Pump)
    requires Feasible(h, ts, top) && FlowInv(h) && (top.Poll? || top.Read?)
    ensures FlowInv(Turns(h, ts, top))
    decreases |ts|
  {
    if ts != [] && h.pump == top {
      var t := ts[0];
      if !Stops(t, top) {
        var g := h.(pump := Read);
        ReadKeepsFlow(g, t.n, t.r);
        if t.n > 0 { WriteKeepsFlow(ReadStep(g, t.n, t.r), t.nw, t.failed, false, top); }
      }
      TurnsKeepFlow(TurnStep(h, t, top), ts[1..], top);
    }
  }

  /** Whatever the chunks, a loop delivers what it read, except after a failed write. */
  lemma TurnsConserve(h: Half, ts: seq<Turn>, top: Pump)
    requires h == FRESH_HALF.(sent := h.sent, fin := h.fin, pump := top) && (top.Poll? || top.Read?)
    requires Feasible(h, ts, top)
    ensures var g := Turns(h, ts, top);
      && g.got <= |g.sent| && g.out <= g.sent[..g.got]
      && (Reported(g.pump) != Some(WriteError) ==> g.out == g.sent[..g.got])
      && (Reported(g.pump) == Some(Eof) ==> g.out == g.sent)
  {
    TurnsKeepFlow(h, ts, top);
    TurnsLeave(h, ts, top);
    StreamConserved(Turns(h, ts, top));
  }

  lemma {:induction false} TurnsLeave(h: Half, ts: seq<Turn>, top: Pump)
    requires Feasible(h, ts, top) && (top.Poll? || top.Read?)
    requires h.pump == top || h.pump.Ending?
    ensures Turns(h, ts, top).pump == top || Turns(h, ts, top).pump.Ending?
    decreases |ts|
  {
    if ts != [] && h.pump == top { TurnsLeave(TurnStep(h, ts[0], top), ts[1..], top); }
  }

  /** What a round that was not stopped by the channel comes to. */
  lemma TurnIs(h: Half, t: Turn, g: Half)
    requires CanTurn(h, t, Poll) && !t.fired && h.pump.Poll?
    requires g.got == h.got + t.n && g.sent == h.sent && g.fin == h.fin && g.shut == h.shut && g.closed == h.closed
    requires t.n > 0 ==> g.out == h.out + h.sent[h.got..g.got][..t.nw] && g.lost == h.sent[h.got..g.got][t.nw..]
    requires t.n == 0 ==> g.out == h.out && g.lost == h.lost
    requires g.pump == (var why := if t.n > 0 && t.failed then Some(WriteError) else Reason(t.r); if why.Some? then Ending(why.value, Want) else Poll)
    ensures g == TurnStep(h, t, Poll)
  {
  }

  // ---------------------------------------------------------------- turns are runs of the forwarder

  lemma ReachesSelf(f: Fwd)
    ensures Reaches(f, f)
  {
    assert Path([f], []);
  }

  /** A turn of the upstream loop is the run UpPoll, UpRead, UpWrite, UpPace, as far as it gets. */
  lemma UpTurnIsRun(f: Fwd, t: Turn)
    requires f.up.pump == Poll && CanTurn(f.up, t, Poll) && (t.fired <==> f.emerg == Fired)
    ensures Reaches(f, f.(up := TurnStep(f.up, t, Poll)))
  {
    ReachesSelf(f);
    Extend(f, f, UpPoll);
    if !t.fired {
      var f1 := Next(f, UpPoll);
      Extend(f, f1, UpRead(t.n, t.r));
      if t.n > 0 { WriteIsRun(f, Next(f1, UpRead(t.n, t.r)), t); }
    }
  }

  /** The write, and the limiter's sleep when there is one. */
  lemma WriteIsRun(f: Fwd, g: Fwd, t: Turn)
    requires Reaches(f, g) && CanWrite(g.up, t.nw, t.failed)
    ensures Reaches(f, g.(up := WriteStep(g.up, t.nw, t.failed, false, Poll)))
  {
    Extend(f, g, UpWrite(t.nw, t.failed));
    if g.rate > 0 { Extend(f, Next(g, UpWrite(t.nw, t.failed)), UpPace); }
  }

  /** A turn of the downstream loop is the run DownRead, DownWrite. */
  lemma DownTurnIsRun(f: Fwd, t: Turn)
    requires f.down.pump == Read && CanTurn(f.down, t, Read)
    ensures Reaches(f, f.(down := TurnStep(f.down, t, Read)))
  {
    ReachesSelf(f);
    Extend(f, f, DownRead(t.n, t.r));
    if t.n > 0 { DownWriteIsRun(f, Next(f, DownRead(t.n, t.r)), t); }
  }

  lemma DownWriteIsRun(f: Fwd, g: Fwd, t: Turn)
    requires Reaches(f, g) && CanWrite(g.down, t.nw, t.failed)
    ensures Reaches(f, g.(down := WriteStep(g.down, t.nw, t.failed, false, Read)))
  {
    Extend(f, g, DownWrite(t.nw, t.failed));
  }

  /** What the polls of the emergency channel find when nobody closes it meanwhile. */
  predicate Polled(f: Fwd, ts: seq<Turn>) {
    forall i :: 0 <= i < |ts| ==> (ts[i].fired <==> f.emerg == Fired)
  }

  /** So a whole loop is a run of the forwarder, too. */
  lemma {:induction false} UpTurnsAreRun(o: Fwd, f: Fwd, ts: seq<Turn>)
    requires Reaches(o, f) && f.up.pump == Poll && Polled(f, ts) && Feasible(f.up, ts, Poll)
    ensures Reaches(o, f.(up := Turns(f.up, ts, Poll)))
    decreases |ts|
  {
    if ts == [] {
      assert f.(up := f.up) == f;
    } else {
      UpTurnIsRun(f, ts[0]);
      var g := f.(up := TurnStep(f.up, ts[0], Poll));
      Joins(o, f, g);
      assert Turns(f.up, ts, Poll) == Turns(g.up, ts[1..], Poll);
      if g.up.pump == Poll { UpTurnsAreRun(o, g, ts[1..]); }
      else { assert Turns(g.up, ts[1..], Poll) == g.up; }
    }
  }

  lemma {:induction false} DownTurnsAreRun(o: Fwd, f: Fwd, ts: seq<Turn>)
    requires Reaches(o, f) && f.down.pump == Read && Feasible(f.down, ts, Read)
    ensures Reaches(o, f.(down := Turns(f.down, ts, Read)))
    decreases |ts|
  {
    if ts == [] {
      assert f.(down := f.down) == f;
    } else {
      DownTurnIsRun(f, ts[0]);
      var g := f.(down := TurnStep(f.down, ts[0], Read));
      Joins(o, f, g);
      assert Turns(f.down, ts, Read) == Turns(g.down, ts[1..], Read);
      if g.down.pump == Read { DownTurnsAreRun(o, g, ts[1..]); }
      else { assert Turns(g.down, ts[1..], Read) == g.down; }
    }
  }

  lemma Joins(o: Fwd, f: Fwd, g: Fwd)
    requires Reaches(o, f) && Reaches(f, g)
    ensures Reaches(o, g)
  {
    var fs: seq<Fwd>, acts: seq<Action> :| Path(fs, acts) && fs[0] == o && fs[|acts|] == f;
    var gs: seq<Fwd>, bcts: seq<Action> :| Path(gs, bcts) && gs[0] == f && gs[|bcts|] == g;
    JoinsPaths(fs, acts, gs, bcts);
  }

  lemma JoinsPaths(fs: seq<Fwd>, acts: seq<Action>, gs: seq<Fwd>, bcts: seq<Action>)
    requires Path(fs, acts) && Path(gs, bcts) && gs[0] == fs[|acts|]
    ensures Reaches(fs[0], gs[|bcts|])
  {
    var hs, ccts := fs + gs[1..], acts + bcts;
    forall i | 0 <= i < |ccts| ensures Enabled(hs[i], ccts[i]) && hs[i + 1] == Next(hs[i], ccts[i]) {
      if i >= |acts| { assert hs[i] == gs[i - |acts|] && hs[i + 1] == gs[i + 1 - |acts|]; }
    }
    assert Path(hs, ccts) && hs[0] == fs[0] && hs[|ccts|] == gs[|bcts|];
  }

  /** Unrolls one round. */
  lemma NextTurn(h: Half, ts: seq<Turn>, i: nat, top: Pump)
    requires i < |ts| && h.pump == top && Feasible(h, ts[i..], top)
    ensures CanTurn(h, ts[i], top)
    ensures Feasible(TurnStep(h, ts[i], top), ts[i + 1..], top)
    ensures Turns(h, ts[i..], top) == Turns(TurnStep(h, ts[i], top), ts[i + 1..], top)
    ensures TurnStep(h, ts[i], top).pump != top ==> Turns(h, ts[i..], top) == TurnStep(h, ts[i], top)
  {
    assert ts[i..][1..] == ts[i + 1..];
  }

  /** One direction of a forwarder, updated in place. */
  class Direction {
    const sent: seq<byte>
    const fin: bool
    var got: nat
    var shut: bool
    var out: seq<byte>
    var lost: seq<byte>
    var clock: nat

    constructor (sent: seq<byte>, fin: bool)
      ensures View(Poll) == FRESH_HALF.(sent := sent, fin := fin, pump := Poll)
    {
      this.sent, this.fin := sent, fin;
      got, shut, out, lost, clock := 0, false, [], [], 0;
    }

    ghost function View(p: Pump): Half
      reads this
    {
      Half(sent, got, fin, shut, false, out, lost, p)
    }

    /** Copies the next n bytes to the front of the buffer. */
    method Fill(buf: array<byte>, n: nat)
      requires got + n <= |sent| && n <= buf.Length
      modifies this`got, buf
      ensures got == old(got) + n
      ensures buf[..n] == sent[old(got)..got]
    {
      for j := 0 to n
        invariant got == old(got)
        invariant buf[..j] == sent[got..got + j]
      {
        buf[j] := sent[got + j];
      }
      got := got + n;
    }

    /** The write loop's half of a turn: at most nw bytes of the chunk reach the other side. */
    method Put(buf: array<byte>, n: nat, nw: nat)
      requires nw <= n <= buf.Length
      modifies this`out, this`lost
      ensures out == old(out) + buf[..n][..nw] && lost == buf[..n][nw..]
    {
      out, lost := out + buf[..nw], buf[nw..n];
      assert buf[..n][..nw] == buf[..nw];
    }

    /** The timed write and the limiter's sleep after it. */
    method PutPaced(buf: array<byte>, t: Turn, rate: int, log: seq<Chunk>) returns (log': seq<Chunk>)
      requires t.nw <= t.n <= buf.Length && t.nw <= BUFFER_SIZE
      requires LogOk(log, rate, clock)
      modifies this`out, this`lost, this`clock
      ensures out == old(out) + buf[..t.n][..t.nw] && lost == buf[..t.n][t.nw..]
      ensures LogOk(log', rate, clock)
      ensures Sum(log', 0, |log'|) == Sum(log, 0, |log|) + t.nw
      ensures rate <= 0 ==> clock == old(clock) + t.waited + t.writeNs
      ensures rate > 0 ==>
        clock == old(clock) + t.waited + t.writeNs
                 + (if SleepNs(t.nw, rate, t.writeNs) > 0 then SleepNs(t.nw, rate, t.writeNs) + t.overslept else 0)
    {
      clock := clock + t.waited;
      var start := clock;
      Put(buf, t.n, t.nw);
      clock := clock + t.writeNs;
      if rate > 0 {
        var ns := SleepNs(t.nw, rate, t.writeNs);
        PacedBySleep(t.nw, rate, t.writeNs);
        if ns > 0 {
          clock := clock + ns + t.overslept;
          MulMono(rate, t.writeNs + ns + 1, t.writeNs + ns + t.overslept + 1);
        }
      }
      var c := Chunk(start, start + t.writeNs, clock, t.nw);
      ChunkAppends(log, c, rate);
      log' := log + [c];
    }

    /** One round of the upstream loop; a reason when the loop is left. */
    method UpstreamRound(buf: array<byte>, t: Turn, rate: int, log: seq<Chunk>)
      returns (why: Option<Why>, log': seq<Chunk>)
      requires buf.Length == BUFFER_SIZE && CanTurn(View(Poll), t, Poll)
      requires LogOk(log, rate, clock)
      modifies this, buf
      ensures View(if why.Some? then Ending(why.value, Want) else Poll) == TurnStep(old(View(Poll)), t, Poll)
      ensures LogOk(log', rate, clock)
      ensures Sum(log', 0, |log'|) - |out| == Sum(log, 0, |log|) - old(|out|)
    {
      log' := log;
      ghost var h := View(Poll);
      if t.fired { return Some(Emergency), log; }
      log' := Pass(buf, t, rate, log);
      why := if t.n > 0 && t.failed then Some(WriteError) else Reason(t.r);
      TurnIs(h, t, View(if why.Some? then Ending(why.value, Want) else Poll));
    }

    /** Reads a chunk and, if there is one, writes it. */
    method Pass(buf: array<byte>, t: Turn, rate: int, log: seq<Chunk>) returns (log': seq<Chunk>)
      requires t.n <= buf.Length == BUFFER_SIZE && got + t.n <= |sent| && (t.n > 0 ==> t.nw <= t.n)
      requires LogOk(log, rate, clock)
      modifies this`got, this`out, this`lost, this`clock, buf
      ensures got == old(got) + t.n
      ensures t.n > 0 ==> out == old(out) + sent[old(got)..got][..t.nw] && lost == sent[old(got)..got][t.nw..]
      ensures t.n == 0 ==> out == old(out) && lost == old(lost)
      ensures LogOk(log', rate, clock)
      ensures Sum(log', 0, |log'|) - |out| == Sum(log, 0, |log|) - old(|out|)
    {
      log' := log;
      Fill(buf, t.n);
      if t.n > 0 { log' := PutPaced(buf, t, rate, log); }
    }

    method Upstream(rate: int, turns: seq<Turn>) returns (why: Option<Why>, log: seq<Chunk>)
      requires Feasible(View(Poll), turns, Poll)
      modifies this
      ensures View(if why.Some? then Ending(why.value, Want) else Poll) == Turns(old(View(Poll)), turns, Poll)
      ensures Sum(log, 0, |log|) == |out| - |old(out)|
      ensures LogOk(log, rate, clock)
    {
      var buf := new byte[BUFFER_SIZE];
      why, log := None, [];
      var i := 0;
      while i < |turns|
        invariant 0 <= i <= |turns| && fresh(buf) && buf.Length == BUFFER_SIZE
        invariant Feasible(View(Poll), turns[i..], Poll)
        invariant Turns(View(Poll), turns[i..], Poll) == Turns(old(View(Poll)), turns, Poll)
        invariant Sum(log, 0, |log|) == |out| - |old(out)|
        invariant LogOk(log, rate, clock)
      {
        NextTurn(View(Poll), turns, i, Poll);
        why, log := UpstreamRound(buf, turns[i], rate, log);
        if why.Some? { return; }
        i := i + 1;
      }
      why := None;
    }

    /** One round of the downstream loop, which neither polls nor sleeps. */
    method DownstreamRound(buf: array<byte>, t: Turn) returns (why: Option<Why>)
      requires buf.Length == BUFFER_SIZE && CanTurn(View(Read), t, Read)
      modifies this, buf
      ensures View(if why.Some? then Ending(why.value, Want) else Read) == TurnStep(old(View(Read)), t, Read)
    {
      ghost var h := View(Read);
      Fill(buf, t.n);
      if t.n > 0 {
        Put(buf, t.n, t.nw);
        if t.failed {
          assert View(Ending(WriteError, Want)) == TurnStep(h, t, Read);
          return Some(WriteError);
        }
      }
      if t.r != More {
        assert View(Ending(Reason(t.r).value, Want)) == TurnStep(h, t, Read);
        return Reason(t.r);
      }
      why := None;
    }

    method Downstream(turns: seq<Turn>) returns (why: Option<Why>)
      requires Feasible(View(Read), turns, Read)
      modifies this
      ensures View(if why.Some? then Ending(why.value, Want) else Read) == Turns(old(View(Read)), turns, Read)
    {
      var buf := new byte[BUFFER_SIZE];
      why := None;
      var i := 0;
      while i < |turns|
        invariant 0 <= i <= |turns| && fresh(buf) && buf.Length == BUFFER_SIZE
        invariant Feasible(View(Read), turns[i..], Read)
        invariant Turns(View(Read), turns[i..], Read) == Turns(old(View(Read)), turns, Read)
      {
        NextTurn(View(Read), turns, i, Read);
        why := DownstreamRound(buf, turns[i]);
        if why.Some? { return; }
        i := i + 1;
      }
      why := None;
    }
  }

  // ---------------------------------------------------------------- rate limiter

  /** The sleep after a write of nw bytes that took writeNs, at `rate` Mbps, in whole ns. */
  function SleepNs(nw: nat, rate: int, writeNs: nat): nat
    requires rate > 0
  {
    var rateBps := rate as real * 125000.0;
    var timeToSleep := nw as real / rateBps - writeNs as real / 1000000000.0;
    if timeToSleep > 0.0 then (timeToSleep * 1000000000.0).Floor else 0
  }

  function Sum(log: seq<Chunk>, i: nat, j: nat): nat
    requires i <= j <= |log|
    decreases j - i
  {
    if i == j then 0 else Sum(log, i, j - 1) + log[j - 1].n
  }

  predicate Ordered(log: seq<Chunk>) {
    && (forall k :: 0 <= k < |log| ==> log[k].start <= log[k].wrote <= log[k].done && log[k].n <= BUFFER_SIZE)
    && (forall k, l :: 0 <= k < l < |log| ==> log[k].done <= log[l].start)
  }

  predicate Paced(log: seq<Chunk>, rate: int) {
    && Ordered(log)
    && (forall k :: 0 <= k < |log| ==> 8000 * log[k].n <= rate * (log[k].done - log[k].start + 1))
  }

  lemma {:induction false} SumPrefix(log: seq<Chunk>, c: Chunk, j: nat)
    requires j <= |log|
    ensures Sum(log + [c], 0, j) == Sum(log, 0, j)
  {
    if j > 0 { SumPrefix(log, c, j - 1); }
  }

  /** A log of ordered, paced chunks that were all over by t. */
  predicate LogOk(log: seq<Chunk>, rate: int, t: nat) {
    && (if rate > 0 then Paced(log, rate) else Ordered(log))
    && (log != [] ==> log[|log| - 1].done <= t)
  }

  lemma ChunkAppends(log: seq<Chunk>, c: Chunk, rate: int)
    requires LogOk(log, rate, c.start) && c.start <= c.wrote <= c.done && c.n <= BUFFER_SIZE
    requires rate > 0 ==> 8000 * c.n <= rate * (c.done - c.start + 1)
    ensures LogOk(log + [c], rate, c.done)
    ensures Sum(log + [c], 0, |log| + 1) == Sum(log, 0, |log|) + c.n
  {
    SumPrefix(log, c, |log|);
    assert Ordered(log + [c]);
  }

  lemma MulMono(r: int, a: int, b: int)
    requires r > 0 && a <= b
    ensures r * a <= r * b
  {
  }

  lemma {:induction false} RealMul(a: int, b: nat)
    ensures (a * b) as real == a as real * b as real
  {
    if b > 0 {
      RealMul(a, b - 1);
      assert a * b == a * (b - 1) + a;
      assert a as real * b as real == a as real * (b - 1) as real + a as real;
    }
  }

  /** Writing plus sleeping takes at least the time the rate allows, short of one nanosecond. */
  lemma PacedBySleep(nw: nat, rate: int, writeNs: nat)
    requires rate > 0
    ensures 8000 * nw <= rate * (writeNs + SleepNs(nw, rate, writeNs) + 1)
  {
    var b, r, w := nw as real, rate as real, writeNs as real;
    var q := b / (r * 125000.0);
    assert q * (r * 125000.0) == b;
    var n := SleepNs(nw, rate, writeNs);
    assert q * 1000000000.0 - w <= n as real + 1.0;
    var all := writeNs + n + 1;
    assert q * 1000000000.0 <= all as real;
    assert r * (q * 1000000000.0) <= r * all as real by { RealMono(r, q * 1000000000.0, all as real); }
    assert r * (q * 1000000000.0) == b * 8000.0;
    RealMul(rate, all);
  }

  /** b/(r*125000) seconds and w nanoseconds, against n nanoseconds. */
  lemma SleepScales(b: real, r: real, w: real, n: real)
    requires r > 0.0
    ensures n <= (b / (r * 125000.0) - w / 1000000000.0) * 1000000000.0 <==> r * (w + n) <= b * 8000.0
  {
    var q := b / (r * 125000.0);
    assert q * (r * 125000.0) == b;
    assert (q - w / 1000000000.0) * 1000000000.0 == q * 1000000000.0 - w;
    assert r * (q * 1000000000.0) == b * 8000.0;
    if w + n <= q * 1000000000.0 { RealMono(r, w + n, q * 1000000000.0); }
    if w + n > q * 1000000000.0 { RealStrict(r, q * 1000000000.0, w + n); }
  }

  lemma RealStrict(r: real, a: real, b: real)
    requires r > 0.0 && a < b
    ensures r * a < r * b
  {
  }

  /**
   The sleep is exact: the longest in whole nanoseconds with which the write does not fall behind
   the rate, and none when the write alone took that long. So the limiter is never too slow either.
   */
  lemma SleepIsExact(nw: nat, rate: int, writeNs: nat, n: nat)
    requires rate > 0
    ensures 0 < n <= SleepNs(nw, rate, writeNs) <==> n > 0 && rate * (writeNs + n) <= 8000 * nw
  {
    var b, r, w := nw as real, rate as real, writeNs as real;
    SleepScales(b, r, w, n as real);
    RealMul(rate, writeNs + n);
    assert r * (w + n as real) == (rate * (writeNs + n)) as real;
    assert b * 8000.0 == (8000 * nw) as real;
    var t := (b / (r * 125000.0) - w / 1000000000.0) * 1000000000.0;
    assert n as real <= t <==> n <= t.Floor;
  }

  lemma RealMono(r: real, a: real, b: real)
    requires r > 0.0 && a <= b
    ensures r * a <= r * b
  {
  }

  /** m limited chunks in a row: 8000 * bytes <= rate * (elapsed + m). */
  lemma {:induction false} RateBound(log: seq<Chunk>, rate: int, i: nat, j: nat)
    requires Paced(log, rate) && rate > 0 && i < j <= |log|
    ensures 8000 * Sum(log, i, j) <= rate * (log[j - 1].done - log[i].start + (j - i))
    decreases j - i
  {
    var last := log[j - 1].done - log[j - 1].start + 1;
    assert 8000 * log[j - 1].n <= rate * last;
    if i + 1 == j {
      assert Sum(log, i, j) == Sum(log, i, i) + log[i].n;
    } else {
      RateBound(log, rate, i, j - 1);
      var before := log[j - 2].done - log[i].start + (j - 1 - i);
      assert rate * before + rate * last == rate * (before + last);
      MulMono(rate, before + last, log[j - 1].done - log[i].start + (j - i));
    }
  }

  lemma {:induction false} SumDropsFirst(log: seq<Chunk>, i: nat, j: nat)
    requires i < j <= |log|
    ensures Sum(log, i, j) == log[i].n + Sum(log, i + 1, j)
    decreases j - i
  {
    if i + 1 < j { SumDropsFirst(log, i, j - 1); }
    else { assert Sum(log, i, j) == Sum(log, i, i) + log[i].n; }
  }

  /**
   The chunks i..j-1 whose writes meet the `ns` nanoseconds after `from` carry at most what the
   rate allows in that time, plus two buffers.
   */
  lemma WindowBound(log: seq<Chunk>, rate: int, i: nat, j: nat, from: nat, ns: nat)
    requires Paced(log, rate) && rate > 0 && i < j <= |log|
    requires from <= log[i].wrote && log[j - 1].start <= from + ns
    ensures 8000 * Sum(log, i, j) <= rate * (ns + (j - i)) + 2 * 8000 * BUFFER_SIZE
  {
    SumDropsFirst(log, i, j);
    MulMono(rate, 0, ns + (j - i));
    if i + 2 < j {
      RateBound(log, rate, i + 1, j - 1);
      MulMono(rate, log[j - 2].done - log[i + 1].start + (j - 2 - i), ns + (j - i));
      assert Sum(log, i + 1, j) == Sum(log, i + 1, j - 1) + log[j - 1].n;
    } else if i + 2 == j {
      assert Sum(log, i + 1, j) == Sum(log, i + 1, i + 1) + log[i + 1].n;
    }
  }
}
