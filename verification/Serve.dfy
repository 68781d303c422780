/**
 LM_DumpService.Start (server/lm.go:265-394) as the code has it: the listener and the tunnel with
 their deferred handlers, and the goroutine that answers requests through a one-byte buffer while it
 counts them. It is proved to take the steps of module Dump, and to do to the image directories what
 module Images says of the requests it read.
 */
module Serve {
  import opened Basics
  import opened Restore
  import opened Images
  import opened Dump

  /** The answer to a known request is Ok if its command succeeded, and to any other an error. */
  predicate Tells(resp: byte, r: Round) {
    resp == if (r.req == REQ_PRE_DUMP || r.req == REQ_DUMP) && r.ok then RESP_OK else RESP_ERROR
  }

  class DumpServer {
    const sid: nat
    const env: nat -> Input          // answers of the calls that can fail
    const far: nat -> Progress       // how far the command of a request that failed got
    var used: nat
    var startDefers: List<Owned>
    var loopDefers: List<Owned>
    var log: List<Event>
    var itercnt: nat
    var hosts: Hosts
    var rounds: seq<Round>           // requests carried out
    var replies: seq<byte>           // bytes written to the connection
    ghost var steps: List<Step>

    constructor (sid: nat, env: nat -> Input, far: nat -> Progress, hosts: Hosts)
      ensures this.sid == sid && this.env == env && this.far == far && this.hosts == hosts
      ensures At(Bind, NotSpawned) && rounds == [] && replies == []
    {
      this.sid, this.env, this.far, this.hosts := sid, env, far, hosts;
      used, itercnt, rounds, replies := 0, 1, [], [];
      startDefers, loopDefers, log, steps := Nil, Nil, Nil, Nil;
    }

    /** Control of the two goroutines, and everything so far is what the automaton did. */
    ghost predicate At(start: StartPc, loop: LoopPc)
      reads this
    {
      D(start, loop, itercnt, startDefers, loopDefers, log) == After(steps)
    }

    /** What the requests left behind. */
    ghost predicate Kept(h: Hosts, bytes: seq<byte>)
      reads this
    {
      && hosts == ServeAll(h, sid, 1, rounds)
      && |rounds| <= |bytes|
      && (forall j :: 0 <= j < |rounds| ==> rounds[j].req == bytes[j] && (rounds[j].ok ==> rounds[j].p == Copied))
      && |replies| <= |rounds| <= |replies| + 1
      && (forall j :: 0 <= j < |replies| ==> Tells(replies[j], rounds[j]))
    }

    /** The listener, the key, the tunnel and the process id. */
    ghost predicate AllFour(from: nat) {
      env(from) == Yes && env(from + 1) == Yes && env(from + 2) == Yes && env(from + 3) == Yes
    }

    method Ask(starter: bool) returns (x: Input)
      modifies this`used, this`steps
      ensures x == env(old(used)) && used == old(used) + 1
      ensures steps == Cons(if starter then Starter(x) else Looper(x), old(steps))
    {
      x := env(used);
      used := used + 1;
      steps := Cons(if starter then Starter(x) else Looper(x), steps);
    }

    /** Start up to its return; on failure the deferred handlers give everything back. */
    method Start() returns (ok: bool)
      requires At(Bind, NotSpawned)
      modifies this`used, this`steps, this`log, this`startDefers, this`loopDefers
      ensures At(Returned(!ok), if ok then Accept else NotSpawned)
      ensures Held(log) == Some(if ok then Cons(TunnelChan, Cons(Listener, Nil)) else Nil)
      ensures ok <==> AllFour(old(used))
    {
      ok := Prepare();
      while startDefers != Nil
        invariant At(Leaving(!ok), if ok then Accept else NotSpawned)
        decreases startDefers
      {
        var x := Ask(true);
        if !ok { log := Cons(Released(startDefers.head), log); }
        startDefers := startDefers.tail;
      }
      var x := Ask(true);
      AfterInv(steps);
    }

    /** The body of Start. */
    method Prepare() returns (ok: bool)
      requires At(Bind, NotSpawned)
      modifies this`used, this`steps, this`log, this`startDefers, this`loopDefers
      ensures At(Leaving(!ok), if ok then Accept else NotSpawned)
      ensures ok <==> AllFour(old(used))
    {
      var x := Ask(true);
      if x != Yes { return false; }
      startDefers, log := Cons(Listener, startDefers), Cons(Acquired(Listener), log);
      x := Ask(true);
      if x != Yes { return false; }
      startDefers, log := Cons(TunnelChan, startDefers), Cons(Acquired(TunnelChan), log);
      assert At(OpenTunnel, NotSpawned);
      x := Ask(true);
      if x != Yes { return false; }
      x := Ask(true);
      if x != Yes { return false; }
      loopDefers := OWNS_TUNNEL;
      ok := true;
    }

    /**
     The spawned goroutine, on a connection that delivers these bytes before it ends. It carries out
     the requests, in order and numbered from one, and answers each in turn, until they end or an
     answer cannot be written, and gives everything back. Each dump names a completed predecessor if and only if the requests that were
     carried out are aligned.
     */
    method Serve(bytes: seq<byte>)
      requires At(Returned(false), Accept) && itercnt == 1 && rounds == [] && replies == []
      modifies this
      ensures At(Returned(false), Ended) && Held(log) == Some(Nil)
      ensures Kept(old(hosts), bytes)
      ensures env(old(used)) == Yes && |replies| == |rounds| ==> |rounds| == |bytes|
      ensures env(old(used)) != Yes ==> rounds == []
      ensures Untouched(old(hosts).src, sid, 1) ==> (AllPrevsGood(old(hosts), sid, 1, rounds) <==> Aligned(rounds))
    {
      ghost var h := hosts;
      var x := Ask(false);
      if x == Yes {
        loopDefers, log := Cons(Connection, loopDefers), Cons(Acquired(Connection), log);
        Requests(h, bytes);
      }
      while loopDefers != Nil
        invariant At(Returned(false), Release) && Kept(h, bytes)
        invariant env(old(used)) == Yes && |replies| == |rounds| ==> |rounds| == |bytes|
        invariant env(old(used)) != Yes ==> rounds == []
        decreases loopDefers
      {
        x := Ask(false);
        loopDefers, log := loopDefers.tail, Cons(Released(loopDefers.head), log);
      }
      x := Ask(false);
      AfterInv(steps);
      if Untouched(h.src, sid, 1) { PrevsGoodIffAligned(h, sid, rounds); }
    }

    method Requests(ghost h: Hosts, bytes: seq<byte>)
      requires At(Returned(false), Read) && itercnt == 1 && Kept(h, bytes) && rounds == [] && replies == []
      modifies this
      ensures At(Returned(false), Release) && Kept(h, bytes)
      ensures |replies| == |rounds| ==> |rounds| == |bytes|
    {
      var reqbuf := new byte[1];
      var going := true;
      while going
        invariant Kept(h, bytes)
        invariant At(Returned(false), if going then Read else Release)
        invariant going ==> itercnt == |rounds| + 1 && |replies| == |rounds|
        invariant !going ==> |replies| < |rounds|
        decreases going, |bytes| - |rounds|
      {
        if |rounds| == |bytes| {
          steps := Cons(Looper(No), steps);
          return;
        }
        reqbuf[0] := bytes[|rounds|];
        steps := Cons(Looper(Byte(reqbuf[0])), steps);
        going := Answer(h, bytes, reqbuf[0]);
      }
    }

    /** One request and its answer; false when that cannot be written. */
    method Answer(ghost h: Hosts, bytes: seq<byte>, req: byte) returns (written: bool)
      requires At(Returned(false), Work(req)) && Kept(h, bytes)
      requires itercnt == |rounds| + 1 && |replies| == |rounds| < |bytes| && req == bytes[|rounds|]
      modifies this`used, this`steps, this`hosts, this`rounds, this`replies, this`itercnt
      ensures At(Returned(false), if written then Read else Release) && Kept(h, bytes)
      ensures |rounds| == old(|rounds|) + 1 && |replies| == old(|replies|) + (if written then 1 else 0)
      ensures written ==> itercnt == |rounds| + 1
    {
      var resp := Carry(h, bytes, req);
      var x := Ask(false);
      written := x == Yes;
      if written {
        replies := replies + [resp];
        itercnt := itercnt + 1;
      }
    }

    /** One request: run its command, if it is known, and choose the answer. */
    method Carry(ghost h: Hosts, bytes: seq<byte>, req: byte) returns (resp: byte)
      requires At(Returned(false), Work(req)) && Kept(h, bytes)
      requires itercnt == |rounds| + 1 && |replies| == |rounds| < |bytes| && req == bytes[|rounds|]
      modifies this`used, this`steps, this`hosts, this`rounds
      ensures At(Returned(false), Reply(resp)) && Kept(h, bytes)
      ensures |rounds| == old(|rounds|) + 1 && rounds[|rounds| - 1].ok == (env(old(used)) == Yes)
      ensures req == REQ_PRE_DUMP || req == REQ_DUMP ==> (resp == RESP_OK <==> env(old(used)) == Yes)
      ensures req != REQ_PRE_DUMP && req != REQ_DUMP ==> resp == RESP_ERROR
      ensures resp == RESP_OK || resp == RESP_ERROR
    {
      var x := Ask(false);
      var p := if x == Yes then Copied else far(itercnt);
      if req == REQ_PRE_DUMP || req == REQ_DUMP {
        hosts := Perform(hosts, sid, req, itercnt, p);
        resp := if x == Yes then RESP_OK else RESP_ERROR;
      } else {
        resp := RESP_ERROR;
      }
      ServeOneMore(h, sid, 1, rounds, Round(req, p, x == Yes));
      rounds := rounds + [Round(req, p, x == Yes)];
    }
  }
}
