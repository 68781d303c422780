/**
 LM_Restore.exec (server/lm.go:67-200) as the code has it: straight-line steps with early returns, the
 counting pre-dump loop, the polling resume wait, and the deferred calls run on the way out. It is
 proved to be the automaton of module Restore, for every environment.
 */
module Exec {
  import opened Basics
  import opened Restore

  class Restorer {
    const cfg: Config
    const env: nat -> Input
    var log: List<Effect>
    var defers: List<Defer>
    var used: nat              // answers taken from the environment

    constructor (cfg: Config, env: nat -> Input)
      ensures this.cfg == cfg && this.env == env && At(Listen) && used == 0
    {
      this.cfg, this.env := cfg, env;
      log, defers, used := Nil, Nil, 0;
    }

    /** Control is at pc, and everything so far is what the automaton did. */
    ghost predicate At(pc: Pc)
      reads this
    {
      R(pc, defers, log) == Run(cfg, env, used)
    }

    method Ask() returns (x: Input)
      modifies this`used
      ensures used == old(used) + 1 && x == env(old(used))
      ensures Run(cfg, env, used) == Next(cfg, Run(cfg, env, old(used)), x)
    {
      x := env(used);
      used := used + 1;
    }

    method Note(e: Effect)
      modifies this`log
      ensures log == Cons(e, old(log))
    {
      log := Cons(e, log);
    }

    /** An operation that succeeds opens something and registers the call that undoes it. */
    method Register(d: Defer)
      modifies this`log, this`defers
      ensures log == Cons(Opened(d), old(log)) && defers == Cons(d, old(defers))
    {
      log, defers := Cons(Opened(d), log), Cons(d, defers);
    }

    /** The scripts, the rsync daemon, and the start request to the dump service. */
    method AskForDump() returns (ok: bool)
      requires At(Script)
      modifies this`used
      ensures At(if ok then Dial else Unwind(Aborted))
    {
      var x := Ask();
      if x != Yes { return false; }
      assert At(Daemon);
      x := Ask();
      if x != Yes { return false; }
      assert At(AskDump);
      x := Ask();
      ok := x == Yes;
    }

    method Connect() returns (ok: bool)
      requires At(Listen)
      modifies this
      ensures At(if ok then LoopTop(cfg, 0) else Unwind(Aborted))
    {
      var x := Ask();
      if x != Yes { return false; }
      Register(StopListening);
      assert At(Script);
      ok := AskForDump();
      if !ok { return false; }
      x := Ask();
      if x != Yes { return false; }
      Register(HangUp);
      Register(CloseTunnel);
      assert At(Tunnel);
      x := Ask();
      ok := x == Yes;
    }

    /** sendDumpServiceRequest */
    method Request(pre: bool, i: nat) returns (ok: bool)
      requires At(if pre then PreSend(i) else FinalSend)
      modifies this
      ensures At(if !ok then Unwind(Aborted) else if pre then LoopTop(cfg, i + 1) else Launch)
    {
      var x := Ask();
      if x != Yes { return false; }
      Note(if pre then SentPre else SentDump);
      assert At(if pre then PreRecv(i) else FinalRecv);
      x := Ask();
      ok := x == Byte(RESP_OK);
      if !pre { Note(FinalAnswer(ok)); }
    }

    method PreDumps() returns (ok: bool)
      requires At(LoopTop(cfg, 0))
      modifies this
      ensures At(if ok then LoopTop(cfg, Rounds(cfg.iteration)) else Unwind(Aborted))
    {
      var iteration := Rounds(cfg.iteration);
      var itr := 0;
      while itr < iteration
        invariant itr <= iteration == Rounds(cfg.iteration) && At(LoopTop(cfg, itr))
      {
        ok := Request(true, itr);
        if !ok { return; }
        itr := itr + 1;
      }
      ok := true;
    }

    /** Polls until the resume signal or the timer is seen. */
    method AwaitResume()
      requires At(Await(cfg.patience))
      modifies this
      ensures At(if cfg.withFwd then Retarget else Unwind(Completed))
    {
      var left: nat := cfg.patience;
      var waiting := true;
      while waiting
        invariant left <= cfg.patience
        invariant At(if waiting then Await(left) else if cfg.withFwd then Retarget else Unwind(Completed))
        decreases waiting, left
      {
        var x := Ask();
        if x == Yes || left == 0 { waiting := false; } else { left := left - 1; }
      }
    }

    /** Suspend, the deferred Resume, CloseAllForwarders; without a service this is a nil call. */
    method Quiesce() returns (ok: bool)
      requires At(Suspend)
      modifies this
      ensures At(if ok then FinalSend else Unwind(Panicked))
    {
      var x := Ask();
      if !cfg.hasService { return false; }
      Register(ResumeService);
      assert At(CloseAll);
      x := Ask();
      Note(ClosedAll);
      ok := true;
    }

    method Redirect()
      requires At(Retarget)
      modifies this
      ensures At(Unwind(Completed))
    {
      var x := Ask();
      Note(AddrChanged);
      assert At(Rerate);
      x := Ask();
      Note(RateChanged);
    }

    /** The body of exec up to its return. */
    method Body() returns (out: Outcome)
      requires At(Listen)
      modifies this
      ensures At(Unwind(out))
    {
      var ok := Connect();
      if !ok { return Aborted; }
      ok := PreDumps();
      if !ok { return Aborted; }
      if cfg.withFwd {
        ok := Quiesce();
        if !ok { return Panicked; }
      }
      ok := Request(false, 0);
      if !ok { return Aborted; }
      var x := Ask();
      Note(Launched);
      AwaitResume();
      if cfg.withFwd { Redirect(); }
      out := Completed;
    }

    /**
     The whole call, given that its calls of the forwarding service return: every exit is balanced,
     and the address changes exactly when the final dump was answered with Ok.
     */
    method Call() returns (out: Outcome)
      requires At(Listen)
      modifies this
      ensures At(Done(out)) && defers == Nil && Replay(log) == Some(Nil)
      ensures out == Completed <==> log.Has(FinalAnswer(true))
      ensures log.Has(AddrChanged) <==> cfg.withFwd && out == Completed
      ensures Requests(log) <= Rounds(cfg.iteration) + 1
      ensures out == Completed ==>
        log.Count(SentDump) == 1
        && log.Count(SentPre) == if cfg.iteration > 0 then cfg.iteration else if cfg.iteration == 0 then 1 else 0
    {
      out := Body();
      while defers != Nil
        invariant At(Unwind(out))
        decreases defers
      {
        var x := Ask();
        log, defers := Cons(Undone(defers.head), log), defers.tail;
      }
      var x := Ask();
      RunKeeps(cfg, env, used);
    }
  }
}
