/**
 The emergency close of a rate-limited forwarder (server/fwd.go:55-59, :112-125, :151-156): a Close makes
 the upstream pump leave at its next poll, so at most one more buffer is read however much is queued.
 */
module Emergency {
  import opened Basics
  import opened Forwarder
  import opened Cascade

  /** From Arm on the channel exists exactly when the forwarder is limited. */
  lemma ArmedIffLimited(f: Fwd)
    requires Inv(f) && PastArm(f.main)
    ensures f.rate > 0 <==> f.emerg != NoChan
  {
  }

  /** Nobody in closeUpstream has got to the point after the channel was closed. */
  predicate NotShutYet(f: Fwd) { !f.upClosed && OwnerAt(f) !in {Shut, Mark} }

  predicate FiredIfShut(f: Fwd) {
    PastArm(f.main) && f.rate > 0 && (f.emerg == Fired || NotShutYet(f))
  }

  lemma StepFires(f: Fwd, a: Action)
    requires Inv(f) && FiredIfShut(f) && Enabled(f, a)
    ensures FiredIfShut(Next(f, a))
  {
    ArmedIffLimited(f);
    NextKeepsInv(f, a);
    NextKeepsLabels(f, a);
    StaysPastArm(f, a);
    if IsClose(a) { CloserFires(f, a); } else { OthersLeaveGate(f, a); }
  }

  lemma StaysPastArm(f: Fwd, a: Action)
    requires Enabled(f, a) && PastArm(f.main)
    ensures PastArm(Next(f, a).main)
  {
    MainRankDrops(f, a);
  }

  lemma OthersLeaveGate(f: Fwd, a: Action)
    requires Enabled(f, a) && !IsClose(a) && PastArm(f.main) && StageInv(f)
    ensures var g := Next(f, a);
      g.mux == f.mux && g.upClosed == f.upClosed && g.emerg == f.emerg && OwnerAt(g) in {OwnerAt(f), Want}
  {
  }

  lemma CloserFires(f: Fwd, a: Action)
    requires Enabled(f, a) && Inv(f) && Inv(Next(f, a)) && IsClose(a) && f.emerg != NoChan && (f.emerg == Fired || NotShutYet(f))
    ensures Next(f, a).emerg == Fired || NotShutYet(Next(f, a))
  {
    if a.DownEnd? { GateFires(f, f.down.pump.at, DownPump, Next(f, a)); }
    else if a.CallerStep? { GateFires(f, f.callers[a.k].at, Caller(a.k), Next(f, a)); }
  }

  /** One step of closeUpstream: from Signal on the channel is closed. */
  lemma GateFires(f: Fwd, at: ClosePc, me: Owner, g: Fwd)
    requires f.emerg != NoChan && (f.emerg == Fired || NotShutYet(f)) && at == At(f, me) && me != Nobody
    requires CloseEnabled(f, at, me)
    requires var h := CloseNext(f, at, me); g.mux == h.mux && g.upClosed == h.upClosed && g.emerg == h.emerg
    requires At(g, me) == (if CloseGoto(f, at).Some? then CloseGoto(f, at).value else Want)
    ensures g.emerg == Fired || NotShutYet(g)
  {
  }

  lemma {:induction false} PathFires(fs: seq<Fwd>, acts: seq<Action>, i: nat)
    requires Path(fs, acts) && i <= |acts| && Inv(fs[0]) && FiredIfShut(fs[0])
    ensures Inv(fs[i]) && FiredIfShut(fs[i])
    decreases i
  {
    if i > 0 {
      PathFires(fs, acts, i - 1);
      NextKeepsInv(fs[i - 1], acts[i - 1]);
      StepFires(fs[i - 1], acts[i - 1]);
    }
  }

  /**
   In every run of a limited forwarder whose channel exists when closeUpstream is entered for the first
   time: once anybody has got past the channel there, it is closed.
   */
  lemma CloseFires(fs: seq<Fwd>, acts: seq<Action>)
    requires Path(fs, acts) && Inv(fs[0]) && PastArm(fs[0].main) && fs[0].rate > 0 && NotShutYet(fs[0])
    ensures var g := fs[|acts|]; g.upClosed || OwnerAt(g) in {Shut, Mark} ==> g.emerg == Fired
  {
    PathFires(fs, acts, |acts|);
  }

  /** At that point itself: the channel is closed there if and only if it was made before. */
  lemma SignalFiresIffArmed(f: Fwd, k: nat)
    requires Inv(f) && k < |f.callers| && f.callers[k] == Closing(Signal) && Enabled(f, CallerStep(k))
    ensures Next(f, CallerStep(k)).emerg == Fired <==> PastArm(f.main) && f.rate > 0
  {
    assert OwnerAt(f) == Signal;
  }

  lemma RunsCloser(o: Fwd, f: Fwd) returns (g: Fwd)
    requires Reaches(o, f) && f.callers == [Closing(Want)] && f.mux == Nobody && !f.upClosed && f.emerg == NoChan && f.main == Stored
    ensures Reaches(o, g) && g == f.(callers := [Awaiting], upClosed := true, up := f.up.(shut := true))
  {
    var c := CallerStep(0);
    Extend(o, f, c);
    var f1 := Next(f, c);
    Extend(o, f1, c);
    var f2 := Next(f1, c);
    Extend(o, f2, c);
    g := RunsCloserRest(o, Next(f2, c));
  }

  lemma RunsCloserRest(o: Fwd, f: Fwd) returns (g: Fwd)
    requires Reaches(o, f) && f.callers == [Closing(Shut)] && f.mux == Caller(0) && f.main == Stored
    ensures Reaches(o, g) && g == f.(callers := [Awaiting], upClosed := true, up := f.up.(shut := true), mux := Nobody)
  {
    var c := CallerStep(0);
    Extend(o, f, c);
    var f1 := Next(f, c);
    Extend(o, f1, c);
    var f2 := Next(f1, c);
    Extend(o, f2, c);
    g := Next(f2, c);
  }

  /**
   So a Close that comes between the storing of the connection and the making of the channel leaves it
   open for good, at every limited rate: the pump will read all that is queued.
   */
  lemma CloseBeforeArmDoesNotFire(rate: int, addr: Addr)
    requires rate > 0
    ensures exists g: Fwd :: Reaches(EarlyClose(rate, addr), g) && g.main == Dialing && g.upClosed && !g.early && g.emerg == Armed
  {
    var f := EarlyClose(rate, addr);
    assert Path([f], []);
    Extend(f, f, Store);
    var g := RunsCloser(f, Next(f, Store));
    Extend(f, g, Arm);
  }

  // ---------------------------------------------------------------- what the pump still reads

  /** What it can read before its next poll. */
  function Slack(h: Half): nat { if h.pump.Read? then BUFFER_SIZE else 0 }

  function Reads(acts: seq<Action>): nat {
    if acts == [] then 0 else (if acts[0].UpRead? then 1 else 0) + Reads(acts[1..])
  }

  function Chances(h: Half): nat { if h.pump.Read? then 1 else 0 }

  lemma FiredStep(f: Fwd, a: Action)
    requires Inv(f) && Enabled(f, a) && f.emerg == Fired
    ensures Next(f, a).emerg == Fired
    ensures Next(f, a).up.got + Slack(Next(f, a).up) <= f.up.got + Slack(f.up)
    ensures Chances(Next(f, a).up) + (if a.UpRead? then 1 else 0) <= Chances(f.up)
  {
    if IsClose(a) { ClosersOnlyShut(f, a); }
  }

  lemma {:induction false} FiredPath(fs: seq<Fwd>, acts: seq<Action>)
    requires Path(fs, acts) && Inv(fs[0]) && fs[0].emerg == Fired
    ensures var g := fs[|acts|];
      g.up.got + Slack(g.up) <= fs[0].up.got + Slack(fs[0].up) && Reads(acts) + Chances(g.up) <= Chances(fs[0].up)
    decreases |acts|
  {
    if acts != [] {
      FiredStep(fs[0], acts[0]);
      NextKeepsInv(fs[0], acts[0]);
      assert Path(fs[1..], acts[1..]);
      FiredPath(fs[1..], acts[1..]);
    }
  }

  /**
   Once the channel is closed the upstream pump starts at most one more read, and none unless it had
   polled before; so it takes at most one buffer more from the client, in every run.
   */
  lemma EmergencyStopsReading(fs: seq<Fwd>, acts: seq<Action>)
    requires Path(fs, acts) && Inv(fs[0]) && fs[0].emerg == Fired
    ensures Reads(acts) <= if fs[0].up.pump.Read? then 1 else 0
    ensures fs[|acts|].up.got <= fs[0].up.got + (if fs[0].up.pump.Read? then BUFFER_SIZE else 0)
  {
    FiredPath(fs, acts);
  }
}
