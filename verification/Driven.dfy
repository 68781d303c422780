/**
 Where a forwarder can be brought to (server/fwd.go): it can always be ended, if its client does its
 part, and after an early Close it can be left hanging exactly as long as the client side is open.
 */
module Driven {
  import opened Basics
  import opened Forwarder
  import opened Cascade

  /** What the program does by itself while nothing fails. */
  predicate Gentle(a: Action) {
    && InScope(Everything, a) && Prompt(a)
    && !(a.UpWrite? && a.failed) && !(a.DownWrite? && a.failed)
  }

  lemma GentleOrQuiet(f: Fwd)
    requires forall a :: Gentle(a) ==> !Enabled(f, a)
    ensures Quiet(f, Everything)
  {
    forall a | InScope(Everything, a) && Prompt(a) ensures !Enabled(f, a) {
      if a.UpWrite? && a.failed && Enabled(f, a) { assert Enabled(f, UpWrite(|f.up.pump.chunk|, false)); }
      if a.DownWrite? && a.failed && Enabled(f, a) { assert Enabled(f, DownWrite(|f.down.pump.chunk|, false)); }
    }
  }

  lemma UpWorks(f: Fwd, a: Action)
    requires Enabled(f, a) && StageInv(f) && !IsPeer(a) && f.up.got <= |f.up.sent|
    ensures UpRank(Next(f, a).up) <= UpRank(f.up) - (if IsUp(a) then 1 else 0)
  {
    if IsClose(a) { ClosersOnlyShut(f, a); }
  }

  lemma DownWorks(f: Fwd, a: Action)
    requires Enabled(f, a) && StageInv(f) && !IsPeer(a) && f.down.got <= |f.down.sent|
    ensures DownRank(Next(f, a).down) <= DownRank(f.down) - (if IsDown(a) then 1 else 0)
  {
    if a.CallerStep? { CloseOnlyShuts(f, f.callers[a.k].at, Caller(a.k)); }
  }

  /** Whatever a forwarder does, fed or not, uses up some of its work. */
  lemma OwnStepsWork(f: Fwd, a: Action)
    requires Inv(f) && Enabled(f, a) && !IsPeer(a)
    ensures Inv(Next(f, a)) && 0 <= Measure(Next(f, a), Everything) < Measure(f, Everything)
  {
    NextKeepsInv(f, a);
    CloserWorkDrops(f, a);
    MainRankDrops(f, a);
    UpWorks(f, a);
    DownWorks(f, a);
    MeasureNat(Next(f, a), Everything);
  }

  predicate Begun(m: MainPc) { m !in {Made, Listed, Spawned} }

  /** The client is on, nothing ended its stream, and Accept has not given up. */
  predicate Open(f: Fwd) {
    f.early && f.main in {Called, Stored, Dialing, Joining} && !f.up.fin && Reported(f.up.pump).None?
  }

  predicate Fed(f: Fwd) { f.up.fin || f.up.shut || f.up.closed }

  lemma GentleKeepsOpen(f: Fwd, a: Action)
    requires Inv(f) && Open(f) && Gentle(a) && Enabled(f, a)
    ensures Open(Next(f, a))
  {
    if IsClose(a) { ClosersOnlyShut(f, a); }
  }

  lemma StepKeepsFed(f: Fwd, a: Action)
    requires Enabled(f, a) && Fed(f)
    ensures Fed(Next(f, a))
  {
  }

  lemma StepKeepsBegun(f: Fwd, a: Action)
    requires Enabled(f, a) && Begun(f.main)
    ensures Begun(Next(f, a).main)
  {
    NextKeepsMain(f, a);
  }

  /** Runs the program until it has nothing to do. */
  lemma {:induction false} Drive(o: Fwd, f: Fwd) returns (g: Fwd)
    requires Reaches(o, f) && Inv(f) && Begun(f.main)
    ensures Reaches(o, g) && Inv(g) && Begun(g.main) && Quiet(g, Everything)
    ensures (Open(f) ==> Open(g)) && (Fed(f) ==> Fed(g))
    decreases Measure(f, Everything)
  {
    if a :| Gentle(a) && Enabled(f, a) {
      OwnStepsWork(f, a);
      if Open(f) { GentleKeepsOpen(f, a); }
      if Fed(f) { StepKeepsFed(f, a); }
      StepKeepsBegun(f, a);
      Extend(o, f, a);
      MeasureNat(f, Everything);
      g := Drive(o, Next(f, a));
    } else {
      GentleOrQuiet(f);
      g := f;
    }
  }

  lemma QuietHasClient(f: Fwd)
    requires Begun(f.main) && Quiet(f, Everything)
    ensures HasClient(f) && Quiet(f, UpSide)
  {
    assert !Enabled(f, Store);
  }

  lemma ReachesItself(f: Fwd)
    ensures Reaches(f, f)
  {
    assert Path([f], []);
  }

  /** Every forwarder that Accept was called for can end, if its client ends its stream. */
  lemma CanEnd(f: Fwd) returns (g: Fwd)
    requires Inv(f) && Begun(f.main)
    ensures Reaches(f, g) && Inv(g) && Over(g)
  {
    ReachesItself(f);
    var h := f;
    if CanSend(f.up) {
      Extend(f, f, ClientFin);
      NextKeepsInv(f, ClientFin);
      h := Next(f, ClientFin);
    }
    g := Drive(f, h);
    QuietHasClient(g);
    UpSideRests(g);
    EverythingRests(g);
  }

  // ---------------------------------------------------------------- after an early Close

  /** The client side has been given up: the rest will follow. */
  predicate GivenUp(f: Fwd) {
    Begun(f.main) && (f.main !in {Called, Stored, Dialing, Joining} || f.up.fin || Reported(f.up.pump).Some?)
  }

  lemma StepKeepsGivenUp(f: Fwd, a: Action)
    requires Inv(f) && Enabled(f, a) && GivenUp(f)
    ensures GivenUp(Next(f, a))
  {
    if IsClose(a) { ClosersOnlyShut(f, a); }
    StepKeepsBegun(f, a);
  }

  lemma {:induction false} PathKeepsGivenUp(fs: seq<Fwd>, acts: seq<Action>, i: nat)
    requires Path(fs, acts) && i <= |acts| && Inv(fs[0]) && GivenUp(fs[0])
    ensures Inv(fs[i]) && GivenUp(fs[i])
    decreases i
  {
    if i > 0 {
      PathKeepsGivenUp(fs, acts, i - 1);
      NextKeepsInv(fs[i - 1], acts[i - 1]);
      StepKeepsGivenUp(fs[i - 1], acts[i - 1]);
    }
  }

  lemma GivenUpEnds(f: Fwd)
    requires Inv(f) && GivenUp(f) && Quiet(f, Everything)
    ensures f.chanClosed
  {
    QuietHasClient(f);
    UpSideRests(f);
    if f.up.pump.Done? { EverythingRests(f); }
  }

  ghost predicate CanHang(f: Fwd) {
    exists g: Fwd :: Reaches(f, g) && Quiet(g, Everything) && !g.chanClosed
  }

  /**
   After an early Close, exactly when a forwarder can be left with nothing to do and unfinished: as
   long as the client has not ended its stream, no error or end was met on it, and the server was
   dialled with success or not yet. From then on every run ends it.
   */
  lemma HangsIffOpen(f: Fwd)
    requires Inv(f) && f.early && Begun(f.main)
    ensures CanHang(f) <==> Open(f)
  {
    if Open(f) {
      ReachesItself(f);
      var g := Drive(f, f);
      QuietHasClient(g);
      UpSideRests(g);
    } else if CanHang(f) {
      var g: Fwd :| Reaches(f, g) && Quiet(g, Everything) && !g.chanClosed;
      var fs: seq<Fwd>, acts: seq<Action> :| Path(fs, acts) && fs[0] == f && fs[|acts|] == g;
      PathKeepsGivenUp(fs, acts, |acts|);
      GivenUpEnds(g);
    }
  }
}
