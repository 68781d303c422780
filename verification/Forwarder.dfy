/**
 One forwarder (server/fwd.go) as a step system: the goroutine that runs Accept, its two pump
 goroutines, and any number of callers of Close, interleaved one atomic action at a time.

 A connection keeps the bytes its peer sent and how many of them were read. After CloseRead the
 bytes already queued can still be read and then the end of the stream is reported.
 */
module Forwarder {
  import opened Basics

  // Fwdr_BufferSize
  const BUFFER_SIZE: nat := 32 * 1024 * 1024

  /** Why a pump left its loop. */
  datatype Why = Eof | ReadError | WriteError | Emergency

  /** Program points of closeUpstream; every point but Want holds the mutex. */
  datatype ClosePc = Want | Check | Signal | Shut | Mark | Leave

  datatype Pump =
    | Idle
    | Poll                                        // select on the emergency channel
    | Read
    | Write(chunk: seq<byte>, rest: Option<Why>)  // rest: what the read reported with the chunk
    | Pace(rest: Option<Why>)                     // the rate limiter's sleep
    | Ending(why: Why, at: ClosePc)               // deferred close of the other direction
    | Done(why: Why)

  /**
   One direction: the connection it reads (sent[..got] was read, sent[got..] is queued), the bytes
   it wrote, the tail its last failed write did not write, and the goroutine that pumps it.
   */
  datatype Half = Half(sent: seq<byte>, got: nat, fin: bool, shut: bool, closed: bool,
                       out: seq<byte>, lost: seq<byte>, pump: Pump)

  datatype CallerPc = Closing(at: ClosePc) | Awaiting | Returned

  /** The goroutine of server/fwdsvc.go:159-164 and, before it exists, the listener's steps. */
  datatype MainPc =
    | Made | Listed | Spawned | Called | Stored | Dialing | Joining
    | CloseClient | CloseServer | DialFailed | Announce | Finished | Removed

  datatype Owner = Nobody | DownPump | Caller(k: nat)

  datatype EmergencyChan = NoChan | Armed | Fired

  datatype Fwd = Fwd(
    rate: int,
    addr: Option<Addr>,
    main: MainPc,
    up: Half,              // client to server
    down: Half,            // server to client
    emerg: EmergencyChan,
    fires: nat,            // how often close(chanEmergencyClose) ran
    upClosed: bool,
    early: bool,           // a CloseRead ran before the client connection was stored
    mux: Owner,            // muxs[0]
    callers: seq<CallerPc>,
    chanClosed: bool)

  const FRESH_HALF := Half([], 0, false, false, false, [], [], Idle)

  // A CloseRead on a client connection that is not stored yet is taken to return an error.

  /** NewForwarder plus the accepted connection that Accept will store. */
  function New(): Fwd {
    Fwd(0, None, Made, FRESH_HALF, FRESH_HALF, NoChan, 0, false, false, Nobody, [], false)
  }

  datatype ReadResult = More | AtEof | Failed

  datatype Action =
    // the peers
    | ClientSends(bs: seq<byte>) | ClientFin | ServerSends(bs: seq<byte>) | ServerFin
    // Accept
    | Store | Arm | DialOk | DialFail | Join | ShutClientConn | ShutServerConn | DropClientConn
    | CloseChan
    // upstream
    | UpPoll | UpRead(n: nat, r: ReadResult) | UpWrite(nw: nat, failed: bool) | UpPace | UpEnd
    // downstream
    | DownRead(n: nat, r: ReadResult) | DownWrite(nw: nat, failed: bool) | DownEnd
    // callers of Close
    | CallerStep(k: nat) | CallerReturn(k: nat)

  predicate HasClient(f: Fwd) {
    f.main !in {Made, Listed, Spawned, Called}
  }

  function Queued(h: Half): int { |h.sent| - h.got }

  predicate CanSend(h: Half) { !h.fin && !h.shut && !h.closed }

  predicate CanRead(h: Half, n: nat, r: ReadResult) {
    && h.pump.Read?
    && n <= BUFFER_SIZE
    && h.got + n <= |h.sent|
    && (r == More ==> n > 0)
    && (r == AtEof ==> h.got + n == |h.sent| && (h.fin || h.shut))
  }

  // A write that is short always reports an error.
  predicate CanWrite(h: Half, nw: nat, failed: bool) {
    h.pump.Write? && nw <= |h.pump.chunk| && (nw < |h.pump.chunk| ==> failed)
  }

  function Reason(r: ReadResult): Option<Why> {
    match r case More => None case AtEof => Some(Eof) case Failed => Some(ReadError)
  }

  function ReadStep(h: Half, n: nat, r: ReadResult): Half
    requires CanRead(h, n, r)
  {
    h.(got := h.got + n,
       pump := if n > 0 then Write(h.sent[h.got .. h.got + n], Reason(r))
               else Ending(if r == AtEof then Eof else ReadError, Want))
  }

  /** Where a pump goes once a chunk was handled; a failed write wins over the read's report. */
  function Onward(rest: Option<Why>, top: Pump): Pump {
    if rest.Some? then Ending(rest.value, Want) else top
  }

  function WriteStep(h: Half, nw: nat, failed: bool, paced: bool, top: Pump): Half
    requires CanWrite(h, nw, failed)
  {
    var rest := if failed then Some(WriteError) else h.pump.rest;
    h.(out := h.out + h.pump.chunk[..nw],
       lost := h.pump.chunk[nw..],
       pump := if paced then Pace(rest) else Onward(rest, top))
  }

  predicate CloseEnabled(f: Fwd, at: ClosePc, me: Owner) {
    if at == Want then f.mux == Nobody else f.mux == me
  }

  predicate Enabled(f: Fwd, a: Action) {
    match a
    case ClientSends(bs) => CanSend(f.up)
    case ClientFin => CanSend(f.up)
    case ServerSends(bs) => CanSend(f.down) && !f.down.pump.Idle?
    case ServerFin => CanSend(f.down) && !f.down.pump.Idle?
    case Store => f.main == Called
    case Arm => f.main == Stored
    case DialOk => f.main == Dialing
    case DialFail => f.main == Dialing
    case Join => f.main == Joining && f.up.pump.Done? && f.down.pump.Done?
    case ShutClientConn => f.main == CloseClient
    case ShutServerConn => f.main == CloseServer
    case DropClientConn => f.main == DialFailed
    case CloseChan => f.main == Announce
    case UpPoll => f.up.pump.Poll?
    case UpRead(n, r) => CanRead(f.up, n, r)
    case UpWrite(nw, failed) => CanWrite(f.up, nw, failed)
    case UpPace => f.up.pump.Pace?
    case UpEnd => f.up.pump.Ending?
    case DownRead(n, r) => CanRead(f.down, n, r)
    case DownWrite(nw, failed) => CanWrite(f.down, nw, failed)
    case DownEnd => f.down.pump.Ending? && CloseEnabled(f, f.down.pump.at, DownPump)
    case CallerStep(k) =>
      k < |f.callers| && f.callers[k].Closing? && CloseEnabled(f, f.callers[k].at, Caller(k))
    case CallerReturn(k) => k < |f.callers| && f.callers[k].Awaiting? && f.chanClosed
  }

  /** One atomic step of closeUpstream by `me`. */
  function CloseNext(f: Fwd, at: ClosePc, me: Owner): Fwd {
    match at
    case Want => f.(mux := me)
    case Check => f
    case Signal => if f.emerg == NoChan then f else f.(emerg := Fired, fires := f.fires + 1)
    case Shut => if HasClient(f) then f.(up := f.up.(shut := true)) else f.(early := true)
    case Mark => f.(upClosed := true)
    case Leave => f.(mux := Nobody)
  }

  /** The point after `at`; None when closeUpstream returned. */
  function CloseGoto(f: Fwd, at: ClosePc): Option<ClosePc> {
    match at
    case Want => Some(Check)
    case Check => Some(if f.upClosed then Leave else Signal)
    case Signal => Some(Shut)
    case Shut => Some(Mark)
    case Mark => Some(Leave)
    case Leave => None
  }

  function DownEndNext(f: Fwd): Fwd
    requires f.down.pump.Ending?
  {
    var at, why := CloseGoto(f, f.down.pump.at), f.down.pump.why;
    var g := CloseNext(f, f.down.pump.at, DownPump);
    g.(down := f.down.(pump := if at.Some? then Ending(why, at.value) else Done(why)))
  }

  function CallerNext(f: Fwd, k: nat): Fwd
    requires k < |f.callers| && f.callers[k].Closing?
  {
    var at := CloseGoto(f, f.callers[k].at);
    var g := CloseNext(f, f.callers[k].at, Caller(k));
    g.(callers := f.callers[k := if at.Some? then Closing(at.value) else Awaiting])
  }

  function Next(f: Fwd, a: Action): Fwd
    requires Enabled(f, a)
  {
    match a
    case ClientSends(bs) => f.(up := f.up.(sent := f.up.sent + bs))
    case ClientFin => f.(up := f.up.(fin := true))
    case ServerSends(bs) => f.(down := f.down.(sent := f.down.sent + bs))
    case ServerFin => f.(down := f.down.(fin := true))
    case Store => f.(main := Stored)
    case Arm => f.(main := Dialing, emerg := if f.rate > 0 then Armed else f.emerg)
    case DialOk => f.(main := Joining, up := f.up.(pump := Poll), down := f.down.(pump := Read))
    case DialFail => f.(main := DialFailed)
    case Join => f.(main := CloseClient)
    case ShutClientConn => f.(main := CloseServer, up := f.up.(closed := true))
    case ShutServerConn => f.(main := Announce, down := f.down.(closed := true))
    case DropClientConn => f.(main := Announce, up := f.up.(closed := true))
    case CloseChan => f.(main := Finished, chanClosed := true)
    case UpPoll => f.(up := f.up.(pump := if f.emerg == Fired then Ending(Emergency, Want) else Read))
    case UpRead(n, r) => f.(up := ReadStep(f.up, n, r))
    case UpWrite(nw, failed) => f.(up := WriteStep(f.up, nw, failed, f.rate > 0, Poll))
    case UpPace => f.(up := f.up.(pump := Onward(f.up.pump.rest, Poll)))
    case UpEnd => f.(up := f.up.(pump := Done(f.up.pump.why)), down := f.down.(shut := true))
    case DownRead(n, r) => f.(down := ReadStep(f.down, n, r))
    case DownWrite(nw, failed) => f.(down := WriteStep(f.down, nw, failed, false, Read))
    case DownEnd => DownEndNext(f)
    case CallerStep(k) => CallerNext(f, k)
    case CallerReturn(k) => f.(callers := f.callers[k := Returned])
  }

  /** A new goroutine enters Close. */
  function Call(f: Fwd): Fwd { f.(callers := f.callers + [Closing(Want)]) }

  // ---------------------------------------------------------------- invariant

  /** Where `me` is inside closeUpstream; Want when it does not hold the mutex. */
  function At(f: Fwd, me: Owner): ClosePc {
    match me
    case Nobody => Want
    case DownPump => if f.down.pump.Ending? then f.down.pump.at else Want
    case Caller(k) => if k < |f.callers| && f.callers[k].Closing? then f.callers[k].at else Want
  }

  function OwnerAt(f: Fwd): ClosePc { At(f, f.mux) }

  ghost predicate MutexInv(f: Fwd) {
    forall me :: At(f, me) != Want <==> me == f.mux && me != Nobody
  }

  predicate CloseOnceInv(f: Fwd) {
    && f.fires == (if f.emerg == Fired then 1 else 0)
    && (OwnerAt(f) in {Signal, Shut, Mark} ==> !f.upClosed)
    && (f.emerg == Fired ==> f.upClosed || OwnerAt(f) in {Shut, Mark})
    && (f.upClosed || OwnerAt(f) == Mark ==> f.up.shut || f.early)
    && (f.up.shut ==> HasClient(f))
    && (f.early ==> !f.up.shut && f.emerg != Fired && (f.upClosed || OwnerAt(f) == Mark))
    && (!HasClient(f) || f.main == Stored ==> f.emerg == NoChan)
  }

  /** Accept has got past the point where it makes the emergency channel. */
  predicate PastArm(m: MainPc) { m !in {Made, Listed, Spawned, Called, Stored} }

  predicate StageInv(f: Fwd) {
    var up, down := f.up.pump, f.down.pump;
    && (PastArm(f.main) ==> (f.rate > 0 <==> f.emerg != NoChan))
    && (f.main in {Made, Listed, Spawned, Called, Stored, Dialing, DialFailed} ==>
          up.Idle? && down.Idle?)
    && (f.main == Joining ==> !up.Idle? && !down.Idle?)
    && (f.main in {CloseClient, CloseServer} ==> up.Done? && down.Done?)
    && (f.main == CloseServer ==> f.up.closed)
    && (f.up.closed ==> f.main in {CloseServer, Announce, Finished, Removed})
    && (f.main in {Announce, Finished, Removed} ==>
          f.up.closed && (if up.Idle? then down.Idle? else up.Done? && down.Done? && f.down.closed))
    && (f.chanClosed <==> f.main in {Finished, Removed})
    && !down.Poll? && !down.Pace?
    && (f.main in {Made, Listed, Spawned} <==> f.addr.None?)
    && (up.Done? ==> f.down.shut)
    && (down.Done? || (down.Ending? && down.at == Leave) ==> f.upClosed)
  }

  /** It is past closeUpstream. */
  predicate Left(p: CallerPc) { p == Closing(Leave) || p.Awaiting? || p.Returned? }

  predicate CallersInv(f: Fwd) {
    && (forall k :: 0 <= k < |f.callers| && f.callers[k].Returned? ==> f.chanClosed)
    && (forall k :: 0 <= k < |f.callers| && Left(f.callers[k]) ==> f.upClosed)
  }

  function InBuffer(p: Pump): seq<byte> { if p.Write? then p.chunk else [] }

  function Reported(p: Pump): Option<Why> {
    match p
    case Write(_, rest) => rest
    case Pace(rest) => rest
    case Ending(why, _) => Some(why)
    case Done(why) => Some(why)
    case _ => None
  }

  /** Bytes written, still in the buffer, and lost in a failed write make up the bytes read. */
  predicate FlowInv(h: Half) {
    && h.got <= |h.sent|
    && h.sent[..h.got] == h.out + InBuffer(h.pump) + h.lost
    && (h.lost != [] ==> Reported(h.pump) == Some(WriteError))
    && (Reported(h.pump) == Some(Eof) ==> h.got == |h.sent| && (h.fin || h.shut))
    && (h.pump.Write? ==> h.lost == [] && h.pump.rest != Some(WriteError))
  }

  ghost predicate Inv(f: Fwd) {
    MutexInv(f) && CloseOnceInv(f) && StageInv(f) && CallersInv(f) && FlowInv(f.up) && FlowInv(f.down)
  }

  // ---------------------------------------------------------------- preservation

  lemma ReadKeepsFlow(h: Half, n: nat, r: ReadResult)
    requires FlowInv(h) && CanRead(h, n, r)
    ensures FlowInv(ReadStep(h, n, r))
  {
    assert h.sent[..h.got + n] == h.sent[..h.got] + h.sent[h.got .. h.got + n];
  }

  lemma WriteKeepsFlow(h: Half, nw: nat, failed: bool, paced: bool, top: Pump)
    requires FlowInv(h) && CanWrite(h, nw, failed) && (top.Read? || top.Poll?)
    ensures FlowInv(WriteStep(h, nw, failed, paced, top))
  {
    assert h.pump.chunk == h.pump.chunk[..nw] + h.pump.chunk[nw..];
  }

  lemma SendKeepsFlow(h: Half, bs: seq<byte>)
    requires FlowInv(h) && CanSend(h)
    ensures FlowInv(h.(sent := h.sent + bs))
  {
    assert (h.sent + bs)[..h.got] == h.sent[..h.got];
  }

  lemma NextKeepsUpFlow(f: Fwd, a: Action)
    requires Enabled(f, a) && FlowInv(f.up) && (a.DialOk? ==> f.up.pump.Idle?)
    ensures FlowInv(Next(f, a).up)
  {
    if a.ClientSends? { SendKeepsFlow(f.up, a.bs); }
    else if a.UpRead? { ReadKeepsFlow(f.up, a.n, a.r); }
    else if a.UpWrite? { WriteKeepsFlow(f.up, a.nw, a.failed, f.rate > 0, Poll); }
    else { OthersKeepUpFlow(f, a); }
  }

  lemma OthersKeepUpFlow(f: Fwd, a: Action)
    requires Enabled(f, a) && FlowInv(f.up) && (a.DialOk? ==> f.up.pump.Idle?)
    requires !a.ClientSends? && !a.UpRead? && !a.UpWrite?
    ensures FlowInv(Next(f, a).up)
  {
    if IsClose(a) { ClosersKeepUpFlow(f, a); }
  }

  lemma ClosersKeepUpFlow(f: Fwd, a: Action)
    requires Enabled(f, a) && FlowInv(f.up) && IsClose(a)
    ensures FlowInv(Next(f, a).up)
  {
    assert Next(f, a).up == f.up.(shut := Next(f, a).up.shut) && (f.up.shut ==> Next(f, a).up.shut);
  }

  lemma NextKeepsDownFlow(f: Fwd, a: Action)
    requires Enabled(f, a) && FlowInv(f.down) && (a.DialOk? ==> f.down.pump.Idle?)
    ensures FlowInv(Next(f, a).down)
  {
    if a.ServerSends? { SendKeepsFlow(f.down, a.bs); }
    else if a.DownRead? { ReadKeepsFlow(f.down, a.n, a.r); }
    else if a.DownWrite? { WriteKeepsFlow(f.down, a.nw, a.failed, false, Read); }
    else { OthersKeepDownFlow(f, a); }
  }

  lemma OthersKeepDownFlow(f: Fwd, a: Action)
    requires Enabled(f, a) && FlowInv(f.down) && (a.DialOk? ==> f.down.pump.Idle?)
    requires !a.ServerSends? && !a.DownRead? && !a.DownWrite?
    ensures FlowInv(Next(f, a).down)
  {
  }

  /** g is f after `me` took one step of closeUpstream; nobody else moved in it. */
  ghost predicate CloseStep(f: Fwd, g: Fwd, me: Owner) {
    var h, at := CloseNext(f, At(f, me), me), CloseGoto(f, At(f, me));
    && g.mux == h.mux && g.upClosed == h.upClosed && g.emerg == h.emerg && g.fires == h.fires
    && g.up == h.up && g.early == h.early && g.main == h.main
    && At(g, me) == (if at.Some? then at.value else Want)
    && (forall other :: other != me ==> At(g, other) == At(f, other))
  }

  lemma CloseStepKeeps(f: Fwd, g: Fwd, me: Owner)
    requires MutexInv(f) && CloseOnceInv(f) && me != Nobody
    requires CloseEnabled(f, At(f, me), me) && CloseStep(f, g, me)
    ensures MutexInv(g) && CloseOnceInv(g)
  {
  }

  predicate IsPeer(a: Action) { a.ClientSends? || a.ClientFin? || a.ServerSends? || a.ServerFin? }

  predicate IsUp(a: Action) { a.UpPoll? || a.UpRead? || a.UpWrite? || a.UpPace? || a.UpEnd? }

  predicate IsDown(a: Action) { a.DownRead? || a.DownWrite? }

  predicate IsClose(a: Action) { a.DownEnd? || a.CallerStep? || a.CallerReturn? }

  predicate IsMain(a: Action) { !IsPeer(a) && !IsUp(a) && !IsDown(a) && !IsClose(a) }

  ghost predicate ControlInv(f: Fwd) {
    MutexInv(f) && CloseOnceInv(f) && StageInv(f) && CallersInv(f)
  }

  lemma PeerKeepsControl(f: Fwd, a: Action)
    requires Enabled(f, a) && ControlInv(f) && IsPeer(a)
    ensures ControlInv(Next(f, a))
  {
    assert forall me :: At(Next(f, a), me) == At(f, me);
  }

  lemma MainKeepsControl(f: Fwd, a: Action)
    requires Enabled(f, a) && ControlInv(f) && IsMain(a)
    ensures ControlInv(Next(f, a))
  {
    assert forall me :: At(Next(f, a), me) == At(f, me);
  }

  lemma UpKeepsControl(f: Fwd, a: Action)
    requires Enabled(f, a) && ControlInv(f) && IsUp(a)
    ensures ControlInv(Next(f, a))
  {
    assert forall me :: At(Next(f, a), me) == At(f, me);
  }

  lemma DownKeepsControl(f: Fwd, a: Action)
    requires Enabled(f, a) && ControlInv(f) && IsDown(a)
    ensures ControlInv(Next(f, a))
  {
    assert forall me :: At(Next(f, a), me) == At(f, me);
  }

  lemma DownEndKeepsControl(f: Fwd)
    requires f.down.pump.Ending? && CloseEnabled(f, f.down.pump.at, DownPump) && ControlInv(f)
    ensures ControlInv(DownEndNext(f))
  {
    CloseStepKeeps(f, DownEndNext(f), DownPump);
  }

  lemma CallerKeepsControl(f: Fwd, k: nat)
    requires k < |f.callers| && f.callers[k].Closing?
    requires CloseEnabled(f, f.callers[k].at, Caller(k)) && ControlInv(f)
    ensures ControlInv(CallerNext(f, k))
  {
    CloseStepKeeps(f, CallerNext(f, k), Caller(k));
  }

  lemma ReturnKeepsControl(f: Fwd, k: nat)
    requires k < |f.callers| && f.callers[k].Awaiting? && f.chanClosed && ControlInv(f)
    ensures ControlInv(f.(callers := f.callers[k := Returned]))
  {
    var g := f.(callers := f.callers[k := Returned]);
    assert forall j :: 0 <= j < |f.callers| && j != k ==> g.callers[j] == f.callers[j];
    assert forall me :: At(g, me) == At(f, me);
  }

  lemma NextKeepsInv(f: Fwd, a: Action)
    requires Inv(f) && Enabled(f, a)
    ensures Inv(Next(f, a))
  {
    if IsPeer(a) { PeerKeepsControl(f, a); }
    else if IsUp(a) { UpKeepsControl(f, a); }
    else if IsDown(a) { DownKeepsControl(f, a); }
    else if a.DownEnd? { DownEndKeepsControl(f); }
    else if a.CallerStep? { CallerKeepsControl(f, a.k); }
    else if a.CallerReturn? { ReturnKeepsControl(f, a.k); }
    else { MainKeepsControl(f, a); }
    NextKeepsUpFlow(f, a);
    NextKeepsDownFlow(f, a);
  }
}
