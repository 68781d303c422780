/**
 The image directories of a live migration (server/lm.go:339-381): what one pod exec
 `mkdir && criu && rsync` does to them on the two hosts, however far it gets.
 */
module Images {
  import opened Basics
  import opened Restore

  datatype Dir = Num(n: nat) | Final

  /** Which session wrote it, its --prev-images-dir, and whether criu finished it. */
  datatype Image = Image(session: nat, parent: Option<Dir>, complete: bool)

  type Store = map<Dir, Image>

  /** live: the source container still runs; a completed final dump stops it. */
  datatype Hosts = Hosts(src: Store, dst: Store, live: bool)

  /** How far the command got before it ended or failed. */
  datatype Progress = Nothing | MadeDir | PartDump | Dumped | PartCopy(dirs: set<Dir>) | Copied

  predicate Known(req: byte) { req == REQ_PRE_DUMP || req == REQ_DUMP }

  function Target(req: byte, it: nat): Dir { if req == REQ_DUMP then Final else Num(it) }

  /** --prev-images-dir ../it-1 */
  function Prev(it: nat): Option<Dir> { if it > 1 then Some(Num(it - 1)) else None }

  predicate DumpDone(p: Progress) { p.Dumped? || p.PartCopy? || p.Copied? }

  function DumpTo(src: Store, sid: nat, dir: Dir, prev: Option<Dir>, p: Progress): Store {
    match p
    case Nothing => src
    case MadeDir => if dir in src then src else src[dir := Image(sid, None, false)]
    case PartDump => src[dir := Image(sid, prev, false)]
    case _ => src[dir := Image(sid, prev, true)]
  }

  /** rsync copies the whole directory tree; a failed one some part of it. */
  function CopyTo(src: Store, dst: Store, p: Progress): Store {
    match p
    case PartCopy(dirs) => dst + (map d | d in src && d in dirs :: src[d])
    case Copied => dst + src
    case _ => dst
  }

  /** The pod exec for request number `it` of session sid. */
  function Perform(h: Hosts, sid: nat, req: byte, it: nat, p: Progress): Hosts {
    if !Known(req) then h
    else
      var src := DumpTo(h.src, sid, Target(req, it), Prev(it), p);
      Hosts(src, CopyTo(src, h.dst, p), h.live && !(req == REQ_DUMP && DumpDone(p)))
  }

  /** The directory that request `it` names as its predecessor was completed by this session. */
  predicate PrevGood(src: Store, sid: nat, it: nat) {
    it > 1 ==> Num(it - 1) in src && src[Num(it - 1)].session == sid && src[Num(it - 1)].complete
  }

  /** The pre-dumps 1..n of this session: complete, each on its predecessor, and copied. */
  predicate Chained(h: Hosts, sid: nat, n: nat) {
    forall m :: 1 <= m <= n ==>
      Num(m) in h.src && h.src[Num(m)] == Image(sid, Prev(m), true) && Num(m) in h.dst && h.dst[Num(m)] == h.src[Num(m)]
  }

  predicate FinalCopied(h: Hosts, sid: nat, n: nat) {
    Final in h.src && h.src[Final] == Image(sid, Prev(n + 1), true) && Final in h.dst && h.dst[Final] == h.src[Final]
  }

  /**
   What a command leaves alone, however far it gets: every other image on the source, its own unless criu
   began to write it; and on the destination nothing appears that is not a copy from the source, all
   of which is there when it succeeded.
   */
  lemma PerformTouchesOnly(h: Hosts, sid: nat, req: byte, it: nat, p: Progress)
    ensures var g, dir := Perform(h, sid, req, it, p), Target(req, it);
      && (forall d :: d in h.src && (d != dir || p.Nothing? || p.MadeDir?) ==> d in g.src && g.src[d] == h.src[d])
      && (forall d :: d in g.src && d !in h.src ==> d == dir)
      && (forall d :: d in h.dst ==> d in g.dst)
      && (forall d :: d in g.dst ==> (d in h.dst && g.dst[d] == h.dst[d]) || (d in g.src && g.dst[d] == g.src[d]))
      && (p.Copied? && Known(req) ==> forall d :: d in g.src ==> d in g.dst && g.dst[d] == g.src[d])
      && (h.live && !g.live <==> h.live && req == REQ_DUMP && DumpDone(p))
  {
  }

  lemma PerformKeepsChain(h: Hosts, sid: nat, req: byte, n: nat, p: Progress)
    requires Chained(h, sid, n)
    ensures Chained(Perform(h, sid, req, n + 1, p), sid, n)
  {
  }

  lemma CopiedExtendsChain(h: Hosts, sid: nat, req: byte, n: nat)
    requires Chained(h, sid, n) && Known(req)
    ensures var g := Perform(h, sid, req, n + 1, Copied);
      if req == REQ_PRE_DUMP then Chained(g, sid, n + 1)
      else Chained(g, sid, n) && FinalCopied(g, sid, n) && !g.live
  {
  }

  /** What criu restore reads: the chain of directories from d; None when one is missing. */
  function Follow(m: Store, d: Dir, fuel: nat): Option<seq<Dir>>
    decreases fuel
  {
    if fuel == 0 || d !in m || !m[d].complete then None
    else if m[d].parent.None? then Some([d])
    else
      var rest := Follow(m, m[d].parent.value, fuel - 1);
      if rest.None? then None else Some([d] + rest.value)
  }

  /** n, n-1, ..., 1 */
  function Down(n: nat): seq<Dir> { if n == 0 then [] else [Num(n)] + Down(n - 1) }

  lemma {:induction false} FollowsDown(h: Hosts, sid: nat, n: nat, k: nat)
    requires Chained(h, sid, k) && 1 <= n <= k
    ensures Follow(h.dst, Num(n), n) == Some(Down(n))
  {
    assert h.dst[Num(n)] == Image(sid, Prev(n), true);
    if n > 1 { FollowsDown(h, sid, n - 1, k); }
    else { assert Down(1) == [Num(1)]; }
  }

  /** The restored chain is exactly final, k, ..., 1, and all of it is on the destination. */
  lemma FinalChain(h: Hosts, sid: nat, k: nat)
    requires Chained(h, sid, k) && FinalCopied(h, sid, k)
    ensures Follow(h.dst, Final, k + 1) == Some([Final] + Down(k))
  {
    if k > 0 { FollowsDown(h, sid, k, k); }
    else { assert [Final] + Down(0) == [Final]; }
  }

  // ---------------------------------------------------------------- the dump side alone

  /** One request the dump service carried out. */
  datatype Round = Round(req: byte, p: Progress, ok: bool)

  function ServeAll(h: Hosts, sid: nat, it: nat, rs: seq<Round>): Hosts
    decreases |rs|
  {
    if rs == [] then h else ServeAll(Perform(h, sid, rs[0].req, it, rs[0].p), sid, it + 1, rs[1..])
  }

  lemma {:induction false} ServeOneMore(h: Hosts, sid: nat, it: nat, rs: seq<Round>, r: Round)
    ensures ServeAll(h, sid, it, rs + [r]) == Perform(ServeAll(h, sid, it, rs), sid, r.req, it + |rs|, r.p)
    decreases |rs|
  {
    if rs == [] {
      assert [r][1..] == [];
    } else {
      assert (rs + [r])[1..] == rs[1..] + [r];
      ServeOneMore(Perform(h, sid, rs[0].req, it, rs[0].p), sid, it + 1, rs[1..], r);
    }
  }

  /** Every dump names a predecessor that is complete at that moment. */
  predicate AllPrevsGood(h: Hosts, sid: nat, it: nat, rs: seq<Round>)
    decreases |rs|
  {
    rs != [] ==>
      (Known(rs[0].req) ==> PrevGood(h.src, sid, it))
      && AllPrevsGood(Perform(h, sid, rs[0].req, it, rs[0].p), sid, it + 1, rs[1..])
  }

  /** The request before each dump is a pre-dump that criu finished. */
  predicate Aligned(rs: seq<Round>) {
    forall j :: 0 < j < |rs| && Known(rs[j].req) ==> rs[j - 1].req == REQ_PRE_DUMP && DumpDone(rs[j - 1].p)
  }

  predicate AlignedAfter(good: bool, rs: seq<Round>) {
    Aligned(rs) && (rs != [] && Known(rs[0].req) ==> good)
  }

  lemma AlignedUnrolls(good: bool, rs: seq<Round>)
    requires rs != []
    ensures AlignedAfter(good, rs) <==>
      (Known(rs[0].req) ==> good) && AlignedAfter(rs[0].req == REQ_PRE_DUMP && DumpDone(rs[0].p), rs[1..])
  {
    if AlignedAfter(good, rs) {
      forall j | 0 < j < |rs[1..]| && Known(rs[1..][j].req)
        ensures rs[1..][j - 1].req == REQ_PRE_DUMP && DumpDone(rs[1..][j - 1].p)
      {
        assert rs[1..][j] == rs[j + 1];
      }
    }
    if (Known(rs[0].req) ==> good) && AlignedAfter(rs[0].req == REQ_PRE_DUMP && DumpDone(rs[0].p), rs[1..]) {
      forall j | 0 < j < |rs| && Known(rs[j].req) ensures rs[j - 1].req == REQ_PRE_DUMP && DumpDone(rs[j - 1].p) {
        assert rs[j] == rs[1..][j - 1];
        if j > 1 { assert rs[j - 1] == rs[1..][j - 2]; }
      }
    }
  }

  /** Directories it, it+1, ... were not written by this session yet. */
  ghost predicate Untouched(src: Store, sid: nat, it: nat) {
    forall n :: it <= n && Num(n) in src ==> src[Num(n)].session != sid
  }

  lemma PrevGoodAfter(h: Hosts, sid: nat, it: nat, r: Round)
    requires Untouched(h.src, sid, it) && it >= 1
    ensures var g := Perform(h, sid, r.req, it, r.p);
      Untouched(g.src, sid, it + 1) && (PrevGood(g.src, sid, it + 1) <==> r.req == REQ_PRE_DUMP && DumpDone(r.p))
  {
  }

  lemma {:induction false} PrevsGoodFrom(h: Hosts, sid: nat, it: nat, rs: seq<Round>)
    requires Untouched(h.src, sid, it) && it >= 1
    ensures AllPrevsGood(h, sid, it, rs) <==> AlignedAfter(PrevGood(h.src, sid, it), rs)
    decreases |rs|
  {
    if rs != [] {
      PrevGoodAfter(h, sid, it, rs[0]);
      PrevsGoodFrom(Perform(h, sid, rs[0].req, it, rs[0].p), sid, it + 1, rs[1..]);
      AlignedUnrolls(PrevGood(h.src, sid, it), rs);
    }
  }

  /**
   The dump side counts failed and unknown requests too. So, left to itself, it names only
   completed predecessors if and only if every dump follows a pre-dump that criu finished.
   */
  lemma PrevsGoodIffAligned(h: Hosts, sid: nat, rs: seq<Round>)
    requires Untouched(h.src, sid, 1)
    ensures AllPrevsGood(h, sid, 1, rs) <==> Aligned(rs)
  {
    PrevsGoodFrom(h, sid, 1, rs);
  }

  /** A client that goes on after an error gets a dump onto an incomplete predecessor. */
  lemma RetryAfterErrorMisaligns(sid: nat)
    ensures var rs := [Round(REQ_PRE_DUMP, PartDump, false), Round(REQ_PRE_DUMP, Copied, true)];
      !AllPrevsGood(Hosts(map[], map[], true), sid, 1, rs)
  {
    var rs := [Round(REQ_PRE_DUMP, PartDump, false), Round(REQ_PRE_DUMP, Copied, true)];
    PrevsGoodIffAligned(Hosts(map[], map[], true), sid, rs);
    assert Known(rs[1].req);
  }
}
