/**
 The two half-closes of server/fwd.go:120-145 on the forwarder's own fields. A call that nobody
 overtakes has the effect of the steps of module Forwarder from the mutex to the return.
 */
module Gate {
  import opened Basics
  import opened Forwarder

  /** What `me` does from `at` until it leaves closeUpstream, when it runs alone. */
  function Alone(f: Fwd, at: ClosePc, me: Owner): Fwd
    decreases match at case Want => 5 case Check => 4 case Signal => 3 case Shut => 2 case Mark => 1 case Leave => 0
  {
    match CloseGoto(f, at)
    case None => CloseNext(f, at, me)
    case Some(next) => Alone(CloseNext(f, at, me), next, me)
  }

  /** Closing twice is closing once, whoever comes second; the first one leaves the mutex free. */
  lemma CloseTwice(f: Fwd, me: Owner, you: Owner)
    requires f.mux == Nobody
    ensures var g := Alone(f, Want, me);
      && g.mux == Nobody && g.upClosed
      && Alone(g, Want, you) == g
      && g.fires == f.fires + (if f.upClosed || f.emerg == NoChan then 0 else 1)
  {
    Unfold(f, me);
    Unfold(Alone(f, Want, me), you);
  }

  lemma Unfold(f: Fwd, me: Owner)
    ensures Alone(f, Want, me) ==
      (if f.upClosed then f.(mux := Nobody)
       else CloseNext(CloseNext(f, Signal, me), Shut, me).(mux := Nobody, upClosed := true))
  {
    var g := CloseNext(f, Want, me);
    assert Alone(f, Want, me) == Alone(g, Check, me);
    if !f.upClosed {
      assert Alone(g, Check, me) == Alone(g, Signal, me);
      UnfoldRest(g, me);
    }
  }

  lemma UnfoldRest(g: Fwd, me: Owner)
    ensures Alone(g, Signal, me) ==
      CloseNext(CloseNext(g, Signal, me), Shut, me).(mux := Nobody, upClosed := true)
  {
    var k := CloseNext(CloseNext(g, Signal, me), Shut, me);
    assert Alone(g, Signal, me) == Alone(CloseNext(g, Signal, me), Shut, me) == Alone(k, Mark, me);
    assert Alone(k, Mark, me) == Alone(k.(upClosed := true), Leave, me);
  }

  class Closer {
    var muxs: Owner                     // who holds muxs[0]
    var isUpClosed: bool
    var isDownClosed: bool
    var chanEmergencyClose: EmergencyChan
    var clientShut: bool
    var serverShut: bool
    var nilClose: bool                  // CloseRead was called on a connection not stored yet
    var fires: nat
    const stored: bool                  // Accept has stored the client connection
    ghost const rest: Fwd               // the other fields of the forwarder

    constructor (f: Fwd)
      requires f.mux == Nobody
      ensures View() == f && !isDownClosed && rest == f
    {
      muxs, isUpClosed, isDownClosed := Nobody, f.upClosed, false;
      chanEmergencyClose, fires := f.emerg, f.fires;
      clientShut, serverShut, nilClose := f.up.shut, f.down.shut, f.early;
      stored := HasClient(f);
      rest := f;
    }

    ghost function View(): Fwd
      reads this
    {
      rest.(mux := muxs, upClosed := isUpClosed, emerg := chanEmergencyClose, fires := fires, early := nilClose,
            up := rest.up.(shut := clientShut), down := rest.down.(shut := serverShut))
    }

    method CloseUpstream(me: Owner)
      requires muxs == Nobody && stored == HasClient(rest)
      modifies this`muxs, this`isUpClosed, this`chanEmergencyClose, this`clientShut, this`nilClose, this`fires
      ensures View() == Alone(old(View()), Want, me)
    {
      Unfold(View(), me);
      muxs := me;
      if !isUpClosed {
        if chanEmergencyClose != NoChan {
          chanEmergencyClose, fires := Fired, fires + 1;
        }
        if stored { clientShut := true; } else { nilClose := true; }
        isUpClosed := true;
      }
      muxs := Nobody;
    }

    /** Only the upstream pump calls it, as its last step. */
    method CloseDownstream()
      modifies this`isDownClosed, this`serverShut
      ensures isDownClosed
      ensures View() == if old(isDownClosed) then old(View()) else old(View().(down := rest.down.(shut := true)))
    {
      if isDownClosed { return; }
      serverShut := true;
      isDownClosed := true;
    }
  }
}
