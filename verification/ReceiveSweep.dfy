/** The receive loop does not depend on the order in which the unordered peer
    map is walked. */
module ReceiveSweep {
  import opened Common
  import opened PeerPrivate
  import opened NodeState

  /** The peer an event is about.  `Connected` is left out: it is announced
      after the data mutex was released. */
  function About(e: Event): Option<nat> {
    match e
    case Accepted(id, _) => Some(id)
    case Joined(id) => Some(id)
    case Received(id, _, _) => Some(id)
    case Sent(id, _, _) => Some(id)
    case Marked(id, _) => Some(id)
    case Ended(id, _, _, _) => Some(id)
    case _ => None
  }

  /** The events about one peer, in order. */
  function Of(log: seq<Event>, id: nat): seq<Event> {
    if log == [] then []
    else (if About(log[0]) == Some(id) then [log[0]] else []) + Of(log[1..], id)
  }

  lemma {:induction false} OfAppend(xs: seq<Event>, ys: seq<Event>, id: nat)
    ensures Of(xs + ys, id) == Of(xs, id) + Of(ys, id)
  {
    if xs == [] {
      assert xs + ys == ys;
    } else {
      var first := if About(xs[0]) == Some(id) then [xs[0]] else [];
      var rest := Of(xs[1..], id);
      assert (xs + ys)[0] == xs[0] && (xs + ys)[1..] == xs[1..] + ys;
      OfAppend(xs[1..], ys, id);
      assert Of(xs, id) == first + rest;
      assert Of(xs + ys, id) == first + (rest + Of(ys, id));
    }
  }

  ghost predicate NoRepeats(order: seq<nat>) {
    forall i, j :: 0 <= i < j < |order| ==> order[i] != order[j]
  }

  /** What the loop leaves behind, said without an order. */
  function Swept(peers: map<nat, PeerData>, visited: set<nat>, recv: nat -> ReceiveAnswer): map<nat, PeerData> {
    map id | id in peers :: if id in visited then SweepPeer(peers[id], recv(id)) else peers[id]
  }

  lemma {:induction false} SweepMapIsSwept(peers: map<nat, PeerData>, order: seq<nat>, recv: nat -> ReceiveAnswer)
    requires NoRepeats(order)
    ensures SweepMap(peers, order, recv) == Swept(peers, (set id | id in order), recv)
    decreases |order|
  {
    if order == [] {
    } else {
      var id, rest := order[0], order[1..];
      var peers1 := if id in peers then peers[id := SweepPeer(peers[id], recv(id))] else peers;
      assert order == [id] + rest;
      assert id !in rest;
      SweepMapIsSwept(peers1, rest, recv);
    }
  }

  /** Each peer contributes its own events, once, whatever the order. */
  lemma {:induction false} SweepLogOf(peers: map<nat, PeerData>, order: seq<nat>, recv: nat -> ReceiveAnswer, id: nat)
    requires NoRepeats(order)
    ensures Of(SweepLog(peers, order, recv), id) ==
            if id in peers && id in order then SweepEvents(id, peers[id], recv(id)) else []
    decreases |order|
  {
    if order == [] {
    } else {
      var x, rest := order[0], order[1..];
      assert order == [x] + rest;
      assert x !in rest;
      if x in peers {
        var peers1 := peers[x := SweepPeer(peers[x], recv(x))];
        SweepLogOf(peers1, rest, recv, id);
        OfAppend(SweepEvents(x, peers[x], recv(x)), SweepLog(peers1, rest, recv), id);
        OfOwn(x, peers[x], recv(x), id);
      } else {
        SweepLogOf(peers, rest, recv, id);
      }
    }
  }

  lemma OfOwn(x: nat, p: PeerData, r: ReceiveAnswer, id: nat)
    ensures Of(SweepEvents(x, p, r), id) == if x == id then SweepEvents(x, p, r) else []
  {
    var es := SweepEvents(x, p, r);
    if es != [] {
      assert es[1..] == [];
      assert Of(es[1..], id) == [];
    }
  }

  /** Two walks of the same map, with the same answers from the sockets, end in
      the same records, marks and error messages, and tell the same events of
      every peer. */
  lemma SweepOrderIrrelevant(s: State, order1: seq<nat>, order2: seq<nat>, recv: nat -> ReceiveAnswer)
    requires Enumerates(order1, s.peers.Keys) && Enumerates(order2, s.peers.Keys)
    ensures DoSweep(s, order1, recv).peers == DoSweep(s, order2, recv).peers
    ensures forall id ::
      Of(DoSweep(s, order1, recv).h.log, id) == Of(DoSweep(s, order2, recv).h.log, id)
  {
    SweepMapIsSwept(s.peers, order1, recv);
    SweepMapIsSwept(s.peers, order2, recv);
    assert (set id | id in order1) == (set id | id in order2);
    forall id ensures Of(DoSweep(s, order1, recv).h.log, id) == Of(DoSweep(s, order2, recv).h.log, id) {
      SweepLogOf(s.peers, order1, recv, id);
      SweepLogOf(s.peers, order2, recv, id);
      OfAppend(s.h.log, SweepLog(s.peers, order1, recv), id);
      OfAppend(s.h.log, SweepLog(s.peers, order2, recv), id);
    }
  }

  /** Every unmarked peer is asked exactly once and every marked one is passed
      over: this is the whole effect of a walk on a peer. */
  lemma SweepVisitsEachOnce(s: State, order: seq<nat>, recv: nat -> ReceiveAnswer, id: nat)
    requires Enumerates(order, s.peers.Keys)
    ensures DoSweep(s, order, recv).peers.Keys == s.peers.Keys
    ensures id in s.peers ==>
      && DoSweep(s, order, recv).peers[id] == SweepPeer(s.peers[id], recv(id))
      && Of(DoSweep(s, order, recv).h.log, id) == Of(s.h.log, id) + SweepEvents(id, s.peers[id], recv(id))
    ensures id !in s.peers ==> Of(DoSweep(s, order, recv).h.log, id) == Of(s.h.log, id)
  {
    SweepMapIsSwept(s.peers, order, recv);
    SweepLogOf(s.peers, order, recv, id);
    OfAppend(s.h.log, SweepLog(s.peers, order, recv), id);
  }

  lemma {:induction false} FirstMarkedFinds(peers: map<nat, PeerData>, order: seq<nat>)
    ensures FirstMarked(peers, order).Some? <==> exists id :: id in order && id in peers && peers[id].toBeDeleted
    ensures FirstMarked(peers, order).Some? ==>
      var id := FirstMarked(peers, order).value; id in order && id in peers && peers[id].toBeDeleted
  {
    if order == [] {
    } else {
      FirstMarkedFinds(peers, order[1..]);
      assert order == [order[0]] + order[1..];
    }
  }
}
