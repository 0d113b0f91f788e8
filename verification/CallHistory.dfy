/**
 What the node holds and does is what its callers asked for: addresses, buffers
 and the peers to disconnect are traced from the calls of a run, not from what the
 node noted of them.
 */
module CallHistory {
  import opened Common
  import opened PeerPrivate
  import opened NodeState
  import opened NodeRuns
  import PeerLife
  import SocketLedger
  import SendPipeline
  import ConnectQueue
  import Effects

  // ---- connectTo ----------------------------------------------------------

  /** The addresses a run's connectTo calls name, in the order of the calls. */
  function Addresses(run: seq<Action>): seq<Address> {
    if run == [] then [] else (if run[0].ConnectTo? then [run[0].address] else []) + Addresses(run[1..])
  }

  lemma OneArrives(s: State, a: Action)
    requires Enabled(s, a)
    ensures Apply(s, a).h.arrived == s.h.arrived + if a.ConnectTo? then [a.address] else []
  {
    if a.ListenSection? {
      ConnectQueue.SectionLeavesQueue(s, a.order, a.acc, a.recv, a.endTold);
    } else if a.SendOne? {
      ConnectQueue.SendLeavesQueue(s, a.answer);
    } else if FromOutside(a) && !a.ConnectTo? {
      ConnectQueue.OutsideLeavesQueue(s, a);
    } else if a.ConnectTo? {
      Effects.ConnectToEffect(s, a.address);
    } else {
      CyclesArriveNot(s, a);
    }
  }

  lemma CyclesArriveNot(s: State, a: Action)
    requires Enabled(s, a) && (StartsCycle(a) || EndsCycle(a))
    ensures Apply(s, a).h.arrived == s.h.arrived
  {
  }

  lemma {:induction false} ArrivedAreCalled(s: State, run: seq<Action>)
    requires ValidRun(s, run)
    ensures After(s, run).h.arrived == s.h.arrived + Addresses(run)
    decreases |run|
  {
    if run != [] {
      var t := Apply(s, run[0]);
      ArrivedAreCalled(t, run[1..]);
      assert After(s, run) == After(t, run[1..]);
      OneArrives(s, run[0]);
    }
  }

  /** The addresses tried in a run: one for each connect cycle. */
  ghost function Tried(s: State, run: seq<Action>): seq<Address>
    requires ValidRun(s, run)
    decreases |run|
  {
    if run == [] then []
    else
      var t := Apply(s, run[0]);
      (if run[0].ConnectFront? && t.conn.Trying? then [t.conn.to] else []) + Tried(t, run[1..])
  }

  lemma OneCycle(s: State, a: Action)
    requires ConnectQueue.Queue(s) && Enabled(s, a)
    ensures var t := Apply(s, a);
      && t.h.cycles == s.h.cycles + (if a.ConnectFront? then [s.h.popped] else [])
      && (a.ConnectFront? ==> s.h.popped < |s.h.arrived| && t.conn.Trying? && t.conn.to == s.h.arrived[s.h.popped])
  {
    if a.ListenSection? {
      ConnectQueue.SectionLeavesQueue(s, a.order, a.acc, a.recv, a.endTold);
    } else if a.SendOne? {
      ConnectQueue.SendLeavesQueue(s, a.answer);
    } else if FromOutside(a) {
      if !a.ConnectTo? { ConnectQueue.OutsideLeavesQueue(s, a); }
    } else {
      ConnectCycles(s, a);
    }
  }

  lemma ConnectCycles(s: State, a: Action)
    requires ConnectQueue.Queue(s) && Enabled(s, a) && (StartsCycle(a) || EndsCycle(a))
    ensures var t := Apply(s, a);
      && t.h.cycles == s.h.cycles + (if a.ConnectFront? then [s.h.popped] else [])
      && (a.ConnectFront? ==> s.h.popped < |s.h.arrived| && t.conn.Trying? && t.conn.to == s.h.arrived[s.h.popped])
  {
  }

  /** Each cycle tried the address that arrived at the place it worked on. */
  ghost predicate TriedFits(tried: seq<Address>, cycles: seq<nat>, arrived: seq<Address>) {
    && |cycles| == |tried|
    && forall i :: 0 <= i < |tried| ==> cycles[i] < |arrived| && tried[i] == arrived[cycles[i]]
  }

  /** The cycles a run adds. */
  ghost function NewCycles(s: State, run: seq<Action>): seq<nat>
    requires ValidRun(s, run)
    decreases |run|
  {
    if run == [] then []
    else (if run[0].ConnectFront? then [s.h.popped] else []) + NewCycles(Apply(s, run[0]), run[1..])
  }

  lemma {:induction false} CyclesAreNew(s: State, run: seq<Action>)
    requires ConnectQueue.Queue(s) && ValidRun(s, run)
    ensures After(s, run).h.cycles == s.h.cycles + NewCycles(s, run)
    decreases |run|
  {
    if run != [] {
      ConnectQueue.QueueIsKept(s, run[0]);
      OneCycle(s, run[0]);
      CyclesAreNew(Apply(s, run[0]), run[1..]);
      var first := if run[0].ConnectFront? then [s.h.popped] else [];
      assert NewCycles(s, run) == first + NewCycles(Apply(s, run[0]), run[1..]);
    }
  }

  lemma {:induction false} CyclesTry(s: State, run: seq<Action>)
    requires ConnectQueue.Queue(s) && ValidRun(s, run)
    ensures TriedFits(Tried(s, run), NewCycles(s, run), After(s, run).h.arrived)
    decreases |run|
  {
    if run != [] {
      var t := Apply(s, run[0]);
      ConnectQueue.QueueIsKept(s, run[0]);
      OneCycle(s, run[0]);
      ArrivedAreCalled(s, run);
      CyclesTry(t, run[1..]);
    }
  }

  /** From construction: cycle i of the connect thread tries the address that call
      number cycles[i] of connectTo named; calls are first tried in the order they
      were made, and each whose request is popped was tried. */
  lemma AttemptsAreCalls(s: State, run: seq<Action>)
    requires Init(s) && ValidRun(s, run)
    ensures var t, calls := After(s, run), Addresses(run);
      && TriedFits(Tried(s, run), t.h.cycles, calls)
      && (forall i, j :: 0 <= i < j < |t.h.cycles| ==> t.h.cycles[i] <= t.h.cycles[j])
      && t.h.popped <= |calls| && t.requests == calls[t.h.popped..]
      && (forall k :: 0 <= k < t.h.popped ==> k in t.h.cycles)
  {
    InitHasInv(s);
    RunKeepsInv(s, run);
    ArrivedAreCalled(s, run);
    CyclesTry(s, run);
    CyclesAreNew(s, run);
    ConnectQueue.FirstAttemptsAreFifo(After(s, run));
  }

  // ---- sendData -----------------------------------------------------------

  /** The buffers given to sendData for peers in the map at that moment, as they
      were given, in the order of the calls. */
  ghost function Given(s: State, run: seq<Action>): seq<OutBuffer>
    requires ValidRun(s, run)
    decreases |run|
  {
    if run == [] then []
    else
      (if run[0].SendData? && run[0].to.id in s.peers then [OutBuffer(run[0].to.id, run[0].data)] else [])
      + Given(Apply(s, run[0]), run[1..])
  }

  lemma OneGiven(s: State, a: Action)
    requires PeerLife.IdsFit(s) && Enabled(s, a)
    ensures Apply(s, a).h.accepted ==
            s.h.accepted + if a.SendData? && a.to.id in s.peers then [OutBuffer(a.to.id, a.data)] else []
  {
    if a.SendData? {
      Effects.SendDataEffect(s, a.to, a.data, a.told);
    } else {
      OthersAcceptNothing(s, a);
    }
  }

  lemma OthersAcceptNothing(s: State, a: Action)
    requires Enabled(s, a) && !a.SendData?
    ensures Apply(s, a).h.accepted == s.h.accepted
  {
    if a.ListenSection? { SectionAcceptsNothing(s, a); }
  }

  lemma SectionAcceptsNothing(s: State, a: Action)
    requires a.ListenSection?
    ensures DoListenSection(s, a.order, a.acc, a.recv, a.endTold).h.accepted == s.h.accepted
  {
  }

  lemma {:induction false} AcceptedAreGiven(s: State, run: seq<Action>)
    requires PeerLife.IdsFit(s) && ValidRun(s, run)
    ensures After(s, run).h.accepted == s.h.accepted + Given(s, run)
    decreases |run|
  {
    if run != [] {
      var a, t := run[0], Apply(s, run[0]);
      OneGiven(s, a);
      PeerLife.IdsKept(s, a);
      AcceptedAreGiven(t, run[1..]);
      var first := if a.SendData? && a.to.id in s.peers then [OutBuffer(a.to.id, a.data)] else [];
      assert t.h.accepted == s.h.accepted + first;
      assert Given(s, run) == first + Given(t, run[1..]);
    }
  }

  /** What the send thread's socket calls took for a peer in a run: of each buffer
      at the front, for that peer unmarked in the map, as much as the socket says. */
  ghost function Written(s: State, run: seq<Action>, id: nat): Bytes
    requires ValidRun(s, run)
    decreases |run|
  {
    if run == [] then [] else WrittenBy(s, run[0], id) + Written(Apply(s, run[0]), run[1..], id)
  }

  ghost function WrittenBy(s: State, a: Action, id: nat): Bytes
    requires Enabled(s, a)
  {
    if a.SendOne? && s.outbox[0].id == id && id in s.peers && !s.peers[id].toBeDeleted
    then s.outbox[0].data[..a.answer.taken] else []
  }

  lemma OneWrites(s: State, a: Action, id: nat)
    requires Enabled(s, a)
    ensures OnWire(Apply(s, a), id) == OnWire(s, id) + WrittenBy(s, a, id)
  {
    if a.SendOne? {
      Effects.SendOneEffect(s, a.answer);
    } else {
      OthersWriteNothing(s, a);
    }
  }

  lemma OthersWriteNothing(s: State, a: Action)
    requires Enabled(s, a) && !a.SendOne?
    ensures Apply(s, a).h.wire == s.h.wire
  {
    if a.ListenSection? { SectionWritesNothing(s, a); }
  }

  lemma SectionWritesNothing(s: State, a: Action)
    requires a.ListenSection?
    ensures DoListenSection(s, a.order, a.acc, a.recv, a.endTold).h.wire == s.h.wire
  {
  }

  lemma {:induction false} WireIsWritten(s: State, run: seq<Action>, id: nat)
    requires ValidRun(s, run)
    ensures OnWire(After(s, run), id) == OnWire(s, id) + Written(s, run, id)
    decreases |run|
  {
    if run != [] {
      OneWrites(s, run[0], id);
      WireIsWritten(Apply(s, run[0]), run[1..], id);
    }
  }

  /** The data given for a peer, whole. */
  function DataFor(given: seq<OutBuffer>, id: nat): seq<Bytes> {
    seq(|given|, i requires 0 <= i < |given| => if given[i].id == id then given[i].data else [])
  }

  /** From construction, of the buffers given to sendData: the first ones, as many as
      were handled, and then those pending; a peer's wire is what its socket took,
      which is the whole of the data given for it so far handled exactly if every
      send of them was complete. */
  lemma WireIsGiven(s: State, run: seq<Action>, id: nat)
    requires Init(s) && ValidRun(s, run)
    ensures var t, given := After(s, run), Given(s, run); var k := |t.h.handled|;
      && k <= |given| && SendPipeline.Buffers(t.h.handled) == given[..k] && t.outbox == given[k..]
      && OnWire(t, id) == Written(s, run, id)
      && (Written(s, run, id) == Flatten(DataFor(given[..k], id)) <==>
          forall h :: h in t.h.handled && h.buffer.id == id ==> SendPipeline.Complete(h))
  {
    InitHasInv(s);
    RunKeepsInv(s, run);
    AcceptedAreGiven(s, run);
    WireIsWritten(s, run, id);
    WholesAreGiven(After(s, run), Given(s, run), id);
    SendPipeline.FullExactlyWhenComplete(After(s, run), id);
  }

  lemma WholesAreGiven(t: State, given: seq<OutBuffer>, id: nat)
    requires SendPipeline.Pipeline(t) && t.h.accepted == given
    ensures var k := |t.h.handled|;
      && k <= |given| && SendPipeline.Buffers(t.h.handled) == given[..k] && t.outbox == given[k..]
      && SendPipeline.Wholes(t.h.handled, id) == DataFor(given[..k], id)
  {
    var hs := t.h.handled;
    var k := |hs|;
    assert SendPipeline.Buffers(hs) == given[..k];
    forall i | 0 <= i < k ensures SendPipeline.Wholes(hs, id)[i] == DataFor(given[..k], id)[i] {
      assert SendPipeline.Buffers(hs)[i] == given[i];
    }
  }
}
