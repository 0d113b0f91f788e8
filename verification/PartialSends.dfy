/** A send the socket takes in part. */
module PartialSends {
  import opened Common
  import opened PeerPrivate
  import opened NodeState
  import opened NodeScenarios
  import SendPipeline

  const TWO: Bytes := [1, 2]

  function OneByteTaken(): SendAnswer {
    SendAnswer(1, ErrnoProbe(0, ""), true, true)
  }

  /** From every new node there is a run in which a peer's socket takes one byte
      of two, the user is told of one byte sent, and the other byte is nowhere. */
  lemma RestIsDropped(s: State) returns (run: seq<Action>, id: nat)
    requires Init(s)
    ensures ValidRun(s, run)
    ensures var t := After(s, run);
      && t.h.accepted == [OutBuffer(id, TWO)] && t.outbox == []
      && t.h.handled == [Handled(OutBuffer(id, TWO), Taken(1))]
      && OnWire(t, id) == [1] && Flatten(SendPipeline.Wholes(t.h.handled, id)) == TWO
      && id in t.peers && !t.peers[id].toBeDeleted
  {
    var first, u := BatchOfTwo(s);
    var second, v := WinsCycle(u);
    RunsJoin(s, first, u, second, v);
    id := v.counter;
    var rest, t := SendsHalf(v, id);
    RunsJoin(s, first + second, v, rest, t);
    run := first + second + rest;
  }

  lemma SendsHalf(v: State, id: nat) returns (run: seq<Action>, t: State)
    requires id in v.peers && v.peers[id].valid && !v.peers[id].toBeDeleted && v.peers[id].socket.Some?
    requires v.outbox == [] && v.h.accepted == [] && v.h.handled == [] && v.h.wire == map[]
    ensures Reaches(v, run, t)
    ensures t.h.accepted == [OutBuffer(id, TWO)] && t.outbox == [] && t.peers == v.peers
    ensures t.h.handled == [Handled(OutBuffer(id, TWO), Taken(1))]
    ensures OnWire(t, id) == [1] && Flatten(SendPipeline.Wholes(t.h.handled, id)) == TWO
  {
    var to := NO_PEER.(id := id);
    var s1 := DoSendData(v, to, TWO, false);
    t := DoSendOne(s1, OneByteTaken());
    OneStepMore(s1, SendOne(OneByteTaken()), [], t);
    OneStepMore(v, SendData(to, TWO, false), [SendOne(OneByteTaken())] + [], t);
    run := [SendData(to, TWO, false)] + ([SendOne(OneByteTaken())] + []);
    assert SendPipeline.Wholes(t.h.handled, id) == [TWO];
    FlattenSnoc([], TWO);
  }
}
