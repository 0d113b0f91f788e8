/** What setReceiveBufferSize does for the user of a node with default sockets. */
module BufferSize {
  import opened Common
  import opened NodeState
  import opened ReceiveSweep
  import opened DefaultNode
  import S = SocketState

  /** A run of a new node whose user first sets the size to n, and never again. */
  ghost predicate SizedRun(w: World, steps: seq<Step>, stream: Handle -> Bytes, n: nat) {
    && InitWorld(w) && CanAll(w, steps) && KernelGivesAll(w, steps, stream)
    && steps != [] && steps[0] == SetBufferSize(n) && forall i :: 1 <= i < |steps| ==> !steps[i].SetBufferSize?
  }

  /** "The maximum length you get from onReceive": in every run no Received event
      carries more than n bytes. */
  ghost predicate SizeIsKept(n: nat) {
    forall w, steps, stream :: SizedRun(w, steps, stream, n) ==> InChunks(AfterAll(w, steps).node.h.log, n)
  }

  /** setReceiveBufferSize keeps its promise exactly for sizes that the default
      buffer of a peer's socket keeps anyway. */
  lemma SizeIsKeptIff(n: nat)
    ensures SizeIsKept(n) <==> n >= 1024
  {
    if n >= 1024 {
      forall w, steps, stream | SizedRun(w, steps, stream, n) ensures InChunks(AfterAll(w, steps).node.h.log, n) {
        StreamsArriveUnchanged(w, steps, stream);
      }
    } else {
      var w, steps := LargeChunk(n);
      var log := AfterAll(w, steps).node.h.log;
      assert SizedRun(w, steps, STREAM, n);
      var e := Received(1, CHUNK, true);
      assert e in Of(log, 1) && e.Received? && |e.data| == 1024;
      assert !InChunks(log, n);
    }
  }

  const CHUNK: Bytes := seq(1024, _ => 0)
  const STREAM: Handle -> Bytes := (h: Handle) => CHUNK
  const RAW: Handle -> S.RecvAnswer := (h: Handle) => S.Data(CHUNK)
  const TOLD: nat -> bool := (id: nat) => true

  /** A node just constructed, alone in its process. */
  const NEW := World(
    State(map[], [], [], 0, 0, AtTop, History({0}, [], [], [], {}, [], [], map[], [], 0, [], [], [])),
    map[0 := UNUSED],
    map[])

  const LISTENING := S.Sock(3, true, false, true, 1, 1024, 0)
  const LISTEN_STEP := Listen(1, S.ListenAnswer(true, [S.AddressTry(3, true, true)], 0), false)
  const INCOMING := Acceptance(true, S.AcceptAnswer(4, 0), 1, "", 0, "", false)
  const PASS := Section([1], INCOMING, RAW, TOLD, false)

  function Sized(n: nat): World {
    NEW.(ends := map[0 := Endpoint(S.IDLE.(bufferSize := n), [])])
  }

  function Listening(n: nat): World {
    NEW.(ends := map[0 := Endpoint(LISTENING.(bufferSize := n), [])])
  }

  /** The run: set the size, listen, accept a peer and receive 1024 bytes. */
  lemma LargeChunk(n: nat) returns (w: World, steps: seq<Step>)
    ensures SizedRun(w, steps, STREAM, n)
    ensures Received(1, CHUNK, true) in Of(AfterAll(w, steps).node.h.log, 1)
  {
    ListensThenReceives(n);
    SizeReachesListener(n);
    Onward(NEW, SetBufferSize(n), REST);
    w, steps := NEW, [SetBufferSize(n)] + REST;
    NewIsInit();
  }

  const REST := [LISTEN_STEP] + ([PASS] + [])

  lemma NewIsInit()
    ensures InitWorld(NEW)
  {
  }

  lemma ListensThenReceives(n: nat)
    ensures CanAll(Sized(n), REST) && KernelGivesAll(Sized(n), REST, STREAM)
    ensures Received(1, CHUNK, true) in Of(AfterAll(Sized(n), REST).node.h.log, 1)
  {
    PassReceives(n);
    Onward(Listening(n), PASS, []);
    ListenerListens(n);
    Onward(Sized(n), LISTEN_STEP, [PASS] + []);
  }

  lemma Onward(w: World, st: Step, steps: seq<Step>)
    requires Can(w, st) && KernelGives(w, st, STREAM)
    requires CanAll(Next(w, st), steps) && KernelGivesAll(Next(w, st), steps, STREAM)
    ensures CanAll(w, [st] + steps) && KernelGivesAll(w, [st] + steps, STREAM)
    ensures AfterAll(w, [st] + steps) == AfterAll(Next(w, st), steps)
  {
    assert ([st] + steps)[1..] == steps;
  }

  lemma SizeReachesListener(n: nat)
    ensures Can(NEW, SetBufferSize(n)) && Next(NEW, SetBufferSize(n)) == Sized(n)
  {
  }

  lemma ListenerListens(n: nat)
    ensures Can(Sized(n), LISTEN_STEP) && Next(Sized(n), LISTEN_STEP) == Listening(n)
  {
    var tries := [S.AddressTry(3, true, true)];
    assert S.WalkAddresses(-1, tries) == S.Walk(3, true, [3], []);
  }

  lemma PassReceives(n: nat)
    ensures Can(Listening(n), PASS) && KernelGives(Listening(n), PASS, STREAM)
    ensures Received(1, CHUNK, true) in Of(Next(Listening(n), PASS).node.h.log, 1)
  {
    var w := Listening(n);
    PassAccepts(n);
    SectionInParts(w, PASS);
    PassHears(AfterAccept(w, INCOMING));
  }

  lemma PassAccepts(n: nat)
    ensures Can(Listening(n), PASS) && KernelGives(Listening(n), PASS, STREAM)
    ensures AskedNext(AfterAccept(Listening(n), INCOMING))
  {
    var w := Listening(n);
    var w1 := AfterAccept(w, INCOMING);
    assert w1.ends == map[0 := w.ends[0], 1 := Endpoint(S.IDLE.(fd := 4, isConnected := true), [])];
    assert w1.node.peers.Keys == {1};
  }

  /** Peer 1 is there and its socket, number 1, is connected. */
  ghost predicate AskedNext(w: World) {
    && w.node.peers.Keys == {1} && !w.node.peers[1].toBeDeleted && w.node.peers[1].socket == Some(1)
    && 1 in w.ends && w.ends[1].sock.isConnected && !w.ends[1].sock.isListener
  }

  lemma PassHears(w: World)
    requires AskedNext(w)
    ensures var t := DoDelete(AfterSweep(w, [1], RAW, TOLD).node, [1], false);
      Received(1, CHUNK, true) in Of(t.h.log, 1)
  {
    var recv := Answers(w, RAW, TOLD);
    var s := DoSweep(w.node, [1], recv);
    SweepVisitsEachOnce(w.node, [1], recv, 1);
    assert SweepEvents(1, w.node.peers[1], recv(1)) == [Received(1, CHUNK, true)];
    assert FirstMarked(s.peers, [1]) == FirstMarked(s.peers, []) by { assert [1][1..] == []; }
  }
}
