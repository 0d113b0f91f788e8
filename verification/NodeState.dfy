/**
 The node as a state machine over the critical sections of its data mutex.

 One action is one critical section (or one lock-free step of the connect
 thread).  What sockets, system calls and user callbacks answer comes in as
 part of the action.  `told` says whether the callback concerned was installed
 at that moment.
 */
module NodeState {
  import opened Common
  import opened PeerPrivate

  /** What happens to a peer, and what the user is told.  `Joined` and `Marked`
      are not callbacks: they record an insertion by the connect thread and a
      call of scheduleDelete. */
  datatype Event =
    | Accepted(id: nat, told: bool)
    | Joined(id: nat)
    | Received(id: nat, data: Bytes, told: bool)
    | Sent(id: nat, amount: nat, told: bool)
    | Marked(id: nat, why: DisconnectType)
    | Ended(id: nat, why: DisconnectType, err: Message, told: bool)
    | Connected(to: nat)
    | ListenFailed(msg: Message)
    | SendFailed(msg: Message)
    | ConnectFailed(msg: Message)
    | StartedListening(port: nat)
    | StoppedListening

  datatype OutBuffer = OutBuffer(id: nat, data: Bytes)

  /** What became of a queued buffer. */
  datatype Fate =
    | Taken(amount: nat)       // the socket took a non-empty prefix
    | Failed(marked: bool)     // the socket took nothing
    | Gone(told: bool)         // no such peer any more
    | Dropped                  // the peer is about to be deleted

  datatype Handled = Handled(buffer: OutBuffer, fate: Fate)

  /** Where the connect thread is, with its local variables. */
  datatype ConnectStep =
    | AtTop
    | Cycle(i: nat, q: nat)
    | Created(i: nat, q: nat, sock: Handle)
    | Trying(i: nat, q: nat, sock: Handle, to: Address)
    | Lost(i: nat, q: nat, sock: Handle, to: Address)
    | Won(i: nat, q: nat, sock: Handle, to: Address)
    | Announcing(i: nat, q: nat, id: nat)

  /** What no field of the node holds: the environment's and the proof's memory. */
  datatype History = History(
    made: set<Handle>,          // every socket produced so far
    freed: seq<Handle>,         // every socket deleted so far
    log: seq<Event>,
    issued: seq<nat>,           // ids this node inserted, in order
    used: set<nat>,             // ids taken from the counter by any node
    accepted: seq<OutBuffer>,   // buffers sendData queued
    handled: seq<Handled>,      // buffers the send thread is done with
    wire: map<nat, Bytes>,      // per peer, the bytes its socket took
    arrived: seq<Address>,      // addresses connectTo queued
    popped: nat,                // addresses removed again
    lengths: seq<nat>,          // queue length each batch started with
    cycles: seq<nat>,           // which request each connect cycle worked on
    origins: seq<nat>)          // which request each connection made came from

  datatype State = State(
    peers: map<nat, PeerData>,
    outbox: seq<OutBuffer>,
    requests: seq<Address>,
    listener: Handle,
    counter: nat,
    conn: ConnectStep,
    h: History)

  datatype AcceptAnswer =
    | NotListening
    | NoneWaiting(errno: int, probe: ErrnoProbe, told: bool)
    | Incoming(sock: Handle, ip: string, port: nat, host: string, told: bool)

  datatype ReceiveAnswer = ReceiveAnswer(
    connected: bool, result: ReceiveResult, data: Bytes, probe: ErrnoProbe, told: bool)

  datatype SendAnswer = SendAnswer(taken: nat, probe: ErrnoProbe, sentTold: bool, errTold: bool)

  datatype Action =
    | SendData(to: PeerData, data: Bytes, told: bool)
    | DisconnectPeer(id: nat)
    | DisconnectAll(all: seq<nat>)
    | SetListener(sock: Option<Handle>)
    | ConnectTo(address: Address)
    | OpenListener(ok: bool, port: nat, probe: ErrnoProbe, told: bool)
    | CloseListener(told: bool)
    | ListenSection(order: seq<nat>, acc: AcceptAnswer, recv: nat -> ReceiveAnswer, endTold: bool)
    | SendOne(answer: SendAnswer)
    | OtherNode
    | ConnectRead
    | ConnectCreate(created: Handle)
    | ConnectFront
    | ConnectAttempt(success: bool, errno: int, timeup: bool)
    | ConnectLost(probe: ErrnoProbe, told: bool)
    | ConnectWon(ip: string, port: nat, host: string)
    | ConnectAnnounce(told: bool)
    | ConnectPop

  ghost function Live(s: State): set<Handle> {
    set x | x in s.h.made && x !in s.h.freed
  }

  predicate PeerExists(s: State, id: nat) {
    id in s.peers && s.peers[id].valid
  }

  function Logged(s: State, es: seq<Event>): State {
    s.(h := s.h.(log := s.h.log + es))
  }

  // ---- the user's calls ---------------------------------------------------

  function NotConnected(to: PeerData): Message {
    ErrorMessage("Send Error",
      "Cannot send. Not connected to" + to.ip + ":" + Decimal(to.port) + ".", None)
  }

  function DoSendData(s: State, to: PeerData, data: Bytes, told: bool): State {
    if PeerExists(s, to.id) then
      s.(outbox := s.outbox + [OutBuffer(to.id, data)],
         h := s.h.(accepted := s.h.accepted + [OutBuffer(to.id, data)]))
    else if told then Logged(s, [SendFailed(NotConnected(to))])
    else s
  }

  function DoDisconnectPeer(s: State, id: nat): State {
    if PeerExists(s, id) then
      Logged(s.(peers := s.peers[id := Scheduled(s.peers[id], WasDisconnected)]), [Marked(id, WasDisconnected)])
    else s
  }

  function AllMarked(order: seq<nat>): seq<Event> {
    seq(|order|, i requires 0 <= i < |order| => Marked(order[i], WasDisconnected))
  }

  function DoDisconnectAll(s: State, order: seq<nat>): State {
    Logged(s.(peers := map id | id in s.peers :: Scheduled(s.peers[id], WasDisconnected)), AllMarked(order))
  }

  function DoSetListener(s: State, sock: Option<Handle>): State {
    if sock.None? then s else
      s.(listener := sock.value,
         h := s.h.(made := s.h.made + {sock.value}, freed := s.h.freed + [s.listener]))
  }

  function DoConnectTo(s: State, to: Address): State {
    s.(requests := s.requests + [to], h := s.h.(arrived := s.h.arrived + [to]))
  }

  // ---- the listen thread --------------------------------------------------

  function OpenEvents(ok: bool, port: nat, probe: ErrnoProbe, told: bool): seq<Event> {
    if !told then []
    else if ok then [StartedListening(port)]
    else [ListenFailed(ErrorMessage("Listen Error", "Failed to create listener", Some(probe)))]
  }

  /** Takes the next connection number and inserts a record under it. */
  function Inserted(s: State, sock: Handle, ip: string, port: nat, host: string): State {
    var id := s.counter + 1;
    s.(counter := id,
       peers := s.peers[id := NewPeer(id, ip, port, host, sock)],
       h := s.h.(issued := s.h.issued + [id], used := s.h.used + {id}))
  }

  function DoAccept(s: State, a: AcceptAnswer): State {
    match a
    case NotListening => s
    case NoneWaiting(errno, probe, told) =>
      if errno != 0 && told then
        Logged(s, [ListenFailed(ErrorMessage("Listen Error", "Failed to accept", Some(probe)))])
      else s
    case Incoming(sock, ip, port, host, told) =>
      var s1 := Inserted(s.(h := s.h.(made := s.h.made + {sock})), sock, ip, port, host);
      Logged(s1, [Accepted(s1.counter, told)])
  }

  function Outcome(p: PeerData, r: ReceiveAnswer): ReceiveResult {
    if p.socket.Some? && r.connected then r.result else NoConnection
  }

  /** One pass of the receive loop's body over one record. */
  function SweepPeer(p: PeerData, r: ReceiveAnswer): PeerData {
    if p.toBeDeleted then p else
    match Outcome(p, r)
    case OK => p
    case NothingReceived => p
    case PeerDisconnected => Scheduled(p, DisconnectedThemself)
    case NoConnection =>
      Scheduled(p, DisconnectedDueToError).(errmsg := ErrorMessage("Receive Error", "Socket is not connected.", None))
    case IsListener =>
      Scheduled(p, DisconnectedDueToError).(errmsg := ErrorMessage("Receive Error", "Socket is a listener.", None))
    case SystemError =>
      Scheduled(p, DisconnectedDueToError).(errmsg := ErrorMessage("Receive Error", "Failed to receive.", Some(r.probe)))
  }

  function SweepEvents(id: nat, p: PeerData, r: ReceiveAnswer): seq<Event> {
    if p.toBeDeleted then [] else
    match Outcome(p, r)
    case OK => [Received(id, r.data, r.told)]
    case NothingReceived => []
    case PeerDisconnected => [Marked(id, DisconnectedThemself)]
    case _ => [Marked(id, DisconnectedDueToError)]
  }

  /** The receive loop over the records in the order of iteration. */
  function SweepMap(peers: map<nat, PeerData>, order: seq<nat>, recv: nat -> ReceiveAnswer): map<nat, PeerData> {
    if order == [] then peers else
    var id := order[0];
    SweepMap(if id in peers then peers[id := SweepPeer(peers[id], recv(id))] else peers, order[1..], recv)
  }

  function SweepLog(peers: map<nat, PeerData>, order: seq<nat>, recv: nat -> ReceiveAnswer): seq<Event> {
    if order == [] then [] else
    var id := order[0];
    if id in peers then
      SweepEvents(id, peers[id], recv(id))
      + SweepLog(peers[id := SweepPeer(peers[id], recv(id))], order[1..], recv)
    else SweepLog(peers, order[1..], recv)
  }

  function DoSweep(s: State, order: seq<nat>, recv: nat -> ReceiveAnswer): State {
    Logged(s.(peers := SweepMap(s.peers, order, recv)), SweepLog(s.peers, order, recv))
  }

  /** The first record in the order of iteration that is to be deleted. */
  function FirstMarked(peers: map<nat, PeerData>, order: seq<nat>): Option<nat> {
    if order == [] then None
    else if order[0] in peers && peers[order[0]].toBeDeleted then Some(order[0])
    else FirstMarked(peers, order[1..])
  }

  function Erased(s: State, id: nat, told: bool): State
    requires id in s.peers
  {
    var p := s.peers[id];
    Logged(
      s.(peers := s.peers - {id},
         h := s.h.(freed := s.h.freed + if p.socket.Some? then [p.socket.value] else [])),
      [Ended(id, p.disconn, p.errmsg, told)])
  }

  function DoDelete(s: State, order: seq<nat>, told: bool): State {
    var m := FirstMarked(s.peers, order);
    if m.Some? && m.value in s.peers then Erased(s, m.value, told) else s
  }

  function DoListenSection(s: State, order: seq<nat>, acc: AcceptAnswer, recv: nat -> ReceiveAnswer, told: bool): State {
    DoDelete(DoSweep(DoAccept(s, acc), order, recv), order, told)
  }

  // ---- the send thread ----------------------------------------------------

  function FateOf(s: State, b: OutBuffer, o: SendAnswer): Fate {
    if b.id !in s.peers then Gone(o.errTold)
    else if s.peers[b.id].toBeDeleted then Dropped
    else if o.taken > 0 then Taken(o.taken)
    else Failed(o.errTold)
  }

  function SendingFailed(o: SendAnswer): Message {
    ErrorMessage("Send Error", "Sending Failed", Some(o.probe))
  }

  function DoSendOne(s: State, o: SendAnswer): State
    requires |s.outbox| > 0 && o.taken <= |s.outbox[0].data|
  {
    var b := s.outbox[0];
    var fate := FateOf(s, b, o);
    var s1 := s.(outbox := s.outbox[1..], h := s.h.(handled := s.h.handled + [Handled(b, fate)]));
    match fate
    case Gone(told) =>
      if told then Logged(s1, [SendFailed(ErrorMessage("Send Error", "Specified peer does not exist.", None))]) else s1
    case Dropped => s1
    case Taken(n) =>
      Logged(s1.(h := s1.h.(wire := s1.h.wire[b.id := OnWire(s1, b.id) + b.data[..n]])), [Sent(b.id, n, o.sentTold)])
    case Failed(marked) =>
      if marked then
        Logged(s1.(peers := s1.peers[b.id := Scheduled(s1.peers[b.id].(errmsg := SendingFailed(o)), DisconnectedDueToError)]),
               [Marked(b.id, DisconnectedDueToError)])
      else s1
  }

  function OnWire(s: State, id: nat): Bytes {
    if id in s.h.wire then s.h.wire[id] else []
  }

  // ---- the connect thread -------------------------------------------------

  function DoConnectRead(s: State): State {
    if s.requests == [] then s
    else s.(conn := Cycle(0, |s.requests|), h := s.h.(lengths := s.h.lengths + [|s.requests|]))
  }

  function DoConnectCreate(s: State, sock: Handle): State
    requires s.conn.Cycle?
  {
    s.(conn := Created(s.conn.i, s.conn.q, sock), h := s.h.(made := s.h.made + {sock}))
  }

  function DoConnectFront(s: State): State
    requires s.conn.Created?
  {
    if s.requests == [] then s  // front() of an empty deque: shown not to happen
    else
      s.(conn := Trying(s.conn.i, s.conn.q, s.conn.sock, s.requests[0]),
         h := s.h.(cycles := s.h.cycles + [s.h.popped]))
  }

  function DoConnectAttempt(s: State, success: bool, errno: int, timeup: bool): State
    requires s.conn.Trying?
  {
    var c := s.conn;
    if success then s.(conn := Won(c.i, c.q, c.sock, c.to))
    else if errno == 0 && !timeup then s
    else s.(conn := Lost(c.i, c.q, c.sock, c.to))
  }

  function ConnectFailure(to: Address, probe: ErrnoProbe): Message {
    ErrorMessage("Connect Error", "Failed to connect to " + to.ip + ":" + Decimal(to.port), Some(probe))
  }

  function DoConnectLost(s: State, probe: ErrnoProbe, told: bool): State
    requires s.conn.Lost?
  {
    var c := s.conn;
    Logged(s.(conn := Cycle(c.i + 1, c.q), h := s.h.(freed := s.h.freed + [c.sock])),
           if told then [ConnectFailed(ConnectFailure(c.to, probe))] else [])
  }

  function DoConnectWon(s: State, ip: string, port: nat, host: string): State
    requires s.conn.Won?
  {
    var c := s.conn;
    var s1 := Inserted(s, c.sock, ip, port, host);
    Logged(s1.(conn := Announcing(c.i, c.q, s1.counter), h := s1.h.(origins := s1.h.origins + [s.h.popped])),
           [Joined(s1.counter)])
  }

  function DoConnectAnnounce(s: State, told: bool): State
    requires s.conn.Announcing?
  {
    Logged(s.(conn := Cycle(s.conn.i + 1, s.conn.q)), if told then [Connected(s.conn.id)] else [])
  }

  function DoConnectPop(s: State): State
    requires s.conn.Cycle?
  {
    if s.requests == [] then s  // pop_front() of an empty deque: shown not to happen
    else s.(conn := AtTop, requests := s.requests[1..], h := s.h.(popped := s.h.popped + 1))
  }

  // ---- the destructor -----------------------------------------------------

  /** Its tail: every peer is marked, none erased, and the listener freed. */
  function Destructed(s: State, order: seq<nat>): State {
    var t := DoDisconnectAll(s, order);
    t.(h := t.h.(freed := t.h.freed + [t.listener]))
  }

  // ---- steps and runs -----------------------------------------------------

  /** A user's call, the listener's opening or closing, or another node. */
  predicate FromOutside(a: Action) {
    a.SendData? || a.DisconnectPeer? || a.DisconnectAll? || a.SetListener? || a.ConnectTo?
    || a.OpenListener? || a.CloseListener? || a.OtherNode?
  }

  predicate StartsCycle(a: Action) {
    a.ConnectRead? || a.ConnectCreate? || a.ConnectFront? || a.ConnectAttempt?
  }

  predicate EndsCycle(a: Action) {
    a.ConnectLost? || a.ConnectWon? || a.ConnectAnnounce? || a.ConnectPop?
  }

  /** What the environment and the program counters allow. */
  ghost predicate Enabled(s: State, a: Action) {
    match a
    case SetListener(sock) => sock.Some? ==> sock.value !in s.h.made
    case DisconnectAll(order) => Enumerates(order, s.peers.Keys)
    case ListenSection(order, acc, _, _) =>
      && (acc.Incoming? ==> acc.sock !in s.h.made)
      && Enumerates(order, DoAccept(s, acc).peers.Keys)
    case SendOne(o) => |s.outbox| > 0 && o.taken <= |s.outbox[0].data|
    case ConnectRead => s.conn.AtTop?
    case ConnectCreate(sock) => s.conn.Cycle? && s.conn.i < s.conn.q && sock !in s.h.made
    case ConnectFront => s.conn.Created?
    case ConnectAttempt(_, _, _) => s.conn.Trying?
    case ConnectLost(_, _) => s.conn.Lost?
    case ConnectWon(_, _, _) => s.conn.Won?
    case ConnectAnnounce(_) => s.conn.Announcing?
    case ConnectPop => s.conn.Cycle? && s.conn.i >= s.conn.q
    case _ => true
  }

  ghost function Apply(s: State, a: Action): State
    requires Enabled(s, a)
  {
    match a
    case SendData(to, data, told) => DoSendData(s, to, data, told)
    case DisconnectPeer(id) => DoDisconnectPeer(s, id)
    case DisconnectAll(order) => DoDisconnectAll(s, order)
    case SetListener(sock) => DoSetListener(s, sock)
    case ConnectTo(to) => DoConnectTo(s, to)
    case OpenListener(ok, port, probe, told) => Logged(s, OpenEvents(ok, port, probe, told))
    case CloseListener(told) => Logged(s, if told then [StoppedListening] else [])
    case ListenSection(order, acc, recv, told) => DoListenSection(s, order, acc, recv, told)
    case SendOne(o) => DoSendOne(s, o)
    case OtherNode => s.(counter := s.counter + 1, h := s.h.(used := s.h.used + {s.counter + 1}))
    case ConnectRead => DoConnectRead(s)
    case ConnectCreate(sock) => DoConnectCreate(s, sock)
    case ConnectFront => DoConnectFront(s)
    case ConnectAttempt(success, errno, timeup) => DoConnectAttempt(s, success, errno, timeup)
    case ConnectLost(probe, told) => DoConnectLost(s, probe, told)
    case ConnectWon(ip, port, host) => DoConnectWon(s, ip, port, host)
    case ConnectAnnounce(told) => DoConnectAnnounce(s, told)
    case ConnectPop => DoConnectPop(s)
  }

  /** A node just constructed, in a process where other nodes may have taken
      connection numbers already. */
  ghost predicate Init(s: State) {
    && s.peers == map[] && s.outbox == [] && s.requests == [] && s.conn == AtTop
    && (forall id :: id in s.h.used ==> 1 <= id <= s.counter)
    && s.h == History({s.listener}, [], [], [], s.h.used, [], [], map[], [], 0, [], [], [])
  }

  ghost predicate ValidRun(s: State, run: seq<Action>)
    decreases |run|
  {
    run == [] || (Enabled(s, run[0]) && ValidRun(Apply(s, run[0]), run[1..]))
  }

  ghost function After(s: State, run: seq<Action>): State
    requires ValidRun(s, run)
    decreases |run|
  {
    if run == [] then s else After(Apply(s, run[0]), run[1..])
  }
}
