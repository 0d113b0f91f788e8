/**
 The node run over default sockets: a store gives the state of every socket ever
 made, and each step of the node makes the socket calls the source makes there.
 Only the answers of the kernel are left open.
 */
module DefaultNode {
  import opened Common
  import opened PeerPrivate
  import opened NodeState
  import opened ReceiveSweep
  import opened NodeRuns
  import S = SocketState
  import PeerLife
  import SocketLedger

  /** A socket, and the bytes recv() has handed out for it so far. */
  datatype Endpoint = Endpoint(sock: S.Sock, taken: Bytes)

  const UNUSED := Endpoint(S.IDLE, [])

  /** `owner` remembers which socket each connection was given. */
  datatype World = World(node: State, ends: map<Handle, Endpoint>, owner: map<nat, Handle>)

  datatype Acceptance = Acceptance(
    available: bool, answer: S.AcceptAnswer, h: Handle, ip: string, port: nat, host: string, told: bool)

  datatype Step =
    | Plain(a: Action)      // no socket is called
    | NewListener(h: Handle)
    | SetBufferSize(n: nat)
    | Listen(port: nat, listened: S.ListenAnswer, told: bool)
    | StopListening(told: bool)
    | Section(order: seq<nat>, accept: Acceptance, raw: Handle -> S.RecvAnswer, recvTold: nat -> bool, endTold: bool)
    | SendFront(sent: S.SendAnswer, sentTold: bool, errTold: bool)
    | Create(h: Handle)
    | Attempt(connected: S.ConnectAnswer, timeup: bool)
    | GiveUp(told: bool)
    | Add(ip: string, port: nat, host: string)

  predicate Socketless(a: Action) {
    a.SendData? || a.DisconnectPeer? || a.DisconnectAll? || a.ConnectTo? || a.OtherNode?
    || a.ConnectRead? || a.ConnectFront? || a.ConnectAnnounce? || a.ConnectPop?
  }

  function End(w: World, h: Handle): Endpoint {
    if h in w.ends then w.ends[h] else UNUSED
  }

  function Listener(w: World): S.Sock {
    End(w, w.node.listener).sock
  }

  // ---- accepting ----------------------------------------------------------

  /** What the node gets to see of accept(); the error number is read by accept
      itself, then by the node. */
  function Accepting(w: World, a: Acceptance): NodeState.AcceptAnswer {
    var l := Listener(w);
    if !(l.isListener && l.isListening && a.available) then NotListening
    else if S.DoAccept(l, a.answer).1.Some? then Incoming(a.h, a.ip, a.port, a.host, a.told)
    else NoneWaiting(S.DoAccept(l, a.answer).0.lastErrno, ErrnoProbe(0, ""), a.told)
  }

  function AcceptedEnd(w: World, a: Acceptance): Endpoint {
    var s := S.DoAccept(Listener(w), a.answer).1;
    if s.Some? then Endpoint(s.value, []) else UNUSED
  }

  function AfterAccept(w: World, a: Acceptance): World {
    var seen := Accepting(w, a);
    var listener := End(w, w.node.listener);
    World(
      DoAccept(w.node, seen),
      match seen
      case NotListening => w.ends
      case NoneWaiting(_, _, _) => w.ends[w.node.listener := listener.(sock := listener.sock.(lastErrno := 0))]
      case Incoming(_, _, _, _, _) => w.ends[a.h := AcceptedEnd(w, a)],
      if seen.Incoming? then w.owner[w.node.counter + 1 := a.h] else w.owner)
  }

  // ---- receiving ----------------------------------------------------------

  function SocketOf(s: State, id: nat): Option<Handle> {
    if id in s.peers then s.peers[id].socket else None
  }

  /** What the node gets to see of the sockets it asks. */
  function Answers(w: World, raw: Handle -> S.RecvAnswer, told: nat -> bool): nat -> ReceiveAnswer {
    (id: nat) =>
      match SocketOf(w.node, id)
      case None => ReceiveAnswer(false, NoConnection, [], ErrnoProbe(0, ""), false)
      case Some(h) =>
        var e := End(w, h).sock;
        ReceiveAnswer(e.isConnected, S.ReceiveOutcome(e, raw(h)).0, S.ReceiveOutcome(e, raw(h)).1,
                      ErrnoProbe(S.DoReceive(e, raw(h)).lastErrno, ""), told(id))
  }

  function Asked(e: Endpoint, r: S.RecvAnswer): Endpoint {
    if !e.sock.isConnected then e else
      Endpoint(S.DoReceive(e.sock, r).(lastErrno := 0),
               e.taken + if S.ReceiveOutcome(e.sock, r).0 == OK then S.ReceiveOutcome(e.sock, r).1 else [])
  }

  /** The sockets a pass asks: those of the records that are not marked. */
  ghost predicate IsAsked(s: State, h: Handle) {
    exists id :: id in s.peers && s.peers[id].socket == Some(h) && !s.peers[id].toBeDeleted
  }

  ghost function AfterAsking(w: World, raw: Handle -> S.RecvAnswer): map<Handle, Endpoint> {
    map h | h in w.ends :: if IsAsked(w.node, h) then Asked(w.ends[h], raw(h)) else w.ends[h]
  }

  // ---- steps --------------------------------------------------------------

  function WithSock(w: World, h: Handle, s: S.Sock): map<Handle, Endpoint> {
    w.ends[h := End(w, h).(sock := s)]
  }

  function Flying(w: World): Handle {
    match w.node.conn
    case Created(_, _, h) => h
    case Trying(_, _, h, _) => h
    case Lost(_, _, h, _) => h
    case Won(_, _, h, _) => h
    case _ => 0
  }

  /** The socket the front buffer is written to, if there is one. */
  function Target(s: State): Option<Handle> {
    if s.outbox != [] && s.outbox[0].id in s.peers && !s.peers[s.outbox[0].id].toBeDeleted
    then s.peers[s.outbox[0].id].socket else None
  }

  function Sending(w: World, a: S.SendAnswer, sentTold: bool, errTold: bool): NodeState.SendAnswer {
    match Target(w.node)
    case None => NodeState.SendAnswer(0, ErrnoProbe(0, ""), sentTold, errTold)
    case Some(h) =>
      NodeState.SendAnswer(S.SendOutcome(End(w, h).sock, a),
                           ErrnoProbe(S.DoSend(End(w, h).sock, a).lastErrno, ""), sentTold, errTold)
  }

  /** The node's step, as it comes out of the socket calls. */
  function ActionOf(w: World, st: Step): Action {
    match st
    case Plain(a) => a
    case NewListener(h) => SetListener(Some(h))
    case SetBufferSize(_) => SetListener(None)
    case Listen(port, answer, told) =>
      var (l, ok) := S.DoListen(Listener(w), port, answer);
      OpenListener(ok, port, ErrnoProbe(l.lastErrno, ""), told)
    case StopListening(told) => CloseListener(told)
    case Section(order, accept, raw, told, endTold) =>
      ListenSection(order, Accepting(w, accept), Answers(AfterAccept(w, accept), raw, told), endTold)
    case SendFront(answer, sentTold, errTold) => SendOne(Sending(w, answer, sentTold, errTold))
    case Create(h) => ConnectCreate(h)
    case Attempt(answer, timeup) =>
      var (s, ok) := S.DoConnect(End(w, Flying(w)).sock, answer);
      ConnectAttempt(ok, s.lastErrno, timeup)
    case GiveUp(told) => ConnectLost(ErrnoProbe(End(w, Flying(w)).sock.lastErrno, ""), told)
    case Add(ip, port, host) => ConnectWon(ip, port, host)
  }

  ghost function NewEnds(w: World, st: Step): map<Handle, Endpoint> {
    match st
    case Plain(_) => w.ends
    case NewListener(h) => WithSock(w, w.node.listener, S.Closed(Listener(w)))[h := UNUSED]
    case SetBufferSize(n) => WithSock(w, w.node.listener, S.Apply(Listener(w), S.SetReceiveBufferSize(n)))
    case Listen(port, answer, told) =>
      var l := S.DoListen(Listener(w), port, answer).0;
      WithSock(w, w.node.listener, if told then l.(lastErrno := 0) else l)
    case StopListening(_) => WithSock(w, w.node.listener, S.Closed(Listener(w)))
    case Section(_, accept, raw, _, _) => AfterAsking(AfterAccept(w, accept), raw)
    case SendFront(answer, _, errTold) =>
      (match Target(w.node)
       case None => w.ends
       case Some(h) =>
         var e := S.DoSend(End(w, h).sock, answer);
         WithSock(w, h, if errTold && S.SendOutcome(End(w, h).sock, answer) == 0 then e.(lastErrno := 0) else e))
    case Create(h) => w.ends[h := UNUSED]
    case Attempt(answer, _) => WithSock(w, Flying(w), S.DoConnect(End(w, Flying(w)).sock, answer).0.(lastErrno := 0))
    case GiveUp(_) => WithSock(w, Flying(w), S.Closed(End(w, Flying(w)).sock).(lastErrno := 0))
    case Add(_, _, _) => w.ends
  }

  function NewOwner(w: World, st: Step): map<nat, Handle> {
    match st
    case Section(_, accept, _, _, _) => AfterAccept(w, accept).owner
    case Add(_, _, _) => w.owner[w.node.counter + 1 := Flying(w)]
    case _ => w.owner
  }

  ghost predicate Can(w: World, st: Step) {
    && Enabled(w.node, ActionOf(w, st))
    && (st.Plain? ==> Socketless(st.a))
  }

  ghost function Next(w: World, st: Step): World
    requires Can(w, st)
  {
    World(Apply(w.node, ActionOf(w, st)), NewEnds(w, st), NewOwner(w, st))
  }

  ghost predicate InitWorld(w: World) {
    Init(w.node) && w.ends == map[w.node.listener := UNUSED] && w.owner == map[]
  }

  ghost predicate CanAll(w: World, steps: seq<Step>)
    decreases |steps|
  {
    steps == [] || (Can(w, steps[0]) && CanAll(Next(w, steps[0]), steps[1..]))
  }

  ghost function AfterAll(w: World, steps: seq<Step>): World
    requires CanAll(w, steps)
    decreases |steps|
  {
    if steps == [] then w else AfterAll(Next(w, steps[0]), steps[1..])
  }

  ghost function Actions(w: World, steps: seq<Step>): seq<Action>
    requires CanAll(w, steps)
    decreases |steps|
  {
    if steps == [] then [] else [ActionOf(w, steps[0])] + Actions(Next(w, steps[0]), steps[1..])
  }

  /** Every run over default sockets is a run of the node. */
  lemma {:induction false} RunsAreRuns(w: World, steps: seq<Step>)
    requires CanAll(w, steps)
    ensures ValidRun(w.node, Actions(w, steps))
    ensures After(w.node, Actions(w, steps)) == AfterAll(w, steps).node
    decreases |steps|
  {
    if steps != [] {
      RunsAreRuns(Next(w, steps[0]), steps[1..]);
      assert Actions(w, steps)[1..] == Actions(Next(w, steps[0]), steps[1..]);
    }
  }

  // ---- what every run keeps -----------------------------------------------

  /** Only the listener listens. */
  ghost predicate OneListener(w: World) {
    && w.ends.Keys == w.node.h.made
    && forall h :: h in w.ends ==> S.Fits(w.ends[h].sock) && (w.ends[h].sock.isListener ==> h == w.node.listener)
  }

  /** Every connection has its own socket, which is neither the listener nor in
      flight, and which setReceiveBufferSize never reached. */
  ghost predicate Owned(w: World) {
    && (forall id :: id in w.node.peers ==> id in w.owner && w.node.peers[id].socket == Some(w.owner[id]))
    && (forall i, j :: i in w.owner && j in w.owner && i != j ==> w.owner[i] != w.owner[j])
    && (forall id :: id in w.owner ==>
          && id <= w.node.counter
          && w.owner[id] in w.ends
          && w.owner[id] != w.node.listener
          && w.owner[id] !in SocketLedger.InFlight(w.node.conn)
          && w.ends[w.owner[id]].sock.bufferSize == 1024)
    && (forall h :: h in SocketLedger.InFlight(w.node.conn) ==>
          h in w.ends && h != w.node.listener && w.ends[h].sock.bufferSize == 1024)
  }

  function DataIn(es: seq<Event>): Bytes {
    if es == [] then [] else (if es[0].Received? then es[0].data else []) + DataIn(es[1..])
  }

  /** The bytes of a peer's Received events. */
  function Heard(log: seq<Event>, id: nat): Bytes {
    DataIn(Of(log, id))
  }

  /** What the sockets took in is what the Received events told, and nothing is
      read from a socket that belongs to no connection yet. */
  ghost predicate Carried(w: World) {
    && (forall id: nat :: Heard(w.node.h.log, id) == if id in w.owner then End(w, w.owner[id]).taken else [])
    && (forall h :: h in w.ends && h !in w.owner.Values ==> w.ends[h].taken == [])
  }

  ghost predicate Sound(w: World) {
    SocketLedger.Ledger(w.node) && PeerLife.IdsFit(w.node) && OneListener(w) && Owned(w) && Carried(w)
  }

  lemma {:induction false} DataAppend(xs: seq<Event>, ys: seq<Event>)
    ensures DataIn(xs + ys) == DataIn(xs) + DataIn(ys)
  {
    if xs == [] {
      assert xs + ys == ys;
    } else {
      assert (xs + ys)[1..] == xs[1..] + ys;
      DataAppend(xs[1..], ys);
    }
  }

  lemma HeardAppend(xs: seq<Event>, ys: seq<Event>, id: nat)
    ensures Heard(xs + ys, id) == Heard(xs, id) + Heard(ys, id)
  {
    OfAppend(xs, ys, id);
    DataAppend(Of(xs, id), Of(ys, id));
  }

  lemma {:induction false} SilentHasNoData(es: seq<Event>, id: nat)
    requires forall e :: e in es ==> !e.Received?
    ensures Heard(es, id) == []
  {
    if es != [] {
      SilentHasNoData(es[1..], id);
      assert es[0] in es;
      if About(es[0]) == Some(id) {
        assert Of(es, id) == [es[0]] + Of(es[1..], id);
        DataAppend([es[0]], Of(es[1..], id));
        assert DataIn([es[0]]) == [] by { assert [es[0]][1..] == []; }
      } else {
        assert Of(es, id) == Of(es[1..], id);
      }
    }
  }

  /** t's log goes on from s's without a Received event. */
  ghost predicate Silent(s: State, t: State) {
    && |s.h.log| <= |t.h.log| && s.h.log == t.h.log[..|s.h.log|]
    && forall e :: e in t.h.log[|s.h.log|..] ==> !e.Received?
  }

  lemma SilentHeard(s: State, t: State)
    requires Silent(s, t)
    ensures forall id: nat :: Heard(t.h.log, id) == Heard(s.h.log, id)
  {
    forall id: nat ensures Heard(t.h.log, id) == Heard(s.h.log, id) {
      var es := t.h.log[|s.h.log|..];
      assert t.h.log == s.h.log + es;
      HeardAppend(s.h.log, es, id);
      SilentHasNoData(es, id);
    }
  }

  // ---- steps that call no socket ------------------------------------------

  /** No connection comes, goes or is read. */
  ghost predicate Unmoved(s: State, t: State) {
    && Silent(s, t)
    && t.h.made == s.h.made && t.listener == s.listener && t.counter >= s.counter
    && SocketLedger.InFlight(t.conn) <= SocketLedger.InFlight(s.conn)
    && t.peers.Keys == s.peers.Keys && (forall id :: id in s.peers ==> t.peers[id].socket == s.peers[id].socket)
  }

  lemma OneMoreEvent(s: State, t: State, e: Event)
    requires t.h.log == s.h.log + [e] && !e.Received?
    ensures Silent(s, t)
  {
  }

  lemma PlainIsQuiet(s: State, a: Action)
    requires Enabled(s, a) && Socketless(a)
    ensures Silent(s, Apply(s, a))
  {
    var t := Apply(s, a);
    assert t.h.log == s.h.log + t.h.log[|s.h.log|..];
  }

  lemma PlainIsUnmoved(s: State, a: Action)
    requires Enabled(s, a) && Socketless(a)
    ensures Unmoved(s, Apply(s, a))
  {
    PlainIsQuiet(s, a);
  }

  lemma CallIsUnmoved(s: State, a: Action)
    requires Enabled(s, a)
    requires a.ConnectAttempt? || a.ConnectLost? || a.OpenListener? || a.CloseListener? || a == SetListener(None)
    ensures Unmoved(s, Apply(s, a))
  {
    var t := Apply(s, a);
    assert t.h.log == s.h.log + t.h.log[|s.h.log|..];
  }

  /** Steps that read nothing and connect nobody. */
  lemma CarriedStays(w: World, v: World)
    requires Owned(w) && Carried(w) && v.owner == w.owner && Silent(w.node, v.node)
    requires forall h :: h in w.ends ==> h in v.ends && v.ends[h].taken == w.ends[h].taken
    requires forall h :: h in v.ends && h !in w.ends ==> v.ends[h].taken == []
    ensures Carried(v)
  {
    SilentHeard(w.node, v.node);
  }

  ghost predicate Kept(w: World) {
    OneListener(w) && Owned(w) && Carried(w)
  }

  /** One socket is called, and it is still a fitting one. */
  lemma OneCall(w: World, v: World, h: Handle, e: S.Sock)
    requires Kept(w) && Unmoved(w.node, v.node) && v.owner == w.owner
    requires h in w.ends && v.ends == w.ends[h := w.ends[h].(sock := e)]
    requires S.Fits(e) && (e.isListener ==> h == w.node.listener)
    requires e.bufferSize == w.ends[h].sock.bufferSize || h == w.node.listener
    ensures Kept(v)
  {
    CarriedStays(w, v);
    OneCallOwned(w, v, h, e);
  }

  lemma OneCallOwned(w: World, v: World, h: Handle, e: S.Sock)
    requires Owned(w) && Unmoved(w.node, v.node) && v.owner == w.owner
    requires h in w.ends && v.ends == w.ends[h := w.ends[h].(sock := e)]
    requires e.bufferSize == w.ends[h].sock.bufferSize || h == w.node.listener
    ensures Owned(v)
  {
  }

  lemma NoCallKeeps(w: World, v: World)
    requires Kept(w) && Unmoved(w.node, v.node) && v.ends == w.ends && v.owner == w.owner
    ensures Kept(v)
  {
    CarriedStays(w, v);
  }

  lemma PlainKeeps(w: World, st: Step)
    requires Sound(w) && Can(w, st) && st.Plain?
    ensures Kept(Next(w, st))
  {
    PlainIsUnmoved(w.node, st.a);
    NoCallKeeps(w, Next(w, st));
  }

  // ---- calls on the listener ----------------------------------------------

  lemma ListenFits(s: S.Sock, port: nat, a: S.ListenAnswer)
    requires S.Fits(s)
    ensures S.Fits(S.DoListen(s, port, a).0)
  {
    S.FlagsFit(s, [S.Listen(port, a)]);
    assert [S.Listen(port, a)][1..] == [];
    assert S.After(s, [S.Listen(port, a)]) == S.After(S.Apply(s, S.Listen(port, a)), []);
  }

  lemma ListenerIsAlone(w: World)
    requires Sound(w)
    ensures w.node.listener in w.ends && w.node.listener !in w.owner.Values
    ensures w.node.listener !in SocketLedger.InFlight(w.node.conn)
  {
    SocketLedger.OwnersAreLive(w.node);
  }

  lemma ListenerCallKeeps(w: World, st: Step)
    requires Sound(w) && Can(w, st) && (st.SetBufferSize? || st.Listen? || st.StopListening?)
    ensures Kept(Next(w, st))
  {
    ListenerIsAlone(w);
    if st.Listen? { ListenFits(Listener(w), st.port, st.listened); }
    CallIsUnmoved(w.node, ActionOf(w, st));
    OneCall(w, Next(w, st), w.node.listener, NewEnds(w, st)[w.node.listener].sock);
  }

  /** A socket nobody had before. */
  lemma OneMoreSocket(w: World, v: World, h: Handle)
    requires Sound(w) && h !in w.ends && v.owner == w.owner
    requires v.ends.Keys == w.ends.Keys + {h} == v.node.h.made && v.ends[h] == UNUSED
    requires forall x :: x in w.ends ==>
      && v.ends[x].taken == w.ends[x].taken && v.ends[x].sock.bufferSize == w.ends[x].sock.bufferSize
      && S.Fits(v.ends[x].sock) && (v.ends[x].sock.isListener ==> x == v.node.listener)
    requires v.node.peers == w.node.peers && v.node.h.log == w.node.h.log && v.node.counter == w.node.counter
    requires v.node.listener in {w.node.listener, h}
    requires SocketLedger.InFlight(v.node.conn) <= SocketLedger.InFlight(w.node.conn) + if v.node.listener == h then {} else {h}
    ensures Kept(v)
  {
    ListenerIsAlone(w);
    CarriedStays(w, v);
  }

  lemma NewListenerKeeps(w: World, h: Handle)
    requires Sound(w) && Can(w, NewListener(h))
    ensures Kept(Next(w, NewListener(h)))
  {
    ListenerIsAlone(w);
    OneMoreSocket(w, Next(w, NewListener(h)), h);
  }

  // ---- the connect thread's socket ----------------------------------------

  lemma CreateKeeps(w: World, h: Handle)
    requires Sound(w) && Can(w, Create(h))
    ensures Kept(Next(w, Create(h)))
  {
    OneMoreSocket(w, Next(w, Create(h)), h);
  }

  lemma AttemptKeeps(w: World, st: Step)
    requires Sound(w) && Can(w, st) && (st.Attempt? || st.GiveUp?)
    ensures Kept(Next(w, st))
  {
    var h := Flying(w);
    assert h in SocketLedger.InFlight(w.node.conn);
    CallIsUnmoved(w.node, ActionOf(w, st));
    OneCall(w, Next(w, st), h, NewEnds(w, st)[h].sock);
  }

  lemma AddKeeps(w: World, v: World, h: Handle, p: PeerData)
    requires Kept(w) && SocketLedger.InFlight(w.node.conn) == {h}
    requires v.node.peers == w.node.peers[v.node.counter := p] && p.socket == Some(h)
    requires v.node.counter == w.node.counter + 1 && v.node.h.made == w.node.h.made
    requires v.node.listener == w.node.listener && SocketLedger.InFlight(v.node.conn) == {}
    requires Silent(w.node, v.node)
    requires v.ends == w.ends && v.owner == w.owner[v.node.counter := h]
    ensures Kept(v)
  {
    FlyingIsNotOwned(w, h);
    NextIdIsNew(w);
    AddCarries(w, v, h);
    AddOwned(w, v, h);
  }

  lemma FlyingIsNotOwned(w: World, h: Handle)
    requires Owned(w) && h in SocketLedger.InFlight(w.node.conn)
    ensures h in w.ends && h !in w.owner.Values
  {
  }

  lemma NextIdIsNew(w: World)
    requires Owned(w)
    ensures w.node.counter + 1 !in w.owner && w.node.counter + 1 !in w.node.peers
  {
  }

  lemma AddCarries(w: World, v: World, h: Handle)
    requires Carried(w) && Silent(w.node, v.node) && h in w.ends && h !in w.owner.Values && v.node.counter !in w.owner
    requires v.ends == w.ends && v.owner == w.owner[v.node.counter := h]
    ensures Carried(v)
  {
    SilentHeard(w.node, v.node);
    forall x | x in w.owner.Values ensures x in v.owner.Values {
      var id :| id in w.owner && w.owner[id] == x;
      assert v.owner[id] == x;
    }
  }

  lemma AddOwned(w: World, v: World, h: Handle)
    requires Owned(w) && SocketLedger.InFlight(w.node.conn) == {h} && v.node.counter !in w.owner
    requires v.node.counter in v.node.peers && v.node.peers[v.node.counter].socket == Some(h)
    requires v.node.peers == w.node.peers[v.node.counter := v.node.peers[v.node.counter]]
    requires v.node.counter == w.node.counter + 1
    requires v.node.listener == w.node.listener && SocketLedger.InFlight(v.node.conn) == {}
    requires v.ends == w.ends && v.owner == w.owner[v.node.counter := h]
    ensures Owned(v)
  {
    assert h in SocketLedger.InFlight(w.node.conn);
  }

  lemma AddStepKeeps(w: World, st: Step)
    requires Sound(w) && Can(w, st) && st.Add?
    ensures Kept(Next(w, st))
  {
    WonShape(w.node, st.ip, st.port, st.host);
    AddKeeps(w, Next(w, st), Flying(w), NewPeer(w.node.counter + 1, st.ip, st.port, st.host, Flying(w)));
  }

  lemma WonShape(s: State, ip: string, port: nat, host: string)
    requires s.conn.Won?
    ensures var t, id := DoConnectWon(s, ip, port, host), s.counter + 1;
      && t.peers == s.peers[id := NewPeer(id, ip, port, host, s.conn.sock)] && t.counter == id
      && t.h.made == s.h.made && t.listener == s.listener && t.conn.Announcing? && Silent(s, t)
  {
    OneMoreEvent(s, DoConnectWon(s, ip, port, host), Joined(s.counter + 1));
  }

  // ---- sending ------------------------------------------------------------

  lemma SendIsUnmoved(s: State, o: NodeState.SendAnswer)
    requires Enabled(s, SendOne(o))
    ensures Unmoved(s, DoSendOne(s, o))
  {
    var t := DoSendOne(s, o);
    assert t.h.log == s.h.log + t.h.log[|s.h.log|..];
  }

  lemma SendKeeps(w: World, st: Step)
    requires Sound(w) && Can(w, st) && st.SendFront?
    ensures Kept(Next(w, st))
  {
    SendIsUnmoved(w.node, ActionOf(w, st).answer);
    SendCallsKeep(w, Next(w, st), st);
  }

  lemma SendCallsKeep(w: World, v: World, st: Step)
    requires Kept(w) && st.SendFront? && Unmoved(w.node, v.node) && v.ends == NewEnds(w, st) && v.owner == w.owner
    ensures Kept(v)
  {
    if Target(w.node).None? {
      NoCallKeeps(w, v);
    } else {
      var h := Target(w.node).value;
      SendCallsOne(w, st, h);
      OneCall(w, v, h, v.ends[h].sock);
    }
  }

  lemma SendCallsOne(w: World, st: Step, h: Handle)
    requires OneListener(w) && Owned(w) && st.SendFront? && Target(w.node) == Some(h)
    ensures h in w.ends && h in NewEnds(w, st)
    ensures var e := NewEnds(w, st)[h].sock;
      && NewEnds(w, st) == w.ends[h := w.ends[h].(sock := e)]
      && S.Fits(e) && !e.isListener && e.bufferSize == w.ends[h].sock.bufferSize
  {
    TargetIsOwned(w, h);
    SendFits(w.ends[h].sock, st.sent);
  }

  lemma TargetIsOwned(w: World, h: Handle)
    requires OneListener(w) && Owned(w) && Target(w.node) == Some(h)
    ensures h in w.ends && !w.ends[h].sock.isListener
  {
    assert h == w.owner[w.node.outbox[0].id];
  }

  lemma SendFits(s: S.Sock, a: S.SendAnswer)
    requires S.Fits(s)
    ensures var t := S.DoSend(s, a);
      S.Fits(t) && t.isListener == s.isListener && t.bufferSize == s.bufferSize
  {
  }

  // ---- the listen thread's pass -------------------------------------------

  lemma AcceptKeeps(w: World, a: Acceptance)
    requires Sound(w) && (Accepting(w, a).Incoming? ==> a.h !in w.node.h.made)
    ensures Kept(AfterAccept(w, a))
  {
    ListenerIsAlone(w);
    if Accepting(w, a).Incoming? {
      IncomingKeeps(w, a);
    } else {
      AcceptErrorNever(w, a);
      NoneAcceptedKeeps(w, AfterAccept(w, a));
    }
  }

  lemma IncomingKeeps(w: World, a: Acceptance)
    requires Kept(w) && w.node.listener in w.ends && Accepting(w, a).Incoming? && a.h !in w.node.h.made
    ensures Kept(AfterAccept(w, a))
  {
    S.AcceptedIsConnected(Listener(w), a.answer);
    IncomingShape(w.node, a.h, a.ip, a.port, a.host, a.told);
    NewConnectionKeeps(w, AfterAccept(w, a), a.h, S.DoAccept(Listener(w), a.answer).1.value);
  }

  lemma IncomingShape(s: State, h: Handle, ip: string, port: nat, host: string, told: bool)
    ensures var t, id := DoAccept(s, Incoming(h, ip, port, host, told)), s.counter + 1;
      && t.peers == s.peers[id := NewPeer(id, ip, port, host, h)] && t.counter == id
      && t.h.made == s.h.made + {h} && t.listener == s.listener && t.conn == s.conn && Silent(s, t)
  {
    OneMoreEvent(s, DoAccept(s, Incoming(h, ip, port, host, told)), Accepted(s.counter + 1, told));
  }

  lemma NoneAcceptedKeeps(w: World, v: World)
    requires Kept(w) && w.node.listener in w.ends && v.node == w.node && v.owner == w.owner
    requires v.ends == w.ends || v.ends == w.ends[w.node.listener := w.ends[w.node.listener].(sock := Listener(w).(lastErrno := 0))]
    ensures Kept(v)
  {
    if v.ends != w.ends {
      OneCall(w, v, w.node.listener, Listener(w).(lastErrno := 0));
    }
  }

  lemma NewConnectionKeeps(w: World, v: World, h: Handle, e: S.Sock)
    requires Kept(w) && w.node.listener in w.ends && h !in w.ends
    requires Silent(w.node, v.node)
    requires v.node.counter == w.node.counter + 1 && v.node.listener == w.node.listener && v.node.conn == w.node.conn
    requires v.node.counter in v.node.peers && v.node.peers[v.node.counter].socket == Some(h)
    requires v.node.peers == w.node.peers[v.node.counter := v.node.peers[v.node.counter]]
    requires v.node.h.made == w.node.h.made + {h}
    requires v.ends == w.ends[h := Endpoint(e, [])] && v.owner == w.owner[v.node.counter := h]
    requires S.Fits(e) && !e.isListener && e.bufferSize == 1024
    ensures Kept(v)
  {
    NextIdIsNew(w);
    NewConnectionOwned(w, v, h);
    NewConnectionCarried(w, v, h);
  }

  lemma NewConnectionCarried(w: World, v: World, h: Handle)
    requires Carried(w) && Silent(w.node, v.node) && h !in w.ends && v.node.counter !in w.owner
    requires forall id :: id in w.owner ==> w.owner[id] in w.ends
    requires v.owner == w.owner[v.node.counter := h]
    requires h in v.ends && v.ends == w.ends[h := v.ends[h]] && v.ends[h].taken == []
    ensures Carried(v)
  {
    SilentHeard(w.node, v.node);
    assert forall x :: x in w.owner.Values ==> x in v.owner.Values by {
      forall x | x in w.owner.Values ensures x in v.owner.Values {
        var id :| id in w.owner && w.owner[id] == x;
        assert v.owner[id] == x;
      }
    }
    assert v.owner[v.node.counter] == h;
  }

  lemma NewConnectionOwned(w: World, v: World, h: Handle)
    requires Owned(w) && h !in w.ends && w.node.listener in w.ends && v.node.counter !in w.owner
    requires v.node.counter == w.node.counter + 1 && v.node.listener == w.node.listener && v.node.conn == w.node.conn
    requires v.node.counter in v.node.peers && v.node.peers[v.node.counter].socket == Some(h)
    requires v.node.peers == w.node.peers[v.node.counter := v.node.peers[v.node.counter]]
    requires h in v.ends && v.ends == w.ends[h := v.ends[h]] && v.ends[h].sock.bufferSize == 1024
    requires v.owner == w.owner[v.node.counter := h]
    ensures Owned(v)
  {
  }

  /** accept() leaves no error number, so the node never reports a failed one. */
  lemma AcceptErrorNever(w: World, a: Acceptance)
    ensures Accepting(w, a).NoneWaiting? ==> Accepting(w, a).errno == 0
    ensures !Accepting(w, a).Incoming? ==> DoAccept(w.node, Accepting(w, a)) == w.node
  {
    if Accepting(w, a).NoneWaiting? {
      S.AcceptLeavesNoErrno(Listener(w), a.answer);
    }
  }

  ghost function AfterSweep(w: World, order: seq<nat>, raw: Handle -> S.RecvAnswer, told: nat -> bool): World {
    World(DoSweep(w.node, order, Answers(w, raw, told)), AfterAsking(w, raw), w.owner)
  }

  lemma AskedFits(e: Endpoint, r: S.RecvAnswer)
    requires S.Fits(e.sock)
    ensures var t := Asked(e, r).sock;
      S.Fits(t) && (t.isListener ==> e.sock.isListener) && t.bufferSize == e.sock.bufferSize
  {
  }

  /** What a socket took in is what its peer's event tells. */
  lemma AskedIsTold(w: World, raw: Handle -> S.RecvAnswer, told: nat -> bool, id: nat)
    requires Owned(w) && id in w.node.peers
    ensures var h := w.owner[id];
      AfterAsking(w, raw)[h].taken ==
      w.ends[h].taken + DataIn(SweepEvents(id, w.node.peers[id], Answers(w, raw, told)(id)))
  {
    var p, h, r := w.node.peers[id], w.owner[id], Answers(w, raw, told)(id);
    var es := SweepEvents(id, p, r);
    assert IsAsked(w.node, h) <==> !p.toBeDeleted;
    if es != [] {
      assert es == [es[0]] && es[1..] == [];
    }
  }

  lemma OthersAreNotAsked(w: World, id: nat)
    requires Owned(w) && id in w.owner && id !in w.node.peers
    ensures !IsAsked(w.node, w.owner[id])
  {
  }

  lemma AskingCarries(w: World, order: seq<nat>, raw: Handle -> S.RecvAnswer, told: nat -> bool)
    requires Owned(w) && Carried(w) && Enumerates(order, w.node.peers.Keys)
    ensures Carried(AfterSweep(w, order, raw, told))
  {
    var v, recv := AfterSweep(w, order, raw, told), Answers(w, raw, told);
    forall id: nat ensures Heard(v.node.h.log, id) == if id in v.owner then End(v, v.owner[id]).taken else [] {
      SweepVisitsEachOnce(w.node, order, recv, id);
      if id in w.node.peers {
        DataAppend(Of(w.node.h.log, id), SweepEvents(id, w.node.peers[id], recv(id)));
        AskedIsTold(w, raw, told, id);
      } else if id in w.owner {
        OthersAreNotAsked(w, id);
      }
    }
  }

  lemma AskingLeavesFit(w: World, raw: Handle -> S.RecvAnswer)
    requires OneListener(w)
    ensures forall h :: h in w.ends ==>
      var e := AfterAsking(w, raw)[h].sock;
      S.Fits(e) && (e.isListener ==> h == w.node.listener) && e.bufferSize == w.ends[h].sock.bufferSize
  {
    forall h | h in w.ends
      ensures var e := AfterAsking(w, raw)[h].sock;
        S.Fits(e) && (e.isListener ==> h == w.node.listener) && e.bufferSize == w.ends[h].sock.bufferSize
    {
      AskedFits(w.ends[h], raw(h));
    }
  }

  lemma SweepLeavesSockets(s: State, order: seq<nat>, recv: nat -> ReceiveAnswer)
    requires Enumerates(order, s.peers.Keys)
    ensures var t := DoSweep(s, order, recv);
      t.peers.Keys == s.peers.Keys && forall id :: id in s.peers ==> t.peers[id].socket == s.peers[id].socket
  {
    SweepVisitsEachOnce(s, order, recv, 0);
    forall id | id in s.peers ensures DoSweep(s, order, recv).peers[id].socket == s.peers[id].socket {
      SweepVisitsEachOnce(s, order, recv, id);
      PeerLife.SweepPeerKeepsId(s.peers[id], recv(id));
    }
  }

  lemma AskingKeeps(w: World, v: World, order: seq<nat>, raw: Handle -> S.RecvAnswer, told: nat -> bool)
    requires Kept(w) && Enumerates(order, w.node.peers.Keys)
    requires v == AfterSweep(w, order, raw, told)
    ensures Kept(v)
  {
    AskingCarries(w, order, raw, told);
    AskingLeavesFit(w, raw);
    SweepLeavesSockets(w.node, order, Answers(w, raw, told));
  }

  lemma DeletingKeeps(w: World, v: World, order: seq<nat>, told: bool)
    requires Kept(w) && v == World(DoDelete(w.node, order, told), w.ends, w.owner)
    ensures Kept(v)
  {
    assert v.node.h.log == w.node.h.log + v.node.h.log[|w.node.h.log|..];
    CarriedStays(w, v);
  }

  lemma SectionKeeps(w: World, st: Step)
    requires Sound(w) && Can(w, st) && st.Section?
    ensures Kept(Next(w, st))
  {
    SectionInParts(w, st);
    AcceptKeeps(w, st.accept);
    SweptAndDeletedKeeps(AfterAccept(w, st.accept), Next(w, st), st.order, st.raw, st.recvTold, st.endTold);
  }

  lemma SweptAndDeletedKeeps(w: World, v: World, order: seq<nat>, raw: Handle -> S.RecvAnswer, told: nat -> bool, endTold: bool)
    requires Kept(w) && Enumerates(order, w.node.peers.Keys)
    requires var u := AfterSweep(w, order, raw, told); v == World(DoDelete(u.node, order, endTold), u.ends, u.owner)
    ensures Kept(v)
  {
    var u := AfterSweep(w, order, raw, told);
    AskingKeeps(w, u, order, raw, told);
    DeletingKeeps(u, v, order, endTold);
  }

  lemma SectionInParts(w: World, st: Step)
    requires Can(w, st) && st.Section?
    ensures var w1 := AfterAccept(w, st.accept);
      var w2 := AfterSweep(w1, st.order, st.raw, st.recvTold);
      Next(w, st) == World(DoDelete(w2.node, st.order, st.endTold), w2.ends, w2.owner)
    ensures Enumerates(st.order, AfterAccept(w, st.accept).node.peers.Keys)
    ensures Accepting(w, st.accept).Incoming? ==> st.accept.h !in w.node.h.made
  {
  }

  // ---- runs ---------------------------------------------------------------

  lemma StepKeepsSound(w: World, st: Step)
    requires Sound(w) && Can(w, st)
    ensures Sound(Next(w, st))
  {
    var a := ActionOf(w, st);
    SocketLedger.LedgerIsKept(w.node, a);
    PeerLife.IdsKept(w.node, a);
    match st
    case Plain(_) => PlainKeeps(w, st);
    case NewListener(h) => NewListenerKeeps(w, h);
    case Section(_, _, _, _, _) => SectionKeeps(w, st);
    case SendFront(_, _, _) => SendKeeps(w, st);
    case Create(h) => CreateKeeps(w, h);
    case Add(_, _, _) => AddStepKeeps(w, st);
    case Attempt(_, _) => AttemptKeeps(w, st);
    case GiveUp(_) => AttemptKeeps(w, st);
    case _ => ListenerCallKeeps(w, st);
  }

  lemma InitIsSound(w: World)
    requires InitWorld(w)
    ensures Sound(w)
  {
    InitHasInv(w.node);
    forall id: nat ensures Heard(w.node.h.log, id) == [] {
      assert Of(w.node.h.log, id) == [];
    }
  }

  lemma {:induction false} RunKeepsSound(w: World, steps: seq<Step>)
    requires Sound(w) && CanAll(w, steps)
    ensures Sound(AfterAll(w, steps))
    decreases |steps|
  {
    if steps != [] {
      StepKeepsSound(w, steps[0]);
      RunKeepsSound(Next(w, steps[0]), steps[1..]);
    }
  }

  // ---- main results -------------------------------------------------------

  /** receive() never says of a peer's socket that it is a listener, so no pass
      of any run marks a peer for that. */
  lemma NoPeerIsAListener(w: World, st: Step, id: nat)
    requires Sound(w) && Can(w, st) && st.Section?
    ensures var w1 := AfterAccept(w, st.accept);
      id in w1.node.peers ==>
      Outcome(w1.node.peers[id], Answers(w1, st.raw, st.recvTold)(id)) != IsListener
  {
    SectionInParts(w, st);
    AcceptKeeps(w, st.accept);
    AnswerIsNotListener(AfterAccept(w, st.accept), st.raw, st.recvTold, id);
  }

  lemma AnswerIsNotListener(w: World, raw: Handle -> S.RecvAnswer, told: nat -> bool, id: nat)
    requires OneListener(w) && Owned(w)
    ensures id in w.node.peers ==> Outcome(w.node.peers[id], Answers(w, raw, told)(id)) != IsListener
  {
    if id in w.node.peers {
      var h := w.owner[id];
      assert h != w.node.listener && !w.ends[h].sock.isListener;
    }
  }

  // ---- connections --------------------------------------------------------

  /** Sockets of unmarked peers, and the one just connected, are open. */
  ghost predicate Wired(w: World) {
    && (forall id :: id in w.node.peers && !w.node.peers[id].toBeDeleted ==> OpenAt(w, SocketOf(w.node, id)))
    && (w.node.conn.Won? ==> OpenAt(w, Some(w.node.conn.sock)))
  }

  ghost predicate OpenAt(w: World, h: Option<Handle>) {
    h.Some? && h.value in w.ends && S.Open(w.ends[h.value].sock)
  }

  /** Records keep their sockets, marks stay, sockets that were open stay so. */
  lemma WiredStays(w: World, v: World)
    requires Wired(w)
    requires forall id :: id in v.node.peers && !v.node.peers[id].toBeDeleted ==>
      id in w.node.peers && !w.node.peers[id].toBeDeleted && v.node.peers[id].socket == w.node.peers[id].socket
    requires v.node.conn.Won? ==> v.node.conn == w.node.conn
    requires forall h :: h in w.ends && S.Open(w.ends[h].sock) ==> h in v.ends && S.Open(v.ends[h].sock)
    ensures Wired(v)
  {
    forall id | id in v.node.peers && !v.node.peers[id].toBeDeleted ensures OpenAt(v, SocketOf(v.node, id)) {
      assert OpenAt(w, SocketOf(w.node, id));
    }
  }

  /** The records are as they were, or marked. */
  ghost predicate NoNewPeers(s: State, t: State) {
    && (forall id :: id in t.peers && !t.peers[id].toBeDeleted ==>
          id in s.peers && !s.peers[id].toBeDeleted && t.peers[id].socket == s.peers[id].socket)
    && (t.conn.Won? ==> t.conn == s.conn)
  }

  lemma PlainAddsNobody(s: State, a: Action)
    requires Enabled(s, a) && Socketless(a)
    ensures NoNewPeers(s, Apply(s, a))
  {
  }

  lemma ListenerAddsNobody(s: State, a: Action)
    requires Enabled(s, a) && (a.SetListener? || a.OpenListener? || a.CloseListener?)
    ensures NoNewPeers(s, Apply(s, a))
  {
  }

  /** A call on the listener, which is no peer's socket. */
  lemma ListenerStaysWired(w: World, v: World, h: Handle)
    requires Sound(w) && Wired(w) && NoNewPeers(w.node, v.node)
    requires h == w.node.listener && forall x :: x in w.ends && x != h ==> x in v.ends && v.ends[x] == w.ends[x]
    ensures Wired(v)
  {
    SocketLedger.OwnersAreLive(w.node);
    forall id | id in v.node.peers && !v.node.peers[id].toBeDeleted ensures OpenAt(v, SocketOf(v.node, id)) {
      assert OpenAt(w, SocketOf(w.node, id));
      assert w.owner[id] != h;
    }
    if v.node.conn.Won? { assert w.node.conn.sock in SocketLedger.InFlight(w.node.conn); }
  }

  lemma PlainKeepsWired(w: World, st: Step)
    requires Wired(w) && Can(w, st) && st.Plain?
    ensures Wired(Next(w, st))
  {
    PlainAddsNobody(w.node, st.a);
    WiredStays(w, Next(w, st));
  }

  lemma ListenerKeepsWired(w: World, st: Step)
    requires Sound(w) && Wired(w) && Can(w, st)
    requires st.NewListener? || st.SetBufferSize? || st.Listen? || st.StopListening?
    ensures Wired(Next(w, st))
  {
    ListenerAddsNobody(w.node, ActionOf(w, st));
    ListenerStaysWired(w, Next(w, st), w.node.listener);
  }

  lemma CreateKeepsWired(w: World, h: Handle)
    requires OneListener(w) && Wired(w) && Can(w, Create(h))
    ensures Wired(Next(w, Create(h)))
  {
    CreateShape(w.node, h);
    var v := Next(w, Create(h));
    assert v.ends == w.ends[h := UNUSED] && h !in w.ends;
    WiredStays(w, v);
  }

  lemma CreateShape(s: State, h: Handle)
    requires Enabled(s, ConnectCreate(h))
    ensures h !in s.h.made
    ensures var t := Apply(s, ConnectCreate(h)); t.peers == s.peers && t.conn.Created?
  {
  }

  /** A connect that succeeds opens the socket in flight, and only that counts. */
  lemma AttemptKeepsWired(w: World, st: Step)
    requires Sound(w) && Wired(w) && Can(w, st) && st.Attempt?
    ensures Wired(Next(w, st))
  {
    var h := Flying(w);
    assert h in SocketLedger.InFlight(w.node.conn);
    FlyingIsNotOwned(w, h);
    S.ConnectOpens(End(w, h).sock, st.connected);
    AttemptShape(w.node, ActionOf(w, st));
    CycleStaysWired(w, Next(w, st), h);
  }

  lemma AttemptShape(s: State, a: Action)
    requires Enabled(s, a) && a.ConnectAttempt?
    ensures var t := Apply(s, a);
      t.peers == s.peers && (t.conn.Won? <==> a.success) && (t.conn.Won? ==> t.conn.sock == s.conn.sock)
  {
  }

  lemma GiveUpKeepsWired(w: World, st: Step)
    requires Sound(w) && Wired(w) && Can(w, st) && st.GiveUp?
    ensures Wired(Next(w, st))
  {
    var h := Flying(w);
    assert h in SocketLedger.InFlight(w.node.conn);
    FlyingIsNotOwned(w, h);
    LostShape(w.node, ActionOf(w, st));
    CycleStaysWired(w, Next(w, st), h);
  }

  lemma LostShape(s: State, a: Action)
    requires Enabled(s, a) && a.ConnectLost?
    ensures Apply(s, a).peers == s.peers && !Apply(s, a).conn.Won?
  {
  }

  lemma CycleStaysWired(w: World, v: World, h: Handle)
    requires Owned(w) && Wired(w) && v.node.peers == w.node.peers && h !in w.owner.Values
    requires forall x :: x in w.ends && x != h ==> x in v.ends && v.ends[x] == w.ends[x]
    requires v.node.conn.Won? ==> OpenAt(v, Some(v.node.conn.sock))
    ensures Wired(v)
  {
    forall id | id in v.node.peers && !v.node.peers[id].toBeDeleted ensures OpenAt(v, SocketOf(v.node, id)) {
      assert OpenAt(w, SocketOf(w.node, id));
      assert w.owner[id] != h;
    }
  }

  lemma AddKeepsWired(w: World, st: Step)
    requires Sound(w) && Wired(w) && Can(w, st) && st.Add?
    ensures Wired(Next(w, st))
  {
    WonShape(w.node, st.ip, st.port, st.host);
    WonStaysWired(w, Next(w, st));
  }

  lemma WonStaysWired(w: World, v: World)
    requires Wired(w) && w.node.conn.Won? && v.ends == w.ends && !v.node.conn.Won?
    requires v.node.counter in v.node.peers && v.node.peers[v.node.counter].socket == Some(w.node.conn.sock)
    requires v.node.peers == w.node.peers[v.node.counter := v.node.peers[v.node.counter]]
    ensures Wired(v)
  {
    forall id | id in v.node.peers && !v.node.peers[id].toBeDeleted ensures OpenAt(v, SocketOf(v.node, id)) {
      if id != v.node.counter { assert OpenAt(w, SocketOf(w.node, id)); }
    }
  }

  lemma SendAddsNobody(s: State, o: NodeState.SendAnswer)
    requires Enabled(s, SendOne(o))
    ensures NoNewPeers(s, DoSendOne(s, o))
  {
  }

  lemma SendKeepsWired(w: World, st: Step)
    requires Sound(w) && Wired(w) && Can(w, st) && st.SendFront?
    ensures Wired(Next(w, st))
  {
    SendAddsNobody(w.node, ActionOf(w, st).answer);
    SendLeavesOpen(w, st);
    WiredStays(w, Next(w, st));
  }

  lemma SendLeavesOpen(w: World, st: Step)
    requires OneListener(w) && Owned(w) && st.SendFront?
    ensures forall h :: h in w.ends && S.Open(w.ends[h].sock) ==> h in NewEnds(w, st) && S.Open(NewEnds(w, st)[h].sock)
  {
  }

  lemma AcceptKeepsWired(w: World, a: Acceptance)
    requires Sound(w) && Wired(w) && (Accepting(w, a).Incoming? ==> a.h !in w.node.h.made)
    ensures Wired(AfterAccept(w, a))
  {
    ListenerIsAlone(w);
    if Accepting(w, a).Incoming? {
      IncomingShape(w.node, a.h, a.ip, a.port, a.host, a.told);
      S.AcceptOpens(Listener(w), a.answer);
      IncomingStaysWired(w, AfterAccept(w, a), a.h);
    } else {
      AcceptErrorNever(w, a);
      ListenerStaysWired(w, AfterAccept(w, a), w.node.listener);
    }
  }

  lemma IncomingStaysWired(w: World, v: World, h: Handle)
    requires Wired(w) && v.node.conn == w.node.conn && h !in w.ends
    requires h in v.ends && v.ends == w.ends[h := v.ends[h]] && S.Open(v.ends[h].sock)
    requires v.node.counter in v.node.peers && v.node.peers[v.node.counter].socket == Some(h)
    requires v.node.peers == w.node.peers[v.node.counter := v.node.peers[v.node.counter]]
    ensures Wired(v)
  {
    forall id | id in v.node.peers && !v.node.peers[id].toBeDeleted ensures OpenAt(v, SocketOf(v.node, id)) {
      if id != v.node.counter { assert OpenAt(w, SocketOf(w.node, id)); }
    }
  }

  /** A pass leaves a peer unmarked only if its socket is still open. */
  lemma AskingKeepsWired(w: World, order: seq<nat>, raw: Handle -> S.RecvAnswer, told: nat -> bool)
    requires Kept(w) && Wired(w) && Enumerates(order, w.node.peers.Keys)
    requires w.node.conn.Won? ==> w.node.conn.sock !in w.owner.Values
    ensures Wired(AfterSweep(w, order, raw, told))
  {
    var v := AfterSweep(w, order, raw, told);
    SweepLeavesSockets(w.node, order, Answers(w, raw, told));
    forall id | id in v.node.peers && !v.node.peers[id].toBeDeleted ensures OpenAt(v, SocketOf(v.node, id)) {
      SweepVisitsEachOnce(w.node, order, Answers(w, raw, told), id);
      UnmarkedStaysOpen(w, raw, told, id);
    }
    if v.node.conn.Won? {
      assert !IsAsked(w.node, w.node.conn.sock);
    }
  }

  lemma UnmarkedStaysOpen(w: World, raw: Handle -> S.RecvAnswer, told: nat -> bool, id: nat)
    requires Kept(w) && Wired(w) && id in w.node.peers
    requires !SweepPeer(w.node.peers[id], Answers(w, raw, told)(id)).toBeDeleted
    ensures w.owner[id] in w.ends && S.Open(AfterAsking(w, raw)[w.owner[id]].sock)
  {
    var h := w.owner[id];
    assert OpenAt(w, SocketOf(w.node, id));
    assert SocketOf(w.node, id) == Some(h);
    UnmarkedOutcome(w.node.peers[id], Answers(w, raw, told)(id));
    OpenSurvives(w.ends[h], raw(h));
  }

  lemma UnmarkedOutcome(p: PeerData, r: ReceiveAnswer)
    requires !SweepPeer(p, r).toBeDeleted
    ensures !p.toBeDeleted && (r.connected ==> r.result.OK? || r.result.NothingReceived?)
  {
  }

  lemma OpenSurvives(e: Endpoint, r: S.RecvAnswer)
    requires S.Open(e.sock)
    requires var res := S.ReceiveOutcome(e.sock, r).0; res.OK? || res.NothingReceived?
    ensures S.Open(Asked(e, r).sock)
  {
    S.OpenReceives(e.sock, r);
  }

  lemma DeletingKeepsWired(w: World, order: seq<nat>, told: bool)
    requires Wired(w)
    ensures Wired(World(DoDelete(w.node, order, told), w.ends, w.owner))
  {
    WiredStays(w, World(DoDelete(w.node, order, told), w.ends, w.owner));
  }

  lemma SectionKeepsWired(w: World, st: Step)
    requires Sound(w) && Wired(w) && Can(w, st) && st.Section?
    ensures Wired(Next(w, st))
  {
    SectionInParts(w, st);
    AcceptKeeps(w, st.accept);
    AcceptKeepsWired(w, st.accept);
    var w1 := AfterAccept(w, st.accept);
    AcceptLeavesConn(w.node, Accepting(w, st.accept));
    if w1.node.conn.Won? {
      assert w1.node.conn.sock in SocketLedger.InFlight(w1.node.conn);
      FlyingIsNotOwned(w1, w1.node.conn.sock);
    }
    AskingKeepsWired(w1, st.order, st.raw, st.recvTold);
    DeletingKeepsWired(AfterSweep(w1, st.order, st.raw, st.recvTold), st.order, st.endTold);
  }

  lemma AcceptLeavesConn(s: State, a: NodeState.AcceptAnswer)
    ensures DoAccept(s, a).conn == s.conn
  {
  }

  lemma StepKeepsWired(w: World, st: Step)
    requires Sound(w) && Wired(w) && Can(w, st)
    ensures Wired(Next(w, st))
  {
    match st
    case Plain(_) => PlainKeepsWired(w, st);
    case Section(_, _, _, _, _) => SectionKeepsWired(w, st);
    case SendFront(_, _, _) => SendKeepsWired(w, st);
    case Create(h) => CreateKeepsWired(w, h);
    case Add(_, _, _) => AddKeepsWired(w, st);
    case Attempt(_, _) => AttemptKeepsWired(w, st);
    case GiveUp(_) => GiveUpKeepsWired(w, st);
    case _ => ListenerKeepsWired(w, st);
  }

  lemma {:induction false} RunKeepsWired(w: World, steps: seq<Step>)
    requires Sound(w) && Wired(w) && CanAll(w, steps)
    ensures Sound(AfterAll(w, steps)) && Wired(AfterAll(w, steps))
    decreases |steps|
  {
    if steps != [] {
      StepKeepsSound(w, steps[0]);
      StepKeepsWired(w, steps[0]);
      RunKeepsWired(Next(w, steps[0]), steps[1..]);
    }
  }

  /** In every run: the socket of every unmarked peer, and one with which connect has
      just succeeded, is open. */
  lemma PeersAreConnected(w: World, steps: seq<Step>)
    requires InitWorld(w) && CanAll(w, steps)
    ensures Sound(AfterAll(w, steps)) && Wired(AfterAll(w, steps))
  {
    InitIsSound(w);
    RunKeepsWired(w, steps);
  }

  /** How an unmarked peer comes out of a pass, by what recv() said: the other side
      closed, nothing to do, data, or a failure, whose message has the number and
      never the text.  Nobody is ever marked for not being connected. */
  lemma KernelDecidesTheMark(w: World, raw: Handle -> S.RecvAnswer, told: nat -> bool, id: nat)
    requires OneListener(w) && Owned(w) && Wired(w) && id in w.node.peers && !w.node.peers[id].toBeDeleted
    ensures var p, r := w.node.peers[id], raw(w.owner[id]);
      var q := SweepPeer(p, Answers(w, raw, told)(id));
      && (q.toBeDeleted <==> r.EndOfStream? || r.Failure?)
      && (r.EndOfStream? ==> q == p.(toBeDeleted := true, disconn := DisconnectedThemself))
      && (r.Failure? ==> q == p.(toBeDeleted := true, disconn := DisconnectedDueToError, errmsg := ReceiveFailure(r.errno)))
      && (r.Failure? ==> !AfterAsking(w, raw)[w.owner[id]].sock.isConnected)
      && (r.Data? ==> SweepEvents(id, p, Answers(w, raw, told)(id)) == [Received(id, r.bytes, told(id))])
      && Outcome(p, Answers(w, raw, told)(id)) != NoConnection
  {
    var h := w.owner[id];
    assert OpenAt(w, SocketOf(w.node, id));
    assert IsAsked(w.node, h);
    S.OpenReceives(w.ends[h].sock, raw(h));
    var m := "Failed to receive." + "\nError number " + Decimal(S.DoReceive(w.ends[h].sock, raw(h)).lastErrno) + " :";
    assert m + "" == m;
  }

  /** What the node hears of a send to an unmarked peer is what the kernel took. */
  lemma KernelDecidesTheSend(w: World, a: S.SendAnswer, sentTold: bool, errTold: bool)
    requires OneListener(w) && Owned(w) && Wired(w) && w.node.outbox != []
    requires var id := w.node.outbox[0].id; id in w.node.peers && !w.node.peers[id].toBeDeleted
    ensures Sending(w, a, sentTold, errTold).taken == (if a.taken >= 0 then a.taken else 0)
    ensures Sending(w, a, sentTold, errTold).sentTold == sentTold && Sending(w, a, sentTold, errTold).errTold == errTold
  {
    var id := w.node.outbox[0].id;
    assert OpenAt(w, SocketOf(w.node, id));
    S.OpenSends(w.ends[w.owner[id]].sock, a);
  }

  function ReceiveFailure(errno: int): Message {
    Message("Receive Error", if errno == 0 then "Failed to receive."
                             else "Failed to receive." + "\nError number " + Decimal(errno) + " :")
  }

  /** A run with default sockets is a run of the node, and in it the bytes told
      of a connection are all its socket ever took in, in that order. */
  lemma EveryDefaultRun(w: World, steps: seq<Step>)
    requires InitWorld(w) && CanAll(w, steps)
    ensures ValidRun(w.node, Actions(w, steps))
    ensures var v := AfterAll(w, steps);
      && v.node == After(w.node, Actions(w, steps)) && Inv(v.node) && Sound(v)
      && forall id :: id in v.owner ==> Heard(v.node.h.log, id) == v.ends[v.owner[id]].taken
  {
    RunsAreRuns(w, steps);
    EveryRun(w.node, Actions(w, steps));
    InitIsSound(w);
    RunKeepsSound(w, steps);
  }

  /** The kernel hands out each socket's stream in order, in non-empty pieces of
      its choice that the buffer holds (section 2.2 of RFC 9293). */
  ghost predicate NextPieces(w: World, raw: Handle -> S.RecvAnswer, stream: Handle -> Bytes) {
    forall h :: h in w.ends && w.ends[h].sock.isConnected && raw(h).Data? ==>
      var pos, bytes := |w.ends[h].taken|, raw(h).bytes;
      && 1 <= |bytes| <= w.ends[h].sock.bufferSize
      && pos + |bytes| <= |stream(h)| && bytes == stream(h)[pos..pos + |bytes|]
  }

  ghost predicate KernelGives(w: World, st: Step, stream: Handle -> Bytes) {
    st.Section? ==> NextPieces(AfterAccept(w, st.accept), st.raw, stream)
  }

  ghost predicate KernelGivesAll(w: World, steps: seq<Step>, stream: Handle -> Bytes)
    requires CanAll(w, steps)
    decreases |steps|
  {
    steps == [] || (KernelGives(w, steps[0], stream) && KernelGivesAll(Next(w, steps[0]), steps[1..], stream))
  }

  ghost predicate InStream(w: World, stream: Handle -> Bytes) {
    forall h :: h in w.ends ==> w.ends[h].taken <= stream(h)
  }

  ghost predicate InChunks(log: seq<Event>, size: nat) {
    forall id: nat, e :: e in Of(log, id) && e.Received? ==> 1 <= |e.data| <= size
  }

  lemma OnlyPassesRead(w: World, st: Step, h: Handle)
    requires !st.Section? && h in NewEnds(w, st)
    ensures NewEnds(w, st)[h].taken == [] || NewEnds(w, st)[h].taken == End(w, h).taken
  {
  }

  lemma AcceptedTookNothing(w: World, a: Acceptance, h: Handle)
    requires h in AfterAccept(w, a).ends
    ensures AfterAccept(w, a).ends[h].taken == [] || AfterAccept(w, a).ends[h].taken == End(w, h).taken
  {
  }

  lemma AskedStaysInStream(e: Endpoint, r: S.RecvAnswer, stream: Bytes)
    requires e.taken <= stream
    requires e.sock.isConnected && r.Data? ==>
      && |e.taken| + |r.bytes| <= |stream| && r.bytes == stream[|e.taken|..|e.taken| + |r.bytes|]
    ensures Asked(e, r).taken <= stream
  {
  }

  lemma StepStaysInStream(w: World, st: Step, stream: Handle -> Bytes)
    requires InStream(w, stream) && KernelGives(w, st, stream)
    ensures forall h :: h in NewEnds(w, st) ==> NewEnds(w, st)[h].taken <= stream(h)
  {
    forall h | h in NewEnds(w, st) ensures NewEnds(w, st)[h].taken <= stream(h) {
      if !st.Section? {
        OnlyPassesRead(w, st, h);
      } else {
        var w1 := AfterAccept(w, st.accept);
        AcceptedTookNothing(w, st.accept, h);
        AskedStaysInStream(w1.ends[h], st.raw(h), stream(h));
      }
    }
  }

  lemma {:induction false} OfMembers(es: seq<Event>, id: nat)
    ensures forall e :: e in Of(es, id) ==> e in es
  {
    if es != [] {
      OfMembers(es[1..], id);
      assert es == [es[0]] + es[1..];
    }
  }

  lemma SilentStaysInChunks(s: State, t: State)
    requires Silent(s, t) && InChunks(s.h.log, 1024)
    ensures InChunks(t.h.log, 1024)
  {
    var es := t.h.log[|s.h.log|..];
    assert t.h.log == s.h.log + es;
    forall id: nat, e | e in Of(t.h.log, id) && e.Received? ensures 1 <= |e.data| <= 1024 {
      OfAppend(s.h.log, es, id);
      OfMembers(es, id);
    }
  }

  lemma OtherStepsAreSilent(w: World, st: Step)
    requires Can(w, st) && !st.Section?
    ensures Silent(w.node, Next(w, st).node)
  {
    match st
    case Plain(a) => PlainIsQuiet(w.node, a);
    case SendFront(_, _, _) => SendIsUnmoved(w.node, ActionOf(w, st).answer);
    case Add(ip, port, host) => WonShape(w.node, ip, port, host);
    case Create(_) =>
    case NewListener(_) =>
    case _ => CallIsUnmoved(w.node, ActionOf(w, st));
  }

  lemma AskingStaysInChunks(w: World, order: seq<nat>, raw: Handle -> S.RecvAnswer, told: nat -> bool, stream: Handle -> Bytes)
    requires Owned(w) && Enumerates(order, w.node.peers.Keys)
    requires NextPieces(w, raw, stream) && InChunks(w.node.h.log, 1024)
    ensures InChunks(AfterSweep(w, order, raw, told).node.h.log, 1024)
  {
    var v := AfterSweep(w, order, raw, told);
    forall id: nat, e | e in Of(v.node.h.log, id) && e.Received? ensures 1 <= |e.data| <= 1024 {
      SweepVisitsEachOnce(w.node, order, Answers(w, raw, told), id);
      if e !in Of(w.node.h.log, id) {
        PieceFits(w, raw, told, stream, id, e);
      }
    }
  }

  lemma PieceFits(w: World, raw: Handle -> S.RecvAnswer, told: nat -> bool, stream: Handle -> Bytes, id: nat, e: Event)
    requires Owned(w) && NextPieces(w, raw, stream) && id in w.node.peers
    requires e in SweepEvents(id, w.node.peers[id], Answers(w, raw, told)(id)) && e.Received?
    ensures 1 <= |e.data| <= 1024
  {
    assert w.ends[w.owner[id]].sock.bufferSize == 1024;
  }

  lemma SectionStaysInChunks(w: World, st: Step, stream: Handle -> Bytes)
    requires Sound(w) && Can(w, st) && st.Section? && KernelGives(w, st, stream) && InChunks(w.node.h.log, 1024)
    ensures InChunks(Next(w, st).node.h.log, 1024)
  {
    SectionInParts(w, st);
    AcceptKeeps(w, st.accept);
    var w1 := AfterAccept(w, st.accept);
    var s2 := AfterSweep(w1, st.order, st.raw, st.recvTold).node;
    AcceptIsSilent(w.node, Accepting(w, st.accept));
    SilentStaysInChunks(w.node, w1.node);
    AskingStaysInChunks(w1, st.order, st.raw, st.recvTold, stream);
    DeleteIsSilent(s2, st.order, st.endTold);
    SilentStaysInChunks(s2, Next(w, st).node);
  }

  lemma AcceptIsSilent(s: State, a: NodeState.AcceptAnswer)
    ensures Silent(s, DoAccept(s, a))
  {
    var t := DoAccept(s, a);
    assert t.h.log == s.h.log + t.h.log[|s.h.log|..];
  }

  lemma DeleteIsSilent(s: State, order: seq<nat>, told: bool)
    ensures Silent(s, DoDelete(s, order, told))
  {
    var t := DoDelete(s, order, told);
    assert t.h.log == s.h.log + t.h.log[|s.h.log|..];
  }

  lemma {:induction false} RunStaysInStream(w: World, steps: seq<Step>, stream: Handle -> Bytes)
    requires Sound(w) && CanAll(w, steps) && KernelGivesAll(w, steps, stream)
    requires InStream(w, stream) && InChunks(w.node.h.log, 1024)
    ensures InStream(AfterAll(w, steps), stream) && InChunks(AfterAll(w, steps).node.h.log, 1024)
    decreases |steps|
  {
    if steps != [] {
      var st := steps[0];
      StepKeepsSound(w, st);
      StepStaysInStream(w, st, stream);
      if st.Section? {
        SectionStaysInChunks(w, st, stream);
      } else {
        OtherStepsAreSilent(w, st);
        SilentStaysInChunks(w.node, Next(w, st).node);
      }
      RunStaysInStream(Next(w, st), steps[1..], stream);
    }
  }

  /** Whatever the splits, what a connection's Received events carry is non-empty,
      at most 1024 bytes whatever setReceiveBufferSize was told, and adds up to
      a prefix of the stream its peer sent. */
  lemma StreamsArriveUnchanged(w: World, steps: seq<Step>, stream: Handle -> Bytes)
    requires InitWorld(w) && CanAll(w, steps) && KernelGivesAll(w, steps, stream)
    ensures var v := AfterAll(w, steps);
      && (forall id :: id in v.owner ==> Heard(v.node.h.log, id) <= stream(v.owner[id]))
      && InChunks(v.node.h.log, 1024)
  {
    EveryDefaultRun(w, steps);
    InitIsSound(w);
    assert forall id: nat :: Of(w.node.h.log, id) == [];
    RunStaysInStream(w, steps, stream);
  }
}
