/** Who owns each socket, over all runs: the map, the connect thread, the
    listener slot, or nobody because it was freed. */
module SocketLedger {
  import opened Common
  import opened PeerPrivate
  import opened NodeState
  import opened ReceiveSweep
  import opened PeerLife

  ghost function Sockets(peers: map<nat, PeerData>): set<Handle> {
    set id | id in peers && peers[id].socket.Some? :: peers[id].socket.value
  }

  /** The socket the connect thread holds and no one else knows. */
  function InFlight(c: ConnectStep): set<Handle> {
    match c
    case Created(_, _, sock) => {sock}
    case Trying(_, _, sock, _) => {sock}
    case Lost(_, _, sock, _) => {sock}
    case Won(_, _, sock, _) => {sock}
    case _ => {}
  }

  ghost function Freed(s: State): set<Handle> {
    set x | x in s.h.freed
  }

  ghost predicate OwnSockets(peers: map<nat, PeerData>) {
    && (forall id :: id in peers ==> peers[id].socket.Some?)
    && (forall i, j :: i in peers && j in peers && i != j ==> peers[i].socket != peers[j].socket)
  }

  ghost predicate Ledger(s: State) {
    && OwnSockets(s.peers)
    && s.h.made == Sockets(s.peers) + InFlight(s.conn) + Freed(s) + {s.listener}
    && Sockets(s.peers) !! InFlight(s.conn)
    && Sockets(s.peers) !! Freed(s)
    && InFlight(s.conn) !! Freed(s)
    && s.listener !in Sockets(s.peers) + InFlight(s.conn) + Freed(s)
    && NoRepeats(s.h.freed)
  }

  lemma SameSockets(peers: map<nat, PeerData>, peers': map<nat, PeerData>)
    requires OwnSockets(peers) && peers.Keys == peers'.Keys
    requires forall id :: id in peers ==> peers[id].socket == peers'[id].socket
    ensures OwnSockets(peers') && Sockets(peers') == Sockets(peers)
  {
  }

  lemma InsertSocket(peers: map<nat, PeerData>, id: nat, p: PeerData)
    requires OwnSockets(peers) && id !in peers && p.socket.Some? && p.socket.value !in Sockets(peers)
    ensures OwnSockets(peers[id := p]) && Sockets(peers[id := p]) == Sockets(peers) + {p.socket.value}
  {
    var peers' := peers[id := p];
    forall x | x in Sockets(peers) + {p.socket.value} ensures x in Sockets(peers') {
      if x in Sockets(peers) {
        var k :| k in peers && peers[k].socket.Some? && peers[k].socket.value == x;
        assert peers'[k] == peers[k];
      } else {
        assert peers'[id] == p;
      }
    }
  }

  lemma EraseSocket(peers: map<nat, PeerData>, id: nat)
    requires OwnSockets(peers) && id in peers
    ensures OwnSockets(peers - {id}) && Sockets(peers - {id}) == Sockets(peers) - {peers[id].socket.value}
  {
    var peers' := peers - {id};
    forall x | x in Sockets(peers) - {peers[id].socket.value} ensures x in Sockets(peers') {
      var k :| k in peers && peers[k].socket.Some? && peers[k].socket.value == x;
      assert peers'[k] == peers[k];
    }
  }

  /** A step that leaves the sockets where they are. */
  lemma SocketsStay(s: State, t: State)
    requires Ledger(s)
    requires s.peers.Keys == t.peers.Keys && forall id :: id in s.peers ==> s.peers[id].socket == t.peers[id].socket
    requires t.listener == s.listener && InFlight(t.conn) == InFlight(s.conn)
    requires t.h.made == s.h.made && t.h.freed == s.h.freed
    ensures Ledger(t)
  {
    SameSockets(s.peers, t.peers);
  }

  /** A new socket goes straight into the map (accept), or from the connect
      thread into the map. */
  lemma SocketGoesIn(s: State, t: State, id: nat, p: PeerData)
    requires Ledger(s) && id !in s.peers && p.socket.Some?
    requires t.peers == s.peers[id := p] && t.listener == s.listener && t.h.freed == s.h.freed
    requires
      || (p.socket.value !in s.h.made && t.h.made == s.h.made + {p.socket.value} && InFlight(t.conn) == InFlight(s.conn))
      || (InFlight(s.conn) == {p.socket.value} && t.h.made == s.h.made && InFlight(t.conn) == {})
    ensures Ledger(t)
  {
    InsertSocket(s.peers, id, p);
  }

  lemma FreeOne(freed: seq<Handle>, sock: Handle)
    requires NoRepeats(freed) && sock !in freed
    ensures NoRepeats(freed + [sock])
    ensures (set x | x in freed + [sock]) == (set x | x in freed) + {sock}
  {
  }

  lemma EraseKeepsLedger(s: State, id: nat, told: bool)
    requires Ledger(s) && id in s.peers
    ensures Ledger(Erased(s, id, told))
  {
    var sock := s.peers[id].socket.value;
    assert sock in Sockets(s.peers);
    EraseSocket(s.peers, id);
    FreeOne(s.h.freed, sock);
  }

  lemma AcceptKeepsLedger(s: State, acc: AcceptAnswer)
    requires IdsFit(s) && Ledger(s) && (acc.Incoming? ==> acc.sock !in s.h.made)
    ensures Ledger(DoAccept(s, acc))
  {
    if acc.Incoming? {
      IncomingKeepsLedger(s, acc);
    } else {
      SocketsStay(s, DoAccept(s, acc));
    }
  }

  lemma IncomingKeepsLedger(s: State, acc: AcceptAnswer)
    requires IdsFit(s) && Ledger(s) && acc.Incoming? && acc.sock !in s.h.made
    ensures Ledger(DoAccept(s, acc))
  {
    var id := s.counter + 1;
    InsertKeepsIds(s, acc.sock, acc.ip, acc.port, acc.host);
    SocketGoesIn(s, DoAccept(s, acc), id, NewPeer(id, acc.ip, acc.port, acc.host, acc.sock));
  }

  lemma SectionKeepsLedger(s: State, order: seq<nat>, acc: AcceptAnswer, recv: nat -> ReceiveAnswer, told: bool)
    requires IdsFit(s) && Ledger(s) && Enabled(s, ListenSection(order, acc, recv, told))
    ensures Ledger(DoAccept(s, acc))
    ensures Ledger(DoSweep(DoAccept(s, acc), order, recv))
    ensures Ledger(DoListenSection(s, order, acc, recv, told))
  {
    AcceptKeepsLedger(s, acc);
    var s1 := DoAccept(s, acc);
    var s2 := DoSweep(s1, order, recv);
    SweepVisitsEachOnce(s1, order, recv, 0);
    forall id | id in s1.peers ensures s2.peers[id].socket == s1.peers[id].socket {
      SweepVisitsEachOnce(s1, order, recv, id);
      SweepPeerKeepsId(s1.peers[id], recv(id));
    }
    SocketsStay(s1, s2);
    var m := FirstMarked(s2.peers, order);
    if m.Some? && m.value in s2.peers {
      EraseKeepsLedger(s2, m.value, told);
    }
  }

  lemma ReplaceKeepsLedger(s: State, sock: Handle)
    requires Ledger(s) && sock !in s.h.made
    ensures Ledger(DoSetListener(s, Some(sock)))
  {
    FreeOne(s.h.freed, s.listener);
  }

  /** setListener keeps the books exactly if it is given a socket the node never
      had: not the listener, not a peer's, not one in flight, not a freed one. */
  lemma ReplaceKeepsLedgerIff(s: State, sock: Handle)
    requires Ledger(s)
    ensures Ledger(DoSetListener(s, Some(sock))) <==> sock !in s.h.made
  {
    if sock !in s.h.made {
      ReplaceKeepsLedger(s, sock);
    } else {
      var t := DoSetListener(s, Some(sock));
      assert t.h.freed[|s.h.freed|] == s.listener;
      assert s.listener in Freed(t);
      forall x | x in Freed(s) ensures x in Freed(t) {
        var i :| 0 <= i < |s.h.freed| && s.h.freed[i] == x;
        assert t.h.freed[i] == x;
      }
      assert t.listener in Sockets(t.peers) + InFlight(t.conn) + Freed(t);
    }
  }

  /** Given the listener it already has, the node keeps a freed socket as its
      listener, and frees it again when it gets another. */
  lemma SameListenerIsFreedTwice(s: State, other: Handle)
    requires Ledger(s)
    ensures var t := DoSetListener(s, Some(s.listener));
      t.listener !in Live(t) && !NoRepeats(DoSetListener(t, Some(other)).h.freed)
  {
    var n, t := |s.h.freed|, DoSetListener(s, Some(s.listener));
    var u := DoSetListener(t, Some(other));
    assert t.h.freed[n] == s.listener;
    assert u.h.freed[n] == s.listener && u.h.freed[n + 1] == s.listener;
  }

  lemma CreateKeepsLedger(s: State, sock: Handle)
    requires Ledger(s) && Enabled(s, ConnectCreate(sock))
    ensures Ledger(Apply(s, ConnectCreate(sock)))
  {
  }

  lemma LostKeepsLedger(s: State, probe: ErrnoProbe, told: bool)
    requires Ledger(s) && s.conn.Lost?
    ensures Ledger(DoConnectLost(s, probe, told))
  {
    FreeOne(s.h.freed, s.conn.sock);
  }

  lemma WonKeepsLedger(s: State, ip: string, port: nat, host: string)
    requires IdsFit(s) && Ledger(s) && s.conn.Won?
    ensures Ledger(DoConnectWon(s, ip, port, host))
  {
    InsertKeepsIds(s, s.conn.sock, ip, port, host);
    var id := s.counter + 1;
    SocketGoesIn(s, DoConnectWon(s, ip, port, host), id, NewPeer(id, ip, port, host, s.conn.sock));
  }

  lemma SendKeepsLedger(s: State, o: SendAnswer)
    requires Ledger(s) && Enabled(s, SendOne(o))
    ensures Ledger(DoSendOne(s, o))
  {
    SocketsStay(s, DoSendOne(s, o));
  }

  lemma LedgerIsKept(s: State, a: Action)
    requires IdsFit(s) && Ledger(s) && Enabled(s, a)
    ensures Ledger(Apply(s, a))
  {
    match a
    case ListenSection(order, acc, recv, told) => SectionKeepsLedger(s, order, acc, recv, told);
    case SetListener(sock) =>
      if sock.Some? { ReplaceKeepsLedger(s, sock.value); }
    case ConnectCreate(sock) => CreateKeepsLedger(s, sock);
    case ConnectLost(probe, told) => LostKeepsLedger(s, probe, told);
    case ConnectWon(ip, port, host) => WonKeepsLedger(s, ip, port, host);
    case SendOne(o) => SendKeepsLedger(s, o);
    case _ =>
      if FromOutside(a) { OutsideKeepsLedger(s, a); } else { CyclesKeepLedger(s, a); }
  }

  lemma OutsideKeepsLedger(s: State, a: Action)
    requires Ledger(s) && Enabled(s, a) && FromOutside(a) && !a.SetListener?
    ensures Ledger(Apply(s, a))
  {
    SocketsStay(s, Apply(s, a));
  }

  lemma CyclesKeepLedger(s: State, a: Action)
    requires Ledger(s) && Enabled(s, a) && (StartsCycle(a) || EndsCycle(a))
    requires !a.ConnectCreate? && !a.ConnectLost? && !a.ConnectWon?
    ensures Ledger(Apply(s, a))
  {
    SocketsStay(s, Apply(s, a));
  }

  /** Every use of a record's socket, checked or not, hits a live socket. */
  lemma UsesAreLive(s: State, id: nat)
    requires Ledger(s) && id in s.peers
    ensures s.peers[id].socket.Some? && s.peers[id].socket.value in Live(s)
  {
    assert s.peers[id].socket.value in Sockets(s.peers);
  }

  /** The connect thread's socket and the listener are live too. */
  lemma OwnersAreLive(s: State)
    requires Ledger(s)
    ensures InFlight(s.conn) <= Live(s) && s.listener in Live(s)
    ensures Live(s) == Sockets(s.peers) + InFlight(s.conn) + {s.listener}
  {
  }

  /** The tail of the destructor, after the threads were joined: the listener is
      freed, for the first time, and what is never freed are the sockets of the
      peers still in the map. */
  lemma DestructorLeavesPeerSockets(s: State, order: seq<nat>)
    requires Ledger(s) && s.conn.AtTop?
    ensures var t := Destructed(s, order);
      && NoRepeats(t.h.freed) && Live(t) == Sockets(t.peers) && t.peers.Keys == s.peers.Keys
      && forall id :: id in t.peers ==> t.peers[id].toBeDeleted
  {
    FreeOne(s.h.freed, s.listener);
    SameSockets(s.peers, Destructed(s, order).peers);
  }
}
