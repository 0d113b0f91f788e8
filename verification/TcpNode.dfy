/**
 The node as an object.  Each critical section on the data mutex is a method
 that takes the node from one state of the machine in NodeState to the one the
 function of the same step gives; so every interleaving of these methods is a
 run of that machine.
 */
module TcpNode {
  import opened Common
  import opened PeerPrivate
  import opened NodeState
  import opened ReceiveSweep
  import NodeRuns
  import PeerLife
  import PeerStories
  import SocketLedger
  import ListenerFlags

  /** The connection counter all nodes of a process share. */
  class ConnectionCounter {
    var value: nat

    constructor ()
      ensures value == 0
    {
      value := 0;
    }
  }

  class TcpNodePrivate {
    const counter: ConnectionCounter

    var peers: map<nat, Peer>
    var dataToSend: seq<OutBuffer>
    var potentialPeers: seq<Address>
    var listener: Handle

    var portnumber: nat
    var ipVersion: IpVersion
    var connectThreadRunning: bool
    var sendThreadRunning: bool
    var listenThreadRunning: bool
    var listeningEnabled: bool
    var listenerAvailable: bool
    var wakeupListenThread: bool
    var changingListener: bool
    ghost var listenerListens: bool    // what the listener answers to isListening()

    var worker: ConnectStep            // local variables of the connect thread
    ghost var h: History

    ghost function Records(): map<nat, PeerData>
      reads `peers, peers.Values
    {
      map id | id in peers :: peers[id].View()
    }

    ghost function View(): State
      reads `peers, `dataToSend, `potentialPeers, `listener, `worker, `h, peers.Values, counter
    {
      State(Records(), dataToSend, potentialPeers, listener, counter.value, worker, h)
    }

    ghost function Flags(): ListenerFlags.Flags
      reads `listeningEnabled, `listenerAvailable, `changingListener, `wakeupListenThread, `listenerListens
    {
      ListenerFlags.Flags(listeningEnabled, listenerAvailable, changingListener, wakeupListenThread, listenerListens)
    }

    /** No two entries of the map are the same record.  What else holds of the
        state in every run is NodeRuns.Inv(View()): every method below is one
        step of the state machine, and NodeRuns.StepKeepsInv keeps it. */
    ghost predicate Valid()
      reads `peers
    {
      forall i, j :: i in peers && j in peers && i != j ==> peers[i] != peers[j]
    }

    constructor (counter: ConnectionCounter, sock: Handle, ipv: IpVersion, ghost used: set<nat>)
      requires forall id :: id in used ==> 1 <= id <= counter.value
      ensures Valid() && Init(View()) && NodeRuns.Inv(View()) && View().h.used == used && listener == sock
      ensures ListenerFlags.Settled(Flags()) && !listeningEnabled
    {
      this.counter := counter;
      peers, dataToSend, potentialPeers, listener := map[], [], [], sock;
      portnumber, ipVersion := 0, ipv;
      connectThreadRunning, sendThreadRunning, listenThreadRunning := false, false, false;
      listeningEnabled, listenerAvailable, wakeupListenThread, changingListener := false, false, false, false;
      listenerListens := false;
      worker := AtTop;
      h := History({sock}, [], [], [], used, [], [], map[], [], 0, [], [], []);
      new;
      NodeRuns.InitHasInv(View());
    }

    /** _peerExists */
    predicate PeerIsThere(id: nat)
      reads this, peers.Values
    {
      id in peers && peers[id].valid
    }

    ghost method Log(es: seq<Event>)
      modifies `h
      ensures h == old(h).(log := old(h).log + es)
    {
      h := h.(log := h.log + es);
    }

    // ---- the user's calls -------------------------------------------------

    method DoListen(port: nat, ipv: IpVersion)
      modifies `portnumber, `listeningEnabled, `changingListener, `ipVersion, `wakeupListenThread, `listenThreadRunning
      ensures portnumber == port && ipVersion == ipv && listenThreadRunning
      ensures Flags() == old(Flags()).(enabled := true, wakeup := true, changing := old(changingListener) || listenerAvailable)
    {
      portnumber := port;
      listeningEnabled := true;
      if listenerAvailable {
        changingListener := true;
      }
      ipVersion := ipv;
      wakeupListenThread := true;
      listenThreadRunning := true;
    }

    method StopListening()
      modifies `listeningEnabled, `wakeupListenThread
      ensures Flags() == if listenThreadRunning then old(Flags()).(enabled := false, wakeup := true) else old(Flags())
    {
      if listenThreadRunning {
        listeningEnabled := false;
        wakeupListenThread := true;
      }
    }

    /** Lines 838 to 849; `listens` is what the given socket says of itself. */
    method SetListener(sock: Option<Handle>, listens: bool)
      requires Valid()
      modifies `h, `listener, `listenerListens, `changingListener
      ensures Valid() && View() == DoSetListener(old(View()), sock)
      ensures Flags() == if sock.None? then old(Flags()) else
        old(Flags()).(listening := listens, changing := old(changingListener) || old(listeningEnabled))
    {
      if sock.Some? {
        h := h.(made := h.made + {sock.value}, freed := h.freed + [listener]);
        listener := sock.value;
        listenerListens := listens;
        if listeningEnabled {
          changingListener := true;
        }
      }
    }

    method ConnectTo(ip: string, port: nat)
      requires Valid()
      modifies `connectThreadRunning, `listenThreadRunning, `potentialPeers, `h
      ensures Valid() && View() == DoConnectTo(old(View()), Address(ip, port))
      ensures connectThreadRunning && listenThreadRunning
    {
      ghost var s := View();
      if !connectThreadRunning {
        connectThreadRunning := true;
      }
      potentialPeers := potentialPeers + [Address(ip, port)];
      h := h.(arrived := h.arrived + [Address(ip, port)]);
      listenThreadRunning := true;
    }

    method SendData(pr: Peer, data: Bytes, told: bool)
      requires Valid()
      modifies `sendThreadRunning, `dataToSend, `h
      ensures Valid() && View() == DoSendData(old(View()), old(pr.View()), data, told)
    {
      ghost var s := View();
      ghost var to := pr.View();
      if PeerIsThere(pr.connectionId) {
        if !sendThreadRunning {
          sendThreadRunning := true;
        }
        dataToSend := dataToSend + [OutBuffer(pr.connectionId, data)];
        h := h.(accepted := h.accepted + [OutBuffer(to.id, data)]);
      } else if told {
        var msg := ErrorMessage("Send Error",
          "Cannot send. Not connected to" + pr.ipAddress + ":" + Decimal(pr.portNumber) + ".", None);
        Log([SendFailed(msg)]);
      }
    }

    /** Marks one record for deletion. */
    method Schedule(id: nat, why: DisconnectType)
      requires Valid() && id in peers
      modifies `h, peers[id]
      ensures Records() == old(Records())[id := Scheduled(old(Records())[id], why)]
      ensures h == old(h).(log := old(h).log + [Marked(id, why)])
    {
      peers[id].ScheduleDelete(why);
      Log([Marked(id, why)]);
    }

    method DisconnectPeer(id: nat)
      requires Valid()
      modifies `h, peers.Values
      ensures Valid() && View() == DoDisconnectPeer(old(View()), id)
    {
      if PeerIsThere(id) {
        Schedule(id, WasDisconnected);
      }
    }

    method DisconnectAll(order: seq<nat>)
      requires Valid() && Enumerates(order, peers.Keys)
      modifies `h, peers.Values
      ensures Valid() && View() == DoDisconnectAll(old(View()), order)
    {
      ghost var s := View();
      ScheduleAll(order);
      assert Closing(s.peers, order) == DoDisconnectAll(s, order).peers;
    }

    method ScheduleAll(order: seq<nat>)
      requires Valid() && NoRepeats(order) && forall id :: id in order ==> id in peers
      modifies `h, peers.Values
      ensures Records() == Closing(old(Records()), order)
      ensures h == old(h).(log := old(h).log + AllMarked(order))
    {
      ghost var records, h0 := Records(), h;
      assert h0.log + AllMarked(order[..0]) == h0.log;
      var k := 0;
      while k < |order|
        invariant 0 <= k <= |order| && Valid()
        invariant Records() == Closing(records, order[..k])
        invariant h == h0.(log := h0.log + AllMarked(order[..k]))
      {
        assert order[k] in order && peers[order[k]] in peers.Values;
        ScheduleNext(order, k, records, h0);
        k := k + 1;
      }
      assert order[..k] == order;
    }

    /** One turn of that loop. */
    method ScheduleNext(order: seq<nat>, k: nat, ghost records: map<nat, PeerData>, ghost h0: History)
      requires Valid() && k < |order| && order[k] in peers
      requires Records() == Closing(records, order[..k])
      requires h == h0.(log := h0.log + AllMarked(order[..k]))
      modifies `h, peers[order[k]]
      ensures Records() == Closing(records, order[..k + 1])
      ensures h == h0.(log := h0.log + AllMarked(order[..k + 1]))
    {
      assert order[..k + 1] == order[..k] + [order[k]];
      assert Records().Keys == peers.Keys;
      ClosingOneMore(records, order[..k], order[k]);
      Schedule(order[k], WasDisconnected);
      assert h0.log + AllMarked(order[..k + 1]) == (h0.log + AllMarked(order[..k])) + [Marked(order[k], WasDisconnected)];
    }

    static lemma ClosingOneMore(records: map<nat, PeerData>, done: seq<nat>, id: nat)
      requires id in records
      ensures Closing(records, done + [id]) ==
              Closing(records, done)[id := Scheduled(Closing(records, done)[id], WasDisconnected)]
      ensures AllMarked(done + [id]) == AllMarked(done) + [Marked(id, WasDisconnected)]
    {
    }

    static ghost function Closing(records: map<nat, PeerData>, done: seq<nat>): map<nat, PeerData> {
      map id | id in records :: if id in done then Scheduled(records[id], WasDisconnected) else records[id]
    }

    /** The peer with the greatest number: the most recently inserted one that is
        still connected.  Without peers, an invalid record. */
    method LatestPeer(order: seq<nat>) returns (latest: Peer)
      requires Valid() && PeerLife.IdsFit(View()) && Enumerates(order, peers.Keys)
      ensures fresh(latest)
      ensures latest.View() ==
        match PeerStories.LastSurvivor(h.issued, peers.Keys)
        case Some(id) => if id in peers then peers[id].View() else NO_PEER
        case None => NO_PEER
      ensures latest.valid <==> peers != map[]
    {
      if peers != map[] {
        var max := 0;
        var k := 0;
        while k < |order|
          invariant 0 <= k <= |order|
          invariant forall id :: id in order[..k] ==> id <= max
          invariant max == 0 || max in order[..k]
        {
          assert order[..k + 1] == order[..k] + [order[k]];
          var current := order[k];
          if current > max {
            max := current;
          }
          k := k + 1;
        }
        assert order[..k] == order;
        ghost var some :| some in peers;
        assert some in order && View().peers[some].id >= 1;
        assert max in peers;
        PeerStories.LatestIsLastInserted(View(), max);
        assert Records().Keys == peers.Keys;
        assert View().peers[max].valid;
        latest := new Peer.Copy(peers[max]);
      } else {
        assert Records() == map[];
        NoSurvivor(h.issued);
        latest := new Peer();
      }
    }

    static lemma {:induction false} NoSurvivor(issued: seq<nat>)
      ensures PeerStories.LastSurvivor(issued, {}) == None
    {
      if issued != [] {
        NoSurvivor(issued[..|issued| - 1]);
      }
    }

    // ---- the listen thread ------------------------------------------------

    /** Lines 291 to 323: the listener is opened, or the request is dropped. */
    method OpenListener(ok: bool, probe: ErrnoProbe, told: bool)
      modifies `h, `listenerListens, `listenerAvailable, `listeningEnabled, `changingListener
      ensures Flags() == old(Flags()).(listening := ok, available := ok, enabled := old(listeningEnabled) && ok, changing := false)
      ensures h == old(h).(log := old(h).log + OpenEvents(ok, portnumber, probe, told))
    {
      listenerListens := ok;
      if !ok {
        if told {
          Log([ListenFailed(ErrorMessage("Listen Error", "Failed to create listener", Some(probe)))]);
        }
        listenerAvailable := false;
        listeningEnabled := false;
      } else {
        listenerAvailable := true;
        if told {
          Log([StartedListening(portnumber)]);
        }
      }
      changingListener := false;
    }

    /** Lines 328 to 337. */
    method CloseListener(told: bool)
      modifies `h, `listenerListens, `listenerAvailable
      ensures Flags() == old(Flags()).(listening := false, available := false)
      ensures h == old(h).(log := old(h).log + if told then [StoppedListening] else [])
    {
      listenerListens := false;
      listenerAvailable := false;
      if told {
        Log([StoppedListening]);
      }
    }

    /** Lines 286 to 340, undisturbed. */
    method ReconfigureListener(ok: bool, probe: ErrnoProbe, told: bool)
      modifies `h, `listenerListens, `listenerAvailable, `listeningEnabled, `changingListener, `wakeupListenThread
      ensures Flags() == ListenerFlags.Pass(old(Flags()), ok)
      ensures h == old(h).(log := old(h).log +
        if (old(listeningEnabled) && !old(listenerAvailable)) || old(changingListener) then OpenEvents(ok, portnumber, probe, told)
        else if !old(listeningEnabled) && old(listenerAvailable) && told then [StoppedListening]
        else [])
    {
      if (listeningEnabled && !listenerAvailable) || changingListener {
        OpenListener(ok, probe, told);
      } else if !listeningEnabled && listenerAvailable {
        CloseListener(told);
      }
      wakeupListenThread := false;
    }

    /** A socket that exists and has not been freed. */
    static ghost predicate Usable(sock: Handle, h: History) {
      sock in h.made && sock !in h.freed
    }

    /** Every record has a socket that may be used. */
    static ghost predicate AllUsable(records: map<nat, PeerData>, h: History) {
      forall id :: id in records ==> records[id].socket.Some? && Usable(records[id].socket.value, h)
    }

    static lemma LedgerMakesUsable(s: State)
      requires SocketLedger.Ledger(s)
      ensures AllUsable(s.peers, s.h)
    {
      forall id | id in s.peers ensures s.peers[id].socket.Some? && Usable(s.peers[id].socket.value, s.h) {
        SocketLedger.UsesAreLive(s, id);
      }
    }

    /** A call on a socket. */
    ghost method Use(sock: Handle)
      requires Usable(sock, h)
    {
    }

    method NewRecord(id: nat, ip: string, port: nat, host: string, sock: Handle) returns (np: Peer)
      ensures fresh(np) && np.View() == NewPeer(id, ip, port, host, sock)
    {
      np := new Peer();
      np.Set(id, ip, port, host);
      np.SetSocket(sock);
      np.SetValid(true);
    }

    /** Lines 361 to 370, and 580 to 590.  The number is new, so inserting under
        it replaces nothing.  `noted` is the history of what led here. */
    method InsertPeer(sock: Handle, ip: string, port: nat, host: string, ghost noted: History) returns (id: nat)
      requires Valid() && counter.value + 1 !in peers
      modifies `peers, `h, counter
      ensures Valid() && counter.value == old(counter.value) + 1 && id == counter.value
      ensures Records() == old(Records())[id := NewPeer(id, ip, port, host, sock)]
      ensures h == noted.(issued := noted.issued + [id], used := noted.used + {id})
      ensures peers.Keys == old(peers).Keys + {id} && fresh(peers.Values - old(peers.Values))
    {
      counter.value := counter.value + 1;
      id := counter.value;
      h := noted.(issued := noted.issued + [id], used := noted.used + {id});
      var np := NewRecord(id, ip, port, host, sock);
      InsertUnder(id, np);
    }

    method InsertUnder(id: nat, np: Peer)
      requires Valid() && id !in peers && np !in peers.Values
      modifies `peers
      ensures Valid() && peers == old(peers)[id := np]
      ensures Records() == old(Records())[id := np.View()]
    {
      assert forall i :: i in peers ==> peers[i] in peers.Values;
      peers := peers[id := np];
    }

    /** Lines 353 to 392; `listens` is what the listener says of itself. */
    method AcceptNext(listens: bool, acc: AcceptAnswer)
      requires Valid() && counter.value + 1 !in peers
      modifies `peers, `h, counter
      ensures Valid() && View() == DoAccept(old(View()), if listens && listenerAvailable then acc else NotListening)
      ensures fresh(peers.Values - old(peers.Values))
    {
      if listens && listenerAvailable {
        match acc
        case Incoming(sock, ip, port, host, told) => TakeIn(sock, ip, port, host, told);
        case NoneWaiting(errno, probe, told) =>
          if errno != 0 && told {
            Log([ListenFailed(ErrorMessage("Listen Error", "Failed to accept", Some(probe)))]);
          }
        case NotListening =>
      }
    }

    /** Lines 359 to 378. */
    method TakeIn(sock: Handle, ip: string, port: nat, host: string, told: bool)
      requires Valid() && counter.value + 1 !in peers
      modifies `peers, `h, counter
      ensures Valid() && View() == DoAccept(old(View()), Incoming(sock, ip, port, host, told))
      ensures fresh(peers.Values - old(peers.Values))
    {
      IncomingInParts(View(), sock, ip, port, host, told);
      ghost var t := DoAccept(View(), Incoming(sock, ip, port, host, told));
      var id := InsertPeer(sock, ip, port, host,
                           h.(made := h.made + {sock}, log := h.log + [Accepted(counter.value + 1, told)]));
      assert h == t.h && Records() == t.peers;
    }

    static lemma IncomingInParts(s: State, sock: Handle, ip: string, port: nat, host: string, told: bool)
      ensures var id := s.counter + 1;
        DoAccept(s, Incoming(sock, ip, port, host, told)) ==
        State(s.peers[id := NewPeer(id, ip, port, host, sock)], s.outbox, s.requests, s.listener, id, s.conn,
              s.h.(issued := s.h.issued + [id], used := s.h.used + {id},
                   made := s.h.made + {sock}, log := s.h.log + [Accepted(id, told)]))
    {
    }

    /** Lines 402 to 413. */
    method ReceiveFrom(p: Peer, r: ReceiveAnswer) returns (recres: ReceiveResult, recdata: Bytes)
      requires p.socket.Some? ==> Usable(p.socket.value, h)
      ensures recres == Outcome(p.View(), r) && (recres.OK? ==> recdata == r.data)
    {
      recdata, recres := [], NoConnection;
      if p.socket.Some? {
        Use(p.socket.value);
        if r.connected {
          recres := r.result;
          recdata := r.data;
        }
      }
    }

    method ScheduleFaulty(id: nat, msg: Message)
      requires Valid() && id in peers
      modifies `h, peers[id]
      ensures Records() == old(Records())[id := Scheduled(old(Records())[id], DisconnectedDueToError).(errmsg := msg)]
      ensures h == old(h).(log := old(h).log + [Marked(id, DisconnectedDueToError)])
    {
      ghost var records := Records();
      var p := peers[id];
      Schedule(id, DisconnectedDueToError);
      p.SetErrorMessage(msg);
      assert p.View() == Scheduled(records[id], DisconnectedDueToError).(errmsg := msg);
    }

    /** Lines 397 to 460. */
    method SweepOne(id: nat, r: ReceiveAnswer)
      requires Valid() && id in peers
      requires peers[id].socket.Some? ==> Usable(peers[id].socket.value, h)
      modifies `h, peers[id]
      ensures Records() == old(Records())[id := SweepPeer(old(Records())[id], r)]
      ensures h == old(h).(log := old(h).log + SweepEvents(id, old(Records())[id], r))
    {
      assert h.log + [] == h.log;
      if !peers[id].toBeDeleted {
        var recres, recdata := ReceiveFrom(peers[id], r);
        match recres
        case OK => Log([Received(id, recdata, r.told)]);
        case NoConnection => ScheduleFaulty(id, ErrorMessage("Receive Error", "Socket is not connected.", None));
        case IsListener => ScheduleFaulty(id, ErrorMessage("Receive Error", "Socket is a listener.", None));
        case PeerDisconnected => Schedule(id, DisconnectedThemself);
        case SystemError => ScheduleFaulty(id, ErrorMessage("Receive Error", "Failed to receive.", Some(r.probe)));
        case NothingReceived =>
      }
    }

    /** Lines 395 to 461, in any order of iteration. */
    method Sweep(order: seq<nat>, recv: nat -> ReceiveAnswer)
      requires Valid() && Enumerates(order, peers.Keys) && AllUsable(Records(), h)
      modifies `h, peers.Values
      ensures Records() == SweepMap(old(Records()), order, recv)
      ensures h == old(h).(log := old(h).log + SweepLog(old(Records()), order, recv))
    {
      ghost var records, h0, now, log := Records(), h, Records(), h.log;
      var k := 0;
      while k < |order|
        invariant 0 <= k <= |order|
        invariant Records() == now && AllUsable(now, h0)
        invariant h == h0.(log := log)
        invariant SweepMap(records, order, recv) == SweepMap(now, order[k..], recv)
        invariant h0.log + SweepLog(records, order, recv) == log + SweepLog(now, order[k..], recv)
      {
        var id := order[k];
        assert id in order && peers[id] in peers.Values && id in now && now[id] == peers[id].View();
        SweepStep(now, h0, log, order[k..], recv);
        assert order[k..][1..] == order[k + 1..];
        SweepOne(id, recv(id));
        log := log + SweepEvents(id, now[id], recv(id));
        now := now[id := SweepPeer(now[id], recv(id))];
        k := k + 1;
      }
    }

    static lemma SweepStep(now: map<nat, PeerData>, h0: History, log: seq<Event>, order: seq<nat>, recv: nat -> ReceiveAnswer)
      requires AllUsable(now, h0) && order != [] && order[0] in now
      ensures var id := order[0]; var next := now[id := SweepPeer(now[id], recv(id))];
        && AllUsable(next, h0)
        && SweepMap(now, order, recv) == SweepMap(next, order[1..], recv)
        && log + SweepLog(now, order, recv)
           == (log + SweepEvents(id, now[id], recv(id))) + SweepLog(next, order[1..], recv)
    {
      PeerLife.SweepPeerKeepsId(now[order[0]], recv(order[0]));
    }

    /** Lines 464 to 500: the first marked record in the order of iteration. */
    method DeleteFirst(order: seq<nat>, told: bool)
      requires Valid() && Enumerates(order, peers.Keys)
      modifies `peers, `h, peers.Values
      ensures Valid() && View() == DoDelete(old(View()), order, told)
    {
      assert order[0..] == order;
      for k := 0 to |order|
        invariant Valid() && peers == old(peers) && View() == old(View())
        invariant FirstMarked(Records(), order) == FirstMarked(Records(), order[k..])
      {
        assert order[k] in order && peers[order[k]] in peers.Values;
        assert order[k..][1..] == order[k + 1..];
        assert Records()[order[k]] == peers[order[k]].View();
        if peers[order[k]].toBeDeleted {
          Erase(order[k], told);
          return;
        }
      }
    }

    /** Lines 468 to 498. */
    method Erase(id: nat, told: bool)
      requires Valid() && id in peers
      modifies `peers, `h, peers[id]
      ensures Valid() && View() == Erased(old(View()), id, told)
    {
      EraseInParts(View(), id, told);
      var temp, freed := Forget(id);
      h := h.(freed := h.freed + if freed.Some? then [freed.value] else [],
              log := h.log + [Ended(id, temp.disconn, temp.errmsg, told)]);
    }

    /** Lines 468 to 470: a copy is kept, the socket destroyed, the record erased. */
    method Forget(id: nat) returns (temp: Peer, freed: Option<Handle>)
      requires Valid() && id in peers
      modifies `peers, peers[id]
      ensures Valid() && Records() == old(Records()) - {id}
      ensures fresh(temp) && temp.View() == old(peers[id].View()) && freed == old(peers[id].socket)
    {
      temp := new Peer.Copy(peers[id]);
      freed := peers[id].DestroySocket();
      peers := peers - {id};
      assert Records() == old(Records()) - {id};
    }

    static lemma EraseInParts(s: State, id: nat, told: bool)
      requires id in s.peers
      ensures var p := s.peers[id];
        Erased(s, id, told) ==
        State(s.peers - {id}, s.outbox, s.requests, s.listener, s.counter, s.conn,
              s.h.(freed := s.h.freed + (if p.socket.Some? then [p.socket.value] else []),
                   log := s.h.log + [Ended(id, p.disconn, p.errmsg, told)]))
    {
    }

    /** Lines 349 to 502: one pass over the peers. */
    method ListenSection(listens: bool, order: seq<nat>, acc: AcceptAnswer, recv: nat -> ReceiveAnswer, told: bool)
      requires Valid() && PeerLife.IdsFit(View()) && SocketLedger.Ledger(View())
      requires listens && listenerAvailable && acc.Incoming? ==> acc.sock !in h.made
      requires Enumerates(order, DoAccept(View(), if listens && listenerAvailable then acc else NotListening).peers.Keys)
      modifies `peers, `h, counter, peers.Values
      ensures Valid()
      ensures View() ==
        DoListenSection(old(View()), order, if listens && listenerAvailable then acc else NotListening, recv, told)
    {
      ghost var s, a := View(), if listens && listenerAvailable then acc else NotListening;
      AcceptLeavesUsable(s, a);
      AcceptNext(listens, acc);
      assert Records().Keys == peers.Keys;
      Sweep(order, recv);
      DeleteFirst(order, told);
    }

    static lemma AcceptLeavesUsable(s: State, acc: AcceptAnswer)
      requires PeerLife.IdsFit(s) && SocketLedger.Ledger(s)
      requires acc.Incoming? ==> acc.sock !in s.h.made
      ensures s.counter + 1 !in s.peers
      ensures AllUsable(DoAccept(s, acc).peers, DoAccept(s, acc).h)
    {
      SocketLedger.AcceptKeepsLedger(s, acc);
      PeerLife.InsertKeepsIds(s, 0, "", 0, "");
      LedgerMakesUsable(DoAccept(s, acc));
    }

    // ---- the send thread --------------------------------------------------

    /** Lines 623 to 670: the front buffer is handled and popped. */
    method SendFront(o: SendAnswer)
      requires Valid() && PeerLife.IdsFit(View()) && SocketLedger.Ledger(View())
      requires dataToSend != [] ==> o.taken <= |dataToSend[0].data|
      modifies `dataToSend, `h, peers.Values
      ensures Valid()
      ensures View() == if old(dataToSend) == [] then old(View()) else DoSendOne(old(View()), o)
    {
      if |dataToSend| > 0 {
        ghost var s := View();
        var b := dataToSend[0];
        SendInParts(s, o);
        SendOut(b, o);
        PopBuffer(Handled(b, FateOf(s, b, o)));
      }
    }

    method PopBuffer(ghost handled: Handled)
      requires dataToSend != []
      modifies `dataToSend, `h
      ensures dataToSend == old(dataToSend)[1..]
      ensures h == old(h).(handled := old(h).handled + [handled])
    {
      h := h.(handled := h.handled + [handled]);
      dataToSend := dataToSend[1..];
    }

    static lemma SendInParts(s: State, o: SendAnswer)
      requires Enabled(s, SendOne(o))
      ensures var b := s.outbox[0]; var fate := FateOf(s, b, o);
        DoSendOne(s, o) ==
        State(AfterSend(s.peers, b, fate, o), s.outbox[1..], s.requests, s.listener, s.counter, s.conn,
              Noted(s.h, b, fate, o).(handled := Noted(s.h, b, fate, o).handled + [Handled(b, fate)]))
    {
    }

    /** What handling a buffer does to the records. */
    static ghost function AfterSend(records: map<nat, PeerData>, b: OutBuffer, fate: Fate, o: SendAnswer): map<nat, PeerData> {
      if fate == Failed(true) && b.id in records
      then records[b.id := Scheduled(records[b.id].(errmsg := SendingFailed(o)), DisconnectedDueToError)]
      else records
    }

    /** What handling a buffer leaves in the history. */
    static ghost function Noted(h: History, b: OutBuffer, fate: Fate, o: SendAnswer): History
      requires fate.Taken? ==> fate.amount <= |b.data|
    {
      match fate
      case Gone(told) =>
        if told then h.(log := h.log + [SendFailed(ErrorMessage("Send Error", "Specified peer does not exist.", None))]) else h
      case Dropped => h
      case Taken(n) =>
        h.(log := h.log + [Sent(b.id, n, o.sentTold)],
           wire := h.wire[b.id := (if b.id in h.wire then h.wire[b.id] else []) + b.data[..n]])
      case Failed(marked) => if marked then h.(log := h.log + [Marked(b.id, DisconnectedDueToError)]) else h
    }

    /** Lines 627 to 667. */
    method SendOut(b: OutBuffer, o: SendAnswer)
      requires Valid() && SocketLedger.Ledger(View()) && o.taken <= |b.data|
      modifies `h, peers.Values
      ensures Records() == AfterSend(old(Records()), b, FateOf(old(View()), b, o), o)
      ensures h == Noted(old(h), b, FateOf(old(View()), b, o), o)
    {
      if b.id !in peers {
        if o.errTold {
          Log([SendFailed(ErrorMessage("Send Error", "Specified peer does not exist.", None))]);
        }
      } else if !peers[b.id].toBeDeleted {
        LedgerMakesUsable(View());
        assert Records()[b.id] == peers[b.id].View() && peers[b.id] in peers.Values;
        SendTo(b, o);
      }
    }

    /** Lines 643 to 666: the socket pointer is used unchecked. */
    method SendTo(b: OutBuffer, o: SendAnswer)
      requires Valid() && b.id in peers && o.taken <= |b.data|
      requires peers[b.id].socket.Some? && Usable(peers[b.id].socket.value, h)
      modifies `h, peers[b.id]
      ensures Records() == AfterSend(old(Records()), b, if o.taken > 0 then Taken(o.taken) else Failed(o.errTold), o)
      ensures h == Noted(old(h), b, if o.taken > 0 then Taken(o.taken) else Failed(o.errTold), o)
    {
      Use(peers[b.id].socket.value);
      if o.taken > 0 {
        h := Noted(h, b, Taken(o.taken), o);
      } else if o.errTold {
        ScheduleFaulty(b.id, SendingFailed(o));
      }
    }

    // ---- the connect thread -----------------------------------------------

    /** Lines 524 to 534. */
    method ReadQueueLength()
      requires Valid() && worker.AtTop?
      modifies `worker, `h
      ensures Valid() && View() == DoConnectRead(old(View()))
    {
      var queueLength := |potentialPeers|;
      if queueLength > 0 {
        worker := Cycle(0, queueLength);
        h := h.(lengths := h.lengths + [queueLength]);
      }
    }

    /** Line 536. */
    method CreateSocket(sock: Handle)
      requires Valid() && worker.Cycle? && worker.i < worker.q && sock !in h.made
      modifies `worker, `h
      ensures Valid() && View() == DoConnectCreate(old(View()), sock)
    {
      worker := Created(worker.i, worker.q, sock);
      h := h.(made := h.made + {sock});
    }

    /** Lines 537 to 540: front() of a deque that must not be empty. */
    method ReadFront()
      requires Valid() && worker.Created? && potentialPeers != []
      modifies `worker, `h
      ensures Valid() && View() == DoConnectFront(old(View()))
    {
      worker := Trying(worker.i, worker.q, worker.sock, potentialPeers[0]);
      h := h.(cycles := h.cycles + [h.popped]);
    }

    /** Lines 549 to 560, once. */
    method AttemptOnce(success: bool, errno: int, timeup: bool)
      requires Valid() && worker.Trying?
      requires Usable(worker.sock, h)
      modifies `worker
      ensures Valid() && View() == DoConnectAttempt(old(View()), success, errno, timeup)
    {
      Use(worker.sock);
      if success || errno != 0 || timeup {
        worker := if success then Won(worker.i, worker.q, worker.sock, worker.to)
                  else Lost(worker.i, worker.q, worker.sock, worker.to);
      }
    }

    /** Lines 564 to 575. */
    method GiveUp(probe: ErrnoProbe, told: bool)
      requires Valid() && worker.Lost?
      requires Usable(worker.sock, h)
      modifies `worker, `h
      ensures Valid() && View() == DoConnectLost(old(View()), probe, told)
    {
      Use(worker.sock);
      h := h.(log := h.log + if told then [ConnectFailed(ConnectFailure(worker.to, probe))] else [],
              freed := h.freed + [worker.sock]);
      worker := Cycle(worker.i + 1, worker.q);
    }

    /** Lines 579 to 591. */
    method AddConnected(ip: string, port: nat, host: string)
      requires Valid() && worker.Won? && counter.value + 1 !in peers
      requires Usable(worker.sock, h)
      modifies `peers, `worker, `h, counter
      ensures Valid() && View() == DoConnectWon(old(View()), ip, port, host)
    {
      Use(worker.sock);
      InsertWon(ip, port, host);
    }

    method InsertWon(ip: string, port: nat, host: string)
      requires Valid() && worker.Won? && counter.value + 1 !in peers
      modifies `peers, `worker, `h, counter
      ensures Valid() && View() == DoConnectWon(old(View()), ip, port, host)
    {
      ghost var t := DoConnectWon(View(), ip, port, host);
      WonInParts(View(), ip, port, host);
      var id := InsertPeer(worker.sock, ip, port, host,
                           h.(log := h.log + [Joined(counter.value + 1)], origins := h.origins + [h.popped]));
      worker := Announcing(worker.i, worker.q, id);
      assert h == t.h && Records() == t.peers && worker == t.conn;
    }

    static lemma WonInParts(s: State, ip: string, port: nat, host: string)
      requires s.conn.Won?
      ensures var id := s.counter + 1;
        DoConnectWon(s, ip, port, host) ==
        State(s.peers[id := NewPeer(id, ip, port, host, s.conn.sock)], s.outbox, s.requests, s.listener, id,
              Announcing(s.conn.i, s.conn.q, id),
              s.h.(issued := s.h.issued + [id], used := s.h.used + {id}, log := s.h.log + [Joined(id)],
                   origins := s.h.origins + [s.h.popped]))
    {
    }

    /** Lines 593 to 597. */
    method Announce(told: bool)
      requires Valid() && worker.Announcing?
      modifies `worker, `h
      ensures Valid() && View() == DoConnectAnnounce(old(View()), told)
    {
      ghost var s := View();
      if told {
        Log([Connected(worker.id)]);
      }
      worker := Cycle(worker.i + 1, worker.q);
    }

    /** Lines 602 to 604: pop_front() of a deque that must not be empty. */
    method PopFront()
      requires Valid() && worker.Cycle? && worker.i >= worker.q && potentialPeers != []
      modifies `worker, `potentialPeers, `h
      ensures Valid() && View() == DoConnectPop(old(View()))
    {
      potentialPeers := potentialPeers[1..];
      h := h.(popped := h.popped + 1);
      worker := AtTop;
    }

    // ---- the destructor ---------------------------------------------------

    /** Lines 118 to 120, after the joins: every peer is marked but none erased. */
    method DestructorTail(order: seq<nat>)
      requires Valid() && Enumerates(order, peers.Keys)
      requires Usable(listener, h)    // SocketLedger.OwnersAreLive
      modifies `h, peers.Values
      ensures Valid() && View() == Destructed(old(View()), order)
    {
      ghost var t := Destructed(View(), order);
      DisconnectAll(order);
      Free(listener);
      assert h == t.h && Records() == t.peers;
    }

    /** Closes and deletes a socket. */
    ghost method Free(sock: Handle)
      requires Usable(sock, h)
      modifies `h
      ensures h == old(h).(freed := old(h).freed + [sock])
    {
      h := h.(freed := h.freed + [sock]);
    }
  }
}
