/**
 What each step of the node does, said of the caller's arguments and the answers
 of the environment, field by field and word by word.
 */
module Effects {
  import opened Common
  import opened PeerPrivate
  import opened NodeState
  import opened ReceiveSweep
  import PeerLife

  // ---- frames -------------------------------------------------------------

  /** Everything but the records and the log. */
  predicate RestStays(s: State, t: State) {
    && t.outbox == s.outbox && t.requests == s.requests && t.listener == s.listener
    && t.counter == s.counter && t.conn == s.conn
    && t.h == s.h.(log := t.h.log)
  }

  /** Every record but the one under `id`. */
  predicate OthersStay(s: State, t: State, id: nat) {
    t.peers.Keys == s.peers.Keys && forall i :: i in s.peers && i != id ==> t.peers[i] == s.peers[i]
  }

  // ---- the user's calls ---------------------------------------------------

  /** sendData for a peer in the map queues the whole buffer, last; for any other
      it queues nothing, and says so if there is a callback. */
  lemma SendDataEffect(s: State, to: PeerData, data: Bytes, told: bool)
    requires PeerLife.IdsFit(s)
    ensures var t := DoSendData(s, to, data, told);
      && t.peers == s.peers && t.requests == s.requests && t.listener == s.listener && t.conn == s.conn
      && (to.id in s.peers ==>
            && t.outbox == s.outbox + [OutBuffer(to.id, data)] && t.h.accepted == s.h.accepted + [OutBuffer(to.id, data)]
            && t.h.log == s.h.log)
      && (to.id !in s.peers ==>
            && t.outbox == s.outbox && t.h.accepted == s.h.accepted
            && t.h.log == s.h.log + if told then
                 [SendFailed(Message("Send Error", "Cannot send. Not connected to" + to.ip + ":" + Decimal(to.port) + "."))]
               else [])
  {
    assert s.h.log + [] == s.h.log;
  }

  /** disconnectPeer marks that peer, if it is in the map, and nothing else. */
  lemma DisconnectPeerEffect(s: State, id: nat)
    requires PeerLife.IdsFit(s)
    ensures var t := DoDisconnectPeer(s, id);
      && RestStays(s, t) && OthersStay(s, t, id)
      && (id in s.peers ==>
            && t.peers[id].toBeDeleted && t.peers[id].disconn == WasDisconnected
            && t.peers[id] == s.peers[id].(toBeDeleted := true, disconn := WasDisconnected)
            && t.h.log == s.h.log + [Marked(id, WasDisconnected)])
      && (id !in s.peers ==> t.h.log == s.h.log)
  {
  }

  lemma DisconnectAllEffect(s: State, order: seq<nat>)
    ensures var t := DoDisconnectAll(s, order);
      && RestStays(s, t) && t.peers.Keys == s.peers.Keys
      && (forall id :: id in s.peers ==> t.peers[id] == s.peers[id].(toBeDeleted := true, disconn := WasDisconnected))
      && t.h.log[..|s.h.log|] == s.h.log && |t.h.log| == |s.h.log| + |order|
      && forall i :: 0 <= i < |order| ==> t.h.log[|s.h.log| + i] == Marked(order[i], WasDisconnected)
  {
  }

  lemma SetListenerEffect(s: State, sock: Option<Handle>)
    ensures var t := DoSetListener(s, sock);
      && t.peers == s.peers && t.outbox == s.outbox && t.requests == s.requests && t.conn == s.conn
      && (sock.None? ==> t == s)
      && (sock.Some? ==> t.listener == sock.value && t.h.freed == s.h.freed + [s.listener] && t.h.log == s.h.log)
  {
  }

  /** connectTo queues the address it is given, last. */
  lemma ConnectToEffect(s: State, to: Address)
    ensures var t := DoConnectTo(s, to);
      && t.requests == s.requests + [to] && t.h.arrived == s.h.arrived + [to]
      && t.peers == s.peers && t.outbox == s.outbox && t.listener == s.listener && t.conn == s.conn && t.h.log == s.h.log
  {
  }

  // ---- the listen thread --------------------------------------------------

  lemma OpenEffect(s: State, ok: bool, port: nat, probe: ErrnoProbe, told: bool)
    ensures var t := Apply(s, OpenListener(ok, port, probe, told));
      && t == s.(h := s.h.(log := t.h.log))
      && (!told ==> t.h.log == s.h.log)
      && (told && ok ==> t.h.log == s.h.log + [StartedListening(port)])
      && (told && !ok ==> t.h.log == s.h.log + [ListenFailed(Message("Listen Error",
            "Failed to create listener" + Numbered(probe)))])
  {
    assert s.h.log + [] == s.h.log;
    NumberedMessage("Listen Error", "Failed to create listener", probe);
  }

  lemma CloseEffect(s: State, told: bool)
    ensures var t := Apply(s, CloseListener(told));
      t == s.(h := s.h.(log := t.h.log)) && t.h.log == s.h.log + if told then [StoppedListening] else []
  {
  }

  /** What an error message appends to its text. */
  function Numbered(probe: ErrnoProbe): string {
    if probe.number == 0 then "" else "\nError number " + Decimal(probe.number) + " :" + probe.text
  }

  lemma NumberedMessage(head: string, body: string, probe: ErrnoProbe)
    ensures ErrorMessage(head, body, Some(probe)) == Message(head, body + Numbered(probe))
    ensures ErrorMessage(head, body, None) == Message(head, body)
  {
    assert body + "" == body;
  }

  /** The number a string of digits denotes. */
  function Denoted(digits: string): int {
    if digits == [] then 0 else 10 * Denoted(digits[..|digits| - 1]) + digits[|digits| - 1] as int - '0' as int
  }

  /** Numbers in messages are written in decimal: digits only, which denote them. */
  lemma {:induction false} DigitsDenote(n: nat)
    ensures Digits(n) != [] && (forall c :: c in Digits(n) ==> '0' <= c <= '9') && Denoted(Digits(n)) == n
    ensures n != 0 ==> Digits(n)[0] != '0'
  {
    if n >= 10 {
      DigitsDenote(n / 10);
      var d := ('0' as int + n % 10) as char;
      assert Digits(n) == Digits(n / 10) + [d] && Digits(n)[..|Digits(n)| - 1] == Digits(n / 10);
    } else {
      assert Digits(n)[..0] == [];
    }
  }

  lemma SignedNumbers(n: int)
    ensures Decimal(n) == if n < 0 then "-" + Digits(-n) else Digits(n)
  {
  }

  /** A record of a new connection: what the socket says of the peer, unmarked. */
  predicate IsNew(p: PeerData, id: nat, ip: string, port: nat, host: string, sock: Handle) {
    && p.id == id && p.ip == ip && p.port == port && p.host == host && p.socket == Some(sock)
    && p.valid && !p.toBeDeleted
  }

  /** An accepted connection is a new record under the next number, with the address
      the socket gave; no connection changes nothing but perhaps the log. */
  lemma AcceptEffect(s: State, a: AcceptAnswer)
    requires PeerLife.IdsFit(s)
    ensures var t := DoAccept(s, a);
      && t.outbox == s.outbox && t.requests == s.requests && t.listener == s.listener && t.conn == s.conn
      && (a.Incoming? ==>
            && t.counter == s.counter + 1 && t.peers.Keys == s.peers.Keys + {t.counter}
            && IsNew(t.peers[t.counter], t.counter, a.ip, a.port, a.host, a.sock)
            && (forall id :: id in s.peers ==> t.peers[id] == s.peers[id])
            && t.h.log == s.h.log + [Accepted(t.counter, a.told)])
      && (!a.Incoming? ==> t.peers == s.peers && t.counter == s.counter)
      && (a.NotListening? ==> t == s)
      && (a.NoneWaiting? ==> t.h.log == s.h.log + if a.errno != 0 && a.told
            then [ListenFailed(Message("Listen Error", "Failed to accept" + Numbered(a.probe)))] else [])
  {
    assert s.h.log + [] == s.h.log;
    PeerLife.InsertKeepsIds(s, 0, "", 0, "");
    if a.NoneWaiting? { NumberedMessage("Listen Error", "Failed to accept", a.probe); }
  }

  /** What asking an unmarked peer's socket leads to, answer by answer. */
  lemma SweepEffect(id: nat, p: PeerData, r: ReceiveAnswer)
    ensures var q, es := SweepPeer(p, r), SweepEvents(id, p, r);
      && (p.toBeDeleted ==> q == p && es == [])
      && (!p.toBeDeleted && p.socket.Some? && r.connected ==>
            && (r.result.OK? ==> q == p && es == [Received(id, r.data, r.told)])
            && (r.result.NothingReceived? ==> q == p && es == [])
            && (r.result.PeerDisconnected? ==>
                  q == p.(toBeDeleted := true, disconn := DisconnectedThemself) && es == [Marked(id, DisconnectedThemself)])
            && (r.result.IsListener? ==> Faulty(id, p, q, es, "Socket is a listener."))
            && (r.result.NoConnection? ==> Faulty(id, p, q, es, "Socket is not connected."))
            && (r.result.SystemError? ==> Faulty(id, p, q, es, "Failed to receive." + Numbered(r.probe))))
      && (!p.toBeDeleted && !(p.socket.Some? && r.connected) ==> Faulty(id, p, q, es, "Socket is not connected."))
  {
    NumberedMessage("Receive Error", "Failed to receive.", r.probe);
  }

  predicate Faulty(id: nat, p: PeerData, q: PeerData, es: seq<Event>, why: string) {
    && q == p.(toBeDeleted := true, disconn := DisconnectedDueToError, errmsg := Message("Receive Error", why))
    && es == [Marked(id, DisconnectedDueToError)]
  }

  /** A pass erases the first marked record of the walk, frees its socket and tells
      its end with the kind and message it was marked with; without a marked record
      it erases none. */
  lemma DeleteEffect(s: State, order: seq<nat>, told: bool, k: nat)
    requires Enumerates(order, s.peers.Keys) && k <= |order|
    requires forall i :: 0 <= i < k ==> !s.peers[order[i]].toBeDeleted
    requires k < |order| ==> s.peers[order[k]].toBeDeleted
    ensures var t := DoDelete(s, order, told);
      && (k == |order| ==> t == s)
      && (k < |order| ==>
            var p := s.peers[order[k]];
            && t.peers == s.peers - {order[k]} && t.h.log == s.h.log + [Ended(order[k], p.disconn, p.errmsg, told)]
            && t.h.freed == s.h.freed + (if p.socket.Some? then [p.socket.value] else [])
            && t.outbox == s.outbox && t.requests == s.requests && t.listener == s.listener && t.conn == s.conn)
  {
    FirstIsFound(s.peers, order, k);
  }

  lemma {:induction false} FirstIsFound(peers: map<nat, PeerData>, order: seq<nat>, k: nat)
    requires k <= |order| && forall i :: 0 <= i < |order| ==> order[i] in peers
    requires forall i :: 0 <= i < k ==> !peers[order[i]].toBeDeleted
    requires k < |order| ==> peers[order[k]].toBeDeleted
    ensures FirstMarked(peers, order) == if k < |order| then Some(order[k]) else None
  {
    if k > 0 {
      forall i | 0 <= i < k - 1 ensures !peers[order[1..][i]].toBeDeleted {
        assert order[1..][i] == order[i + 1];
      }
      if k < |order| { assert order[1..][k - 1] == order[k]; }
      FirstIsFound(peers, order[1..], k - 1);
    }
  }

  // ---- the send thread ----------------------------------------------------

  /** Handling the front buffer, in its four cases. */
  lemma SendOneEffect(s: State, o: SendAnswer)
    requires Enabled(s, SendOne(o))
    ensures var b, t := s.outbox[0], DoSendOne(s, o);
      && t.outbox == s.outbox[1..] && t.requests == s.requests && t.listener == s.listener && t.conn == s.conn
      && OthersStay(s, t, b.id)
      && (b.id !in s.peers ==>
            && WireStays(s, t)
            && t.h.log == s.h.log + if o.errTold then
                 [SendFailed(Message("Send Error", "Specified peer does not exist."))] else [])
      && (b.id in s.peers && s.peers[b.id].toBeDeleted ==>
            && WireStays(s, t) && t.peers == s.peers && t.h.log == s.h.log)
      && (b.id in s.peers && !s.peers[b.id].toBeDeleted && o.taken > 0 ==>
            && t.peers == s.peers && t.h.log == s.h.log + [Sent(b.id, o.taken, o.sentTold)]
            && t.h.wire == s.h.wire[b.id := OnWire(s, b.id) + b.data[..o.taken]])
      && (b.id in s.peers && !s.peers[b.id].toBeDeleted && o.taken == 0 ==>
            && WireStays(s, t)
            && t.peers[b.id] == (if o.errTold then
                 s.peers[b.id].(toBeDeleted := true, disconn := DisconnectedDueToError,
                                errmsg := Message("Send Error", "Sending Failed" + Numbered(o.probe)))
               else s.peers[b.id])
            && t.h.log == s.h.log + if o.errTold then [Marked(b.id, DisconnectedDueToError)] else [])
  {
    assert s.h.log + [] == s.h.log;
    NumberedMessage("Send Error", "Sending Failed", o.probe);
  }

  predicate WireStays(s: State, t: State) {
    t.h.wire == s.h.wire
  }

  // ---- the connect thread -------------------------------------------------

  lemma BatchEffect(s: State)
    requires s.conn.AtTop?
    ensures var t := DoConnectRead(s);
      && t.requests == s.requests && t.peers == s.peers && t.outbox == s.outbox && t.h.log == s.h.log
      && t.conn == if s.requests == [] then AtTop else Cycle(0, |s.requests|)
  {
  }

  /** From the socket's creation to the end of one cycle: the front address is the
      one tried, and success or failure has its consequence. */
  lemma CycleEffect(s: State, sock: Handle, success: bool, errno: int, timeup: bool)
    requires s.conn.Cycle? && s.requests != []
    ensures var t := DoConnectFront(DoConnectCreate(s, sock));
      && t.conn == Trying(s.conn.i, s.conn.q, sock, s.requests[0])
      && t.requests == s.requests && t.peers == s.peers && t.h.log == s.h.log
      && DoConnectAttempt(t, success, errno, timeup) ==
         t.(conn := if success then Won(s.conn.i, s.conn.q, sock, s.requests[0])
                    else if errno != 0 || timeup then Lost(s.conn.i, s.conn.q, sock, s.requests[0])
                    else t.conn)
  {
  }

  lemma LostEffect(s: State, probe: ErrnoProbe, told: bool)
    requires s.conn.Lost?
    ensures var t := DoConnectLost(s, probe, told);
      && t.conn == Cycle(s.conn.i + 1, s.conn.q) && t.h.freed == s.h.freed + [s.conn.sock]
      && t.requests == s.requests && t.peers == s.peers && t.counter == s.counter
      && t.h.log == s.h.log + if told then [ConnectFailed(Message("Connect Error",
           "Failed to connect to " + s.conn.to.ip + ":" + Decimal(s.conn.to.port) + Numbered(probe)))] else []
  {
    NumberedMessage("Connect Error", "Failed to connect to " + s.conn.to.ip + ":" + Decimal(s.conn.to.port), probe);
  }

  lemma WonEffect(s: State, ip: string, port: nat, host: string)
    requires PeerLife.IdsFit(s) && s.conn.Won?
    ensures var t := DoConnectWon(s, ip, port, host);
      && t.counter == s.counter + 1 && t.peers.Keys == s.peers.Keys + {t.counter}
      && IsNew(t.peers[t.counter], t.counter, ip, port, host, s.conn.sock)
      && (forall id :: id in s.peers ==> t.peers[id] == s.peers[id])
      && t.conn == Announcing(s.conn.i, s.conn.q, t.counter) && t.requests == s.requests && t.outbox == s.outbox
      && t.h.log == s.h.log + [Joined(t.counter)]
  {
    PeerLife.InsertKeepsIds(s, 0, "", 0, "");
  }

  lemma AnnounceEffect(s: State, told: bool)
    requires s.conn.Announcing?
    ensures var t := DoConnectAnnounce(s, told);
      && t.conn == Cycle(s.conn.i + 1, s.conn.q) && t.peers == s.peers && t.requests == s.requests
      && t.h.log == s.h.log + if told then [Connected(s.conn.id)] else []
  {
  }

  lemma PopEffect(s: State)
    requires s.conn.Cycle? && s.requests != []
    ensures var t := DoConnectPop(s);
      && t.requests == s.requests[1..] && t.conn == AtTop && t.h.popped == s.h.popped + 1
      && t.peers == s.peers && t.outbox == s.outbox && t.h.log == s.h.log
  {
  }
}
