/** The ids a node gives out, and the order of events every peer goes through,
    over all runs. */
module PeerLife {
  import opened Common
  import opened PeerPrivate
  import opened NodeState
  import opened ReceiveSweep

  // ---- the peer map -------------------------------------------------------

  ghost predicate IdsFit(s: State) {
    && (forall id :: id in s.peers ==>
         s.peers[id].id == id && s.peers[id].valid && 1 <= id <= s.counter && id in s.h.issued)
    && (forall i, j :: 0 <= i < j < |s.h.issued| ==> s.h.issued[i] < s.h.issued[j])
    && (forall id :: id in s.h.issued ==> id in s.h.used)
    && (forall id :: id in s.h.used ==> 1 <= id <= s.counter)
  }

  /** Changing records in place, and dropping some, keeps the ids in order. */
  lemma FewerPeersKeepIds(s: State, t: State)
    requires IdsFit(s)
    requires t.counter == s.counter && t.h.issued == s.h.issued && t.h.used == s.h.used
    requires t.peers.Keys <= s.peers.Keys
    requires forall id :: id in t.peers ==> t.peers[id].id == s.peers[id].id && t.peers[id].valid == s.peers[id].valid
    ensures IdsFit(t)
  {
  }

  lemma InsertKeepsIds(s: State, sock: Handle, ip: string, port: nat, host: string)
    requires IdsFit(s)
    ensures IdsFit(Inserted(s, sock, ip, port, host))
    ensures s.counter + 1 !in s.h.used && s.counter + 1 !in s.h.issued && s.counter + 1 !in s.peers
  {
    var t := Inserted(s, sock, ip, port, host);
    var n := |s.h.issued|;
    assert t.h.issued[n] == s.counter + 1;
    forall i | 0 <= i < n ensures t.h.issued[i] == s.h.issued[i] <= s.counter {
      assert s.h.issued[i] in s.h.issued;
    }
    forall id | id in s.h.issued ensures id in t.h.issued {
      var i :| 0 <= i < n && s.h.issued[i] == id;
      assert t.h.issued[i] == id;
    }
  }

  lemma AcceptKeepsIds(s: State, acc: AcceptAnswer)
    requires IdsFit(s)
    ensures IdsFit(DoAccept(s, acc))
  {
    if acc.Incoming? {
      InsertKeepsIds(s, acc.sock, acc.ip, acc.port, acc.host);
      FewerPeersKeepIds(Inserted(s, acc.sock, acc.ip, acc.port, acc.host), DoAccept(s, acc));
    } else {
      FewerPeersKeepIds(s, DoAccept(s, acc));
    }
  }

  lemma SweepPeerKeepsId(p: PeerData, r: ReceiveAnswer)
    ensures SweepPeer(p, r).id == p.id && SweepPeer(p, r).valid == p.valid && SweepPeer(p, r).socket == p.socket
  {
  }

  lemma SectionKeepsIds(s: State, order: seq<nat>, acc: AcceptAnswer, recv: nat -> ReceiveAnswer, told: bool)
    requires IdsFit(s) && Enumerates(order, DoAccept(s, acc).peers.Keys)
    ensures IdsFit(DoAccept(s, acc))
    ensures IdsFit(DoSweep(DoAccept(s, acc), order, recv))
    ensures IdsFit(DoListenSection(s, order, acc, recv, told))
  {
    AcceptKeepsIds(s, acc);
    var s1 := DoAccept(s, acc);
    var s2 := DoSweep(s1, order, recv);
    forall id | id in s2.peers
      ensures id in s1.peers && s2.peers[id].id == s1.peers[id].id && s2.peers[id].valid == s1.peers[id].valid
    {
      SweepVisitsEachOnce(s1, order, recv, id);
      SweepPeerKeepsId(s1.peers[id], recv(id));
    }
    FewerPeersKeepIds(s1, s2);
    FewerPeersKeepIds(s2, DoDelete(s2, order, told));
  }

  lemma IdsKept(s: State, a: Action)
    requires IdsFit(s) && Enabled(s, a)
    ensures IdsFit(Apply(s, a))
  {
    if a.ListenSection? {
      SectionKeepsIds(s, a.order, a.acc, a.recv, a.endTold);
    } else if a.SendOne? {
      SendKeepsIds(s, a.answer);
    } else if FromOutside(a) {
      OutsideKeepsIds(s, a);
    } else if StartsCycle(a) {
      StartsKeepIds(s, a);
    } else {
      EndsKeepIds(s, a);
    }
  }

  lemma SendKeepsIds(s: State, o: SendAnswer)
    requires IdsFit(s) && Enabled(s, SendOne(o))
    ensures IdsFit(DoSendOne(s, o))
  {
    SendLeavesIds(s, o);
    FewerPeersKeepIds(s, DoSendOne(s, o));
  }

  lemma SendLeavesIds(s: State, o: SendAnswer)
    requires Enabled(s, SendOne(o))
    ensures var t := DoSendOne(s, o);
      && t.counter == s.counter && t.h.issued == s.h.issued && t.h.used == s.h.used
      && t.peers.Keys == s.peers.Keys
      && forall id :: id in s.peers ==> t.peers[id].id == s.peers[id].id && t.peers[id].valid == s.peers[id].valid
  {
  }

  lemma WonKeepsIds(s: State, ip: string, port: nat, host: string)
    requires IdsFit(s) && s.conn.Won?
    ensures IdsFit(DoConnectWon(s, ip, port, host))
  {
    InsertKeepsIds(s, s.conn.sock, ip, port, host);
    FewerPeersKeepIds(Inserted(s, s.conn.sock, ip, port, host), DoConnectWon(s, ip, port, host));
  }

  /** Another node of the process takes a connection number. */
  lemma OtherNodeKeepsIds(s: State)
    requires IdsFit(s)
    ensures IdsFit(Apply(s, OtherNode))
  {
  }

  lemma OutsideKeepsIds(s: State, a: Action)
    requires IdsFit(s) && Enabled(s, a) && FromOutside(a)
    ensures IdsFit(Apply(s, a))
  {
    if a.OtherNode? { OtherNodeKeepsIds(s); } else { FewerPeersKeepIds(s, Apply(s, a)); }
  }

  lemma StartsKeepIds(s: State, a: Action)
    requires IdsFit(s) && Enabled(s, a) && StartsCycle(a)
    ensures IdsFit(Apply(s, a))
  {
    FewerPeersKeepIds(s, Apply(s, a));
  }

  lemma EndsKeepIds(s: State, a: Action)
    requires IdsFit(s) && Enabled(s, a) && EndsCycle(a)
    ensures IdsFit(Apply(s, a))
  {
    if a.ConnectWon? { WonKeepsIds(s, a.ip, a.port, a.host); } else { FewerPeersKeepIds(s, Apply(s, a)); }
  }

  // ---- the life of a peer -------------------------------------------------

  datatype Phase = Absent | Open | Doomed(why: DisconnectType) | Over | Broken

  /** Absent, then accepted or joined, then data both ways, then one or more
      marks, then the end with the kind of the last mark, then nothing. */
  function Advance(ph: Phase, e: Event): Phase {
    match e
    case Accepted(_, _) => if ph.Absent? then Open else Broken
    case Joined(_) => if ph.Absent? then Open else Broken
    case Received(_, _, _) => if ph.Open? then Open else Broken
    case Sent(_, _, _) => if ph.Open? then Open else Broken
    case Marked(_, why) => if ph.Open? || ph.Doomed? then Doomed(why) else Broken
    case Ended(_, why, _, _) => if ph == Doomed(why) then Over else Broken
    case _ => ph
  }

  function Feed(ph: Phase, es: seq<Event>): Phase
    decreases |es|
  {
    if es == [] then ph else Feed(Advance(ph, es[0]), es[1..])
  }

  lemma {:induction false} FeedAppend(ph: Phase, xs: seq<Event>, ys: seq<Event>)
    ensures Feed(ph, xs + ys) == Feed(Feed(ph, xs), ys)
    decreases |xs|
  {
    if xs == [] {
      assert xs + ys == ys;
    } else {
      assert (xs + ys)[1..] == xs[1..] + ys;
      FeedAppend(Advance(ph, xs[0]), xs[1..], ys);
    }
  }

  /** Where a peer stands according to the events told so far. */
  function PhaseOf(log: seq<Event>, id: nat): Phase {
    Feed(Absent, Of(log, id))
  }

  /** Where a peer stands according to the node. */
  function Standing(s: State, id: nat): Phase {
    if id in s.peers then
      if s.peers[id].toBeDeleted then Doomed(s.peers[id].disconn) else Open
    else if id in s.h.issued then Over
    else Absent
  }

  ghost predicate LivesInOrder(s: State) {
    forall id: nat :: PhaseOf(s.h.log, id) == Standing(s, id)
  }

  /** New events that move every peer from where it stood to where it stands
      keep the order. */
  lemma OrderKept(s: State, t: State, es: seq<Event>)
    requires LivesInOrder(s)
    requires t.h.log == s.h.log + es
    requires forall id: nat :: Feed(Standing(s, id), Of(es, id)) == Standing(t, id)
    ensures LivesInOrder(t)
  {
    forall id: nat ensures PhaseOf(t.h.log, id) == Standing(t, id) {
      OfAppend(s.h.log, es, id);
      FeedAppend(Absent, Of(s.h.log, id), Of(es, id));
    }
  }

  lemma OneEvent(e: Event, id: nat, ph: Phase)
    ensures Of([e], id) == if About(e) == Some(id) then [e] else []
    ensures Feed(ph, Of([e], id)) == if About(e) == Some(id) then Advance(ph, e) else ph
  {
    assert [e][1..] == [];
    assert Of([e][1..], id) == [];
    if About(e) == Some(id) {
      assert [e][0] == e;
      assert Feed(ph, [e]) == Feed(Advance(ph, e), []);
    }
  }

  lemma OrderKeptByOne(s: State, t: State, e: Event)
    requires LivesInOrder(s)
    requires t.h.log == s.h.log + [e]
    requires forall id: nat :: Standing(t, id) == if About(e) == Some(id) then Advance(Standing(s, id), e) else Standing(s, id)
    ensures LivesInOrder(t)
  {
    forall id: nat ensures Feed(Standing(s, id), Of([e], id)) == Standing(t, id) {
      OneEvent(e, id, Standing(s, id));
    }
    OrderKept(s, t, [e]);
  }

  lemma OrderKeptByNone(s: State, t: State)
    requires LivesInOrder(s)
    requires t.h.log == s.h.log && t.peers == s.peers && t.h.issued == s.h.issued
    ensures LivesInOrder(t)
  {
    forall id: nat ensures PhaseOf(t.h.log, id) == Standing(t, id) {
      assert PhaseOf(s.h.log, id) == Standing(s, id);
    }
  }

  lemma InsertKeepsOrder(s: State, t: State, sock: Handle, ip: string, port: nat, host: string, e: Event)
    requires IdsFit(s) && LivesInOrder(s)
    requires About(e) == Some(s.counter + 1) && (e.Joined? || e.Accepted?)
    requires var u := Inserted(s, sock, ip, port, host);
      t.peers == u.peers && t.h.issued == u.h.issued && t.h.log == s.h.log + [e]
    ensures LivesInOrder(t)
  {
    InsertKeepsIds(s, sock, ip, port, host);
    forall id: nat ensures Standing(t, id) == if About(e) == Some(id) then Advance(Standing(s, id), e) else Standing(s, id) {
      assert id in t.h.issued <==> id in s.h.issued || id == s.counter + 1;
    }
    OrderKeptByOne(s, t, e);
  }

  lemma AcceptKeepsOrder(s: State, acc: AcceptAnswer)
    requires IdsFit(s) && LivesInOrder(s)
    ensures LivesInOrder(DoAccept(s, acc))
  {
    var t := DoAccept(s, acc);
    match acc
    case NotListening =>
    case NoneWaiting(errno, probe, told) =>
      if t != s { OrderKeptByOne(s, t, t.h.log[|s.h.log|]); }
    case Incoming(sock, ip, port, host, told) =>
      InsertKeepsOrder(s, t, sock, ip, port, host, Accepted(s.counter + 1, told));
  }

  lemma FeedSweep(id: nat, p: PeerData, r: ReceiveAnswer, ph: Phase)
    requires ph == if p.toBeDeleted then Doomed(p.disconn) else Open
    ensures var q := SweepPeer(p, r);
      Feed(ph, SweepEvents(id, p, r)) == if q.toBeDeleted then Doomed(q.disconn) else Open
  {
    var es := SweepEvents(id, p, r);
    if es != [] {
      assert es == [es[0]];
      assert Feed(ph, es) == Feed(Advance(ph, es[0]), []);
    }
  }

  lemma SweepKeepsOrder(s: State, order: seq<nat>, recv: nat -> ReceiveAnswer)
    requires LivesInOrder(s) && Enumerates(order, s.peers.Keys)
    ensures LivesInOrder(DoSweep(s, order, recv))
  {
    var es := SweepLog(s.peers, order, recv);
    var t := DoSweep(s, order, recv);
    SweepMapIsSwept(s.peers, order, recv);
    forall id: nat ensures Feed(Standing(s, id), Of(es, id)) == Standing(t, id) {
      SweepLogOf(s.peers, order, recv, id);
      if id in s.peers {
        FeedSweep(id, s.peers[id], recv(id), Standing(s, id));
      }
    }
    OrderKept(s, t, es);
  }

  lemma DeleteKeepsOrder(s: State, order: seq<nat>, told: bool)
    requires IdsFit(s) && LivesInOrder(s)
    ensures LivesInOrder(DoDelete(s, order, told))
  {
    var t := DoDelete(s, order, told);
    FirstMarkedFinds(s.peers, order);
    var m := FirstMarked(s.peers, order);
    if m.Some? {
      var e := Ended(m.value, s.peers[m.value].disconn, s.peers[m.value].errmsg, told);
      OrderKeptByOne(s, t, e);
    }
  }

  lemma {:induction false} AllMarkedOf(order: seq<nat>, id: nat)
    requires NoRepeats(order)
    ensures Of(AllMarked(order), id) == if id in order then [Marked(id, WasDisconnected)] else []
  {
    if order == [] {
    } else {
      var rest := order[1..];
      assert AllMarked(order)[1..] == AllMarked(rest);
      assert order == [order[0]] + rest;
      AllMarkedOf(rest, id);
    }
  }

  lemma DisconnectAllKeepsOrder(s: State, order: seq<nat>)
    requires LivesInOrder(s) && Enumerates(order, s.peers.Keys)
    ensures LivesInOrder(DoDisconnectAll(s, order))
  {
    var t := DoDisconnectAll(s, order);
    forall id: nat ensures Feed(Standing(s, id), Of(AllMarked(order), id)) == Standing(t, id) {
      AllMarkedOf(order, id);
      OneEvent(Marked(id, WasDisconnected), id, Standing(s, id));
    }
    OrderKept(s, t, AllMarked(order));
  }

  lemma SendKeepsOrder(s: State, o: SendAnswer)
    requires IdsFit(s) && LivesInOrder(s) && Enabled(s, SendOne(o))
    ensures LivesInOrder(DoSendOne(s, o))
  {
    var t := DoSendOne(s, o);
    if t.h.log == s.h.log {
      OrderKeptByNone(s, t);
    } else {
      OrderKeptByOne(s, t, t.h.log[|s.h.log|]);
    }
  }

  lemma SectionKeepsOrder(s: State, order: seq<nat>, acc: AcceptAnswer, recv: nat -> ReceiveAnswer, told: bool)
    requires IdsFit(s) && LivesInOrder(s) && Enumerates(order, DoAccept(s, acc).peers.Keys)
    ensures LivesInOrder(DoListenSection(s, order, acc, recv, told))
  {
    SectionKeepsIds(s, order, acc, recv, told);
    AcceptKeepsOrder(s, acc);
    SweepKeepsOrder(DoAccept(s, acc), order, recv);
    DeleteKeepsOrder(DoSweep(DoAccept(s, acc), order, recv), order, told);
  }

  lemma OrderIsKept(s: State, a: Action)
    requires IdsFit(s) && LivesInOrder(s) && Enabled(s, a)
    ensures LivesInOrder(Apply(s, a))
  {
    match a
    case ListenSection(order, acc, recv, told) => SectionKeepsOrder(s, order, acc, recv, told);
    case DisconnectAll(order) => DisconnectAllKeepsOrder(s, order);
    case SendOne(o) => SendKeepsOrder(s, o);
    case ConnectWon(ip, port, host) =>
      InsertKeepsOrder(s, Apply(s, a), s.conn.sock, ip, port, host, Joined(s.counter + 1));
    case _ =>
      if FromOutside(a) {
        OutsideKeepsOrder(s, a);
      } else if StartsCycle(a) {
        StartsKeepOrder(s, a);
      } else {
        EndsKeepOrder(s, a);
      }
  }

  lemma OutsideKeepsOrder(s: State, a: Action)
    requires IdsFit(s) && LivesInOrder(s) && Enabled(s, a) && FromOutside(a) && !a.DisconnectAll?
    ensures LivesInOrder(Apply(s, a))
  {
    if a.DisconnectPeer? {
      OneEventKeepsOrder(s, DoDisconnectPeer(s, a.id));
    } else {
      OutsideLeavesPeers(s, a);
      OneEventKeepsOrder(s, Apply(s, a));
    }
  }

  lemma OutsideLeavesPeers(s: State, a: Action)
    requires Enabled(s, a) && FromOutside(a) && !a.DisconnectAll? && !a.DisconnectPeer?
    ensures var t := Apply(s, a);
      && t.peers == s.peers && t.h.issued == s.h.issued
      && (t.h.log == s.h.log || (exists e :: t.h.log == s.h.log + [e] && About(e) == None))
  {
  }

  lemma StartsKeepOrder(s: State, a: Action)
    requires LivesInOrder(s) && Enabled(s, a) && StartsCycle(a)
    ensures LivesInOrder(Apply(s, a))
  {
    OrderKeptByNone(s, Apply(s, a));
  }

  lemma EndsKeepOrder(s: State, a: Action)
    requires LivesInOrder(s) && Enabled(s, a) && EndsCycle(a) && !a.ConnectWon?
    ensures LivesInOrder(Apply(s, a))
  {
    OneEventKeepsOrder(s, Apply(s, a));
  }

  lemma OneEventKeepsOrder(s: State, t: State)
    requires LivesInOrder(s)
    requires if t.h.log == s.h.log then t.peers == s.peers && t.h.issued == s.h.issued else
      && |t.h.log| == |s.h.log| + 1 && t.h.log[..|s.h.log|] == s.h.log
      && var e := t.h.log[|s.h.log|];
         forall id: nat :: Standing(t, id) == if About(e) == Some(id) then Advance(Standing(s, id), e) else Standing(s, id)
    ensures LivesInOrder(t)
  {
    if t.h.log == s.h.log {
      OrderKeptByNone(s, t);
    } else {
      assert t.h.log == s.h.log + [t.h.log[|s.h.log|]];
      OrderKeptByOne(s, t, t.h.log[|s.h.log|]);
    }
  }
}
