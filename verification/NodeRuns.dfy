/** The invariants put together, over every run of the node. */
module NodeRuns {
  import opened Common
  import opened PeerPrivate
  import opened NodeState
  import opened ReceiveSweep
  import PeerLife
  import SocketLedger
  import SendPipeline
  import ConnectQueue

  ghost predicate Inv(s: State) {
    && PeerLife.IdsFit(s)
    && PeerLife.LivesInOrder(s)
    && SocketLedger.Ledger(s)
    && SendPipeline.Pipeline(s)
    && ConnectQueue.Queue(s)
  }

  lemma InitHasInv(s: State)
    requires Init(s)
    ensures Inv(s)
  {
    assert SendPipeline.Buffers([]) == [];
    forall id: nat ensures PeerLife.PhaseOf(s.h.log, id) == PeerLife.Standing(s, id) {
      assert Of(s.h.log, id) == [];
    }
    forall id: nat ensures OnWire(s, id) == Flatten(SendPipeline.Portions(s.h.handled, id)) {
      assert SendPipeline.Portions([], id) == [];
    }
  }

  lemma StepKeepsInv(s: State, a: Action)
    requires Inv(s) && Enabled(s, a)
    ensures Inv(Apply(s, a))
  {
    PeerLife.IdsKept(s, a);
    PeerLife.OrderIsKept(s, a);
    SocketLedger.LedgerIsKept(s, a);
    SendPipeline.PipelineIsKept(s, a);
    ConnectQueue.QueueIsKept(s, a);
  }

  lemma {:induction false} RunKeepsInv(s: State, run: seq<Action>)
    requires Inv(s) && ValidRun(s, run)
    ensures Inv(After(s, run))
    decreases |run|
  {
    if run != [] {
      StepKeepsInv(s, run[0]);
      RunKeepsInv(Apply(s, run[0]), run[1..]);
    }
  }

  /** The main results, for a node from construction on and any interleaving of
      its users, its three threads, the sockets and other nodes. */
  lemma EveryRun(s: State, run: seq<Action>)
    requires Init(s) && ValidRun(s, run)
    ensures Inv(After(s, run))
    ensures forall id: nat :: PeerLife.PhaseOf(After(s, run).h.log, id) != PeerLife.Broken
  {
    InitHasInv(s);
    RunKeepsInv(s, run);
    var t := After(s, run);
    forall id: nat ensures PeerLife.PhaseOf(t.h.log, id) != PeerLife.Broken {
      assert PeerLife.PhaseOf(t.h.log, id) == PeerLife.Standing(t, id);
    }
  }

  /** A connection number is never one that any node used before. */
  lemma NewIdsAreFresh(s: State, a: Action, id: nat)
    requires Inv(s) && Enabled(s, a)
    requires id in Apply(s, a).peers && id !in s.peers
    ensures id !in s.h.used && id == Apply(s, a).counter
    ensures Apply(s, a).h.issued == s.h.issued + [id]
  {
    if a.ListenSection? {
      SectionInserts(s, a.order, a.acc, a.recv, a.endTold, id);
    } else if a.ConnectWon? {
      assert DoConnectWon(s, a.ip, a.port, a.host).peers.Keys == s.peers.Keys + {s.counter + 1};
    } else if !a.SendOne? {
      OthersInsertNothing(s, a);
    }
  }

  lemma SectionInserts(s: State, order: seq<nat>, acc: AcceptAnswer, recv: nat -> ReceiveAnswer, told: bool, id: nat)
    requires PeerLife.IdsFit(s) && Enumerates(order, DoAccept(s, acc).peers.Keys)
    requires id in DoListenSection(s, order, acc, recv, told).peers && id !in s.peers
    ensures var t := DoListenSection(s, order, acc, recv, told);
      id !in s.h.used && id == t.counter && t.h.issued == s.h.issued + [id]
  {
    var s1 := DoAccept(s, acc);
    var s2 := DoSweep(s1, order, recv);
    SweepVisitsEachOnce(s1, order, recv, id);
    assert DoDelete(s2, order, told).peers.Keys <= s2.peers.Keys == s1.peers.Keys;
  }

  lemma OthersInsertNothing(s: State, a: Action)
    requires Enabled(s, a) && !a.ListenSection? && !a.ConnectWon? && !a.SendOne?
    ensures Apply(s, a).peers.Keys == s.peers.Keys
  {
  }

  /** Sockets produced, freed and owned balance, and no socket is freed twice. */
  lemma LedgerBalances(s: State)
    requires Inv(s)
    ensures s.h.made == SocketLedger.Sockets(s.peers) + SocketLedger.InFlight(s.conn) + SocketLedger.Freed(s) + {s.listener}
    ensures Live(s) == SocketLedger.Sockets(s.peers) + SocketLedger.InFlight(s.conn) + {s.listener}
    ensures NoRepeats(s.h.freed)
    ensures |SocketLedger.Sockets(s.peers)| == |s.peers|
  {
    SocketLedger.OwnersAreLive(s);
    OneSocketEach(s.peers);
  }

  lemma {:induction false} OneSocketEach(peers: map<nat, PeerData>)
    requires SocketLedger.OwnSockets(peers)
    ensures |SocketLedger.Sockets(peers)| == |peers|
    decreases |peers|
  {
    if peers == map[] {
    } else {
      var id :| id in peers;
      var rest := peers - {id};
      SocketLedger.EraseSocket(peers, id);
      assert peers[id].socket.value in SocketLedger.Sockets(peers);
      assert |rest| == |peers| - 1 by { assert rest.Keys == peers.Keys - {id}; }
      OneSocketEach(rest);
    }
  }

  // ---- disconnectAll ------------------------------------------------------

  /** No new peer comes in. */
  predicate Quiet(a: Action) {
    !a.ConnectWon? && (a.ListenSection? ==> !a.acc.Incoming?)
  }

  function Passes(run: seq<Action>): nat {
    if run == [] then 0 else (if run[0].ListenSection? then 1 else 0) + Passes(run[1..])
  }

  ghost predicate AllClosing(s: State) {
    forall id :: id in s.peers ==> s.peers[id].toBeDeleted && s.peers[id].disconn == WasDisconnected
  }

  datatype End = End(id: nat, why: DisconnectType)

  function Ends(log: seq<Event>): seq<End> {
    if log == [] then []
    else (if log[0].Ended? then [End(log[0].id, log[0].why)] else []) + Ends(log[1..])
  }

  lemma {:induction false} EndsAppend(xs: seq<Event>, ys: seq<Event>)
    ensures Ends(xs + ys) == Ends(xs) + Ends(ys)
  {
    if xs == [] {
      assert xs + ys == ys;
    } else {
      var first := if xs[0].Ended? then [End(xs[0].id, xs[0].why)] else [];
      assert (xs + ys)[0] == xs[0] && (xs + ys)[1..] == xs[1..] + ys;
      EndsAppend(xs[1..], ys);
      assert Ends(xs) == first + Ends(xs[1..]);
      assert Ends(xs + ys) == first + (Ends(xs[1..]) + Ends(ys));
    }
  }

  lemma NoEnds(xs: seq<Event>, es: seq<Event>)
    requires forall e :: e in es ==> !e.Ended?
    ensures Ends(xs + es) == Ends(xs)
  {
    EndsAppend(xs, es);
    NoEndsAlone(es);
  }

  lemma {:induction false} NoEndsAlone(es: seq<Event>)
    requires forall e :: e in es ==> !e.Ended?
    ensures Ends(es) == []
  {
    if es != [] {
      NoEndsAlone(es[1..]);
    }
  }

  /** A pass over peers that are all being closed passes over them and erases
      one, if there is one. */
  lemma ClosingPass(s: State, order: seq<nat>, acc: AcceptAnswer, recv: nat -> ReceiveAnswer, told: bool) returns (id: nat)
    requires AllClosing(s) && !acc.Incoming? && Enumerates(order, s.peers.Keys)
    ensures var t := DoListenSection(s, order, acc, recv, told);
      if s.peers == map[] then t.peers == map[] && Ends(t.h.log) == Ends(s.h.log)
      else id in s.peers && t.peers == s.peers - {id} && Ends(t.h.log) == Ends(s.h.log) + [End(id, WasDisconnected)]
  {
    var s2 := DoSweep(DoAccept(s, acc), order, recv);
    ClosingSweep(s, order, acc, recv);
    FirstMarkedFinds(s2.peers, order);
    if s.peers == map[] {
      id := 0;
    } else {
      var x :| x in s.peers;
      assert x in order;
      id := FirstMarked(s2.peers, order).value;
      ClosingErase(s2, id, told);
    }
  }

  lemma ClosingSweep(s: State, order: seq<nat>, acc: AcceptAnswer, recv: nat -> ReceiveAnswer)
    requires AllClosing(s) && !acc.Incoming? && Enumerates(order, s.peers.Keys)
    ensures var t := DoSweep(DoAccept(s, acc), order, recv); t.peers == s.peers && Ends(t.h.log) == Ends(s.h.log)
  {
    var s1 := DoAccept(s, acc);
    NoEnds(s.h.log, s1.h.log[|s.h.log|..]);
    assert s1.h.log == s.h.log + s1.h.log[|s.h.log|..];
    SweepMapIsSwept(s1.peers, order, recv);
    assert DoSweep(s1, order, recv).peers == s1.peers;
    MarkedSweepIsSilent(s1.peers, order, recv);
    assert s1.h.log + [] == s1.h.log;
  }

  lemma ClosingErase(s: State, id: nat, told: bool)
    requires id in s.peers && s.peers[id].disconn == WasDisconnected
    ensures Ends(Erased(s, id, told).h.log) == Ends(s.h.log) + [End(id, WasDisconnected)]
  {
    var e := Ended(id, WasDisconnected, s.peers[id].errmsg, told);
    EndsAppend(s.h.log, [e]);
    assert Ends([e][1..]) == [];
  }

  lemma {:induction false} MarkedSweepIsSilent(peers: map<nat, PeerData>, order: seq<nat>, recv: nat -> ReceiveAnswer)
    requires forall id :: id in peers ==> peers[id].toBeDeleted
    ensures SweepLog(peers, order, recv) == []
    decreases |order|
  {
    if order != [] {
      var id := order[0];
      if id in peers {
        assert peers[id := SweepPeer(peers[id], recv(id))] == peers;
      }
      MarkedSweepIsSilent(peers, order[1..], recv);
    }
  }

  lemma ClosingSend(s: State, o: SendAnswer)
    requires AllClosing(s) && Enabled(s, SendOne(o))
    ensures var t := DoSendOne(s, o); t.peers == s.peers && AllClosing(t) && Ends(t.h.log) == Ends(s.h.log)
  {
    var t := DoSendOne(s, o);
    var es := t.h.log[|s.h.log|..];
    assert t.h.log == s.h.log + es;
    NoEnds(s.h.log, es);
  }

  lemma ClosingOther(s: State, a: Action)
    requires AllClosing(s) && Enabled(s, a) && Quiet(a) && !a.ListenSection? && !a.SendOne?
    ensures var t := Apply(s, a); AllClosing(t) && t.peers.Keys == s.peers.Keys && Ends(t.h.log) == Ends(s.h.log)
  {
    OthersInsertNothing(s, a);
    OthersLeaveClosing(s, a);
    var t := Apply(s, a);
    NoEnds(s.h.log, t.h.log[|s.h.log|..]);
  }

  lemma OthersLeaveClosing(s: State, a: Action)
    requires AllClosing(s) && Enabled(s, a) && Quiet(a) && !a.ListenSection? && !a.SendOne?
    ensures var t := Apply(s, a);
      && AllClosing(t) && |s.h.log| <= |t.h.log| && t.h.log == s.h.log + t.h.log[|s.h.log|..]
      && forall e :: e in t.h.log[|s.h.log|..] ==> !e.Ended?
  {
  }

  ghost predicate EndsAre(ends: seq<End>, ids: set<nat>) {
    && (forall i, j :: 0 <= i < j < |ends| ==> ends[i].id != ends[j].id)
    && (forall e :: e in ends ==> e.why == WasDisconnected && e.id in ids)
  }

  /** From s to t with k listen passes: one peer closed for each pass, as long
      as there was one. */
  ghost predicate ClosedBy(s: State, t: State, ends: seq<End>, k: nat) {
    && AllClosing(t)
    && t.peers.Keys <= s.peers.Keys
    && Ends(t.h.log) == Ends(s.h.log) + ends
    && EndsAre(ends, s.peers.Keys - t.peers.Keys)
    && |ends| == |s.peers| - |t.peers| == if k <= |s.peers| then k else |s.peers|
  }

  lemma ClosingStep(s: State, a: Action) returns (ends: seq<End>)
    requires AllClosing(s) && Enabled(s, a) && Quiet(a)
    ensures ClosedBy(s, Apply(s, a), ends, if a.ListenSection? then 1 else 0)
  {
    if a.ListenSection? {
      assert DoAccept(s, a.acc).peers == s.peers;
      ends := ClosingSection(s, a.order, a.acc, a.recv, a.endTold);
    } else {
      if a.SendOne? { ClosingSend(s, a.answer); } else { ClosingOther(s, a); }
      ends := [];
      NobodyClosed(s, Apply(s, a));
    }
  }

  lemma NobodyClosed(s: State, t: State)
    requires AllClosing(t) && t.peers.Keys == s.peers.Keys && Ends(t.h.log) == Ends(s.h.log)
    ensures ClosedBy(s, t, [], 0)
  {
    SizeOfRest(s.peers, t.peers, {});
  }

  lemma ClosingSection(s: State, order: seq<nat>, acc: AcceptAnswer, recv: nat -> ReceiveAnswer, told: bool) returns (ends: seq<End>)
    requires AllClosing(s) && !acc.Incoming? && Enumerates(order, s.peers.Keys)
    ensures ClosedBy(s, DoListenSection(s, order, acc, recv, told), ends, 1)
  {
    var id := ClosingPass(s, order, acc, recv, told);
    ends := if s.peers == map[] then [] else [End(id, WasDisconnected)];
    SizeOfRest(s.peers, DoListenSection(s, order, acc, recv, told).peers, if s.peers == map[] then {} else {id});
  }

  lemma SizeOfRest(m: map<nat, PeerData>, n: map<nat, PeerData>, gone: set<nat>)
    requires n.Keys == m.Keys - gone && gone <= m.Keys
    ensures |n| == |m| - |gone|
  {
    assert |n.Keys| == |m.Keys| - |gone|;
  }

  /** From then on each pass closes one peer, until none is left, and nothing
      else ends a peer. */
  lemma {:induction false} ClosingRun(s: State, run: seq<Action>) returns (ends: seq<End>)
    requires AllClosing(s) && ValidRun(s, run)
    requires forall a :: a in run ==> Quiet(a)
    ensures ClosedBy(s, After(s, run), ends, Passes(run))
    decreases |run|
  {
    if run == [] {
      ends := [];
    } else {
      var a := run[0];
      assert a in run;
      var first := ClosingStep(s, a);
      var rest := ClosingRun(Apply(s, a), run[1..]);
      ends := first + rest;
      ClosedJoin(s, Apply(s, a), After(s, run), first, rest, if a.ListenSection? then 1 else 0, Passes(run[1..]));
    }
  }

  lemma ClosedJoin(s: State, u: State, t: State, xs: seq<End>, ys: seq<End>, k: nat, l: nat)
    requires ClosedBy(s, u, xs, k) && ClosedBy(u, t, ys, l)
    ensures ClosedBy(s, t, xs + ys, k + l)
  {
    EndsJoin(xs, ys, s.peers.Keys, u.peers.Keys, t.peers.Keys);
  }

  lemma EndsJoin(xs: seq<End>, ys: seq<End>, a: set<nat>, b: set<nat>, c: set<nat>)
    requires c <= b <= a && EndsAre(xs, a - b) && EndsAre(ys, b - c)
    ensures EndsAre(xs + ys, a - c)
  {
    forall i, j | 0 <= i < j < |xs + ys| ensures (xs + ys)[i].id != (xs + ys)[j].id {
      if i < |xs| <= j {
        assert xs[i] in xs && ys[j - |xs|] in ys;
      }
    }
  }

  /** disconnectAll, and after it as many listen passes as there were peers:
      the map is empty, and every peer was told closed exactly once. */
  lemma DisconnectAllDrains(s: State, all: seq<nat>, run: seq<Action>) returns (ends: seq<End>)
    requires Inv(s) && Enabled(s, DisconnectAll(all))
    requires ValidRun(DoDisconnectAll(s, all), run)
    requires (forall a :: a in run ==> Quiet(a)) && Passes(run) == |s.peers|
    ensures var t := After(DoDisconnectAll(s, all), run);
      && t.peers == map[]
      && Ends(t.h.log) == Ends(s.h.log) + ends
      && |ends| == |s.peers|
      && EndsAre(ends, s.peers.Keys)
      && forall id :: id in s.peers ==> End(id, WasDisconnected) in ends
  {
    var s1 := DoDisconnectAll(s, all);
    NoEnds(s.h.log, AllMarked(all));
    assert s1.peers.Keys == s.peers.Keys;
    assert |s1.peers| == |s.peers| by { assert |s1.peers.Keys| == |s.peers.Keys|; }
    ends := ClosingRun(s1, run);
    EndsCover(ends, s.peers.Keys);
  }

  lemma {:induction false} EndsCover(ends: seq<End>, ids: set<nat>)
    requires EndsAre(ends, ids) && |ends| == |ids|
    ensures forall id :: id in ids ==> End(id, WasDisconnected) in ends
    decreases |ends|
  {
    if ends == [] {
    } else {
      var e := ends[0];
      assert ends == [e] + ends[1..];
      assert EndsAre(ends[1..], ids - {e.id});
      EndsCover(ends[1..], ids - {e.id});
    }
  }
}
