/** What disconnectPeer comes to: the peer is closed, once, and is silent until then. */
module Disconnecting {
  import opened Common
  import opened PeerPrivate
  import opened NodeState
  import opened ReceiveSweep
  import opened NodeRuns
  import PeerLife
  import Effects
  import PeerStories
  import LateConnected

  ghost predicate Doomed(s: State, id: nat) {
    id in s.peers && s.peers[id].toBeDeleted && s.peers[id].disconn == WasDisconnected
  }

  /** Nothing but further calls to disconnect the peer. */
  ghost predicate OnlyMarks(es: seq<Event>, id: nat) {
    forall e :: e in es ==> e == Marked(id, WasDisconnected)
  }

  ghost predicate Grows(s: State, t: State, es: seq<Event>) {
    t.h.log == s.h.log + es
  }

  lemma GrowsOn(s: State, u: State, t: State, xs: seq<Event>, ys: seq<Event>, id: nat)
    requires Grows(s, u, xs) && Grows(u, t, ys)
    ensures Grows(s, t, xs + ys) && Of(xs + ys, id) == Of(xs, id) + Of(ys, id)
  {
    assert (s.h.log + xs) + ys == s.h.log + (xs + ys);
    OfAppend(xs, ys, id);
  }

  // ---- one step -----------------------------------------------------------

  /** A section passes over the doomed peer and erases it or another marked one. */
  lemma SectionDooms(s: State, order: seq<nat>, acc: AcceptAnswer, recv: nat -> ReceiveAnswer, told: bool, id: nat)
      returns (es: seq<Event>)
    requires PeerLife.IdsFit(s) && Doomed(s, id) && Enumerates(order, DoAccept(s, acc).peers.Keys)
    ensures var t := DoListenSection(s, order, acc, recv, told);
      && Grows(s, t, es)
      && (id in t.peers ==> t.peers[id] == s.peers[id] && Of(es, id) == [])
      && (id !in t.peers ==> Of(es, id) == [Ended(id, WasDisconnected, s.peers[id].errmsg, told)])
  {
    var s1 := DoAccept(s, acc);
    var s2 := DoSweep(s1, order, recv);
    Effects.AcceptEffect(s, acc);
    SweepVisitsEachOnce(s1, order, recv, id);
    FirstMarkedFinds(s2.peers, order);
    es := LateConnected.SectionEvents(s, order, acc, recv, told);
    LateConnected.SectionAdds(s, order, acc, recv, told);
    SectionIsSilent(s, order, acc, recv, told, id);
  }

  lemma SectionIsSilent(s: State, order: seq<nat>, acc: AcceptAnswer, recv: nat -> ReceiveAnswer, told: bool, id: nat)
    requires PeerLife.IdsFit(s) && Doomed(s, id) && Enumerates(order, DoAccept(s, acc).peers.Keys)
    ensures var s2 := DoSweep(DoAccept(s, acc), order, recv);
      Of(LateConnected.SectionEvents(s, order, acc, recv, told), id) ==
      if FirstMarked(s2.peers, order) == Some(id) then [Ended(id, WasDisconnected, s.peers[id].errmsg, told)] else []
  {
    var s1 := DoAccept(s, acc);
    var s2 := DoSweep(s1, order, recv);
    AcceptPassesOver(s, acc, id);
    SweepVisitsEachOnce(s1, order, recv, id);
    var a, b, c := LateConnected.AcceptEvents(s, acc), SweepLog(s1.peers, order, recv), LateConnected.DeleteEvents(s2, order, told);
    OfAppend(a, b + c, id);
    OfAppend(b, c, id);
    SweepLogOf(s1.peers, order, recv, id);
    DeleteTells(s2, order, told, id);
  }

  lemma AcceptPassesOver(s: State, acc: AcceptAnswer, id: nat)
    requires PeerLife.IdsFit(s) && Doomed(s, id)
    ensures var t := DoAccept(s, acc);
      id in t.peers && t.peers[id] == s.peers[id] && Of(LateConnected.AcceptEvents(s, acc), id) == []
  {
    var es := LateConnected.AcceptEvents(s, acc);
    Effects.AcceptEffect(s, acc);
    if es != [] { PeerLife.OneEvent(es[0], id, PeerLife.Open); assert es == [es[0]]; }
  }

  lemma DeleteTells(s: State, order: seq<nat>, told: bool, id: nat)
    requires Doomed(s, id) && Enumerates(order, s.peers.Keys)
    ensures Of(LateConnected.DeleteEvents(s, order, told), id) ==
            if FirstMarked(s.peers, order) == Some(id) then [Ended(id, WasDisconnected, s.peers[id].errmsg, told)] else []
  {
    var es := LateConnected.DeleteEvents(s, order, told);
    FirstMarkedFinds(s.peers, order);
    if es != [] { PeerLife.OneEvent(es[0], id, PeerLife.Open); assert es == [es[0]]; }
  }

  /** The events of a step that is no section. */
  function NewEvents(s: State, t: State): seq<Event> {
    if |s.h.log| <= |t.h.log| then t.h.log[|s.h.log|..] else []
  }

  lemma SendDooms(s: State, o: SendAnswer, id: nat)
    requires Doomed(s, id) && Enabled(s, SendOne(o))
    ensures var t := DoSendOne(s, o); var es := NewEvents(s, t);
      Grows(s, t, es) && id in t.peers && t.peers[id] == s.peers[id] && Of(es, id) == []
  {
    var t := DoSendOne(s, o);
    var es := NewEvents(s, t);
    Effects.SendOneEffect(s, o);
    if es != [] { PeerLife.OneEvent(es[0], id, PeerLife.Open); assert es == [es[0]]; }
  }

  lemma CallsDoom(s: State, a: Action, id: nat)
    requires PeerLife.IdsFit(s) && Doomed(s, id) && Enabled(s, a) && (a.DisconnectPeer? || a.DisconnectAll?)
    ensures var t := Apply(s, a); var es := NewEvents(s, t);
      Grows(s, t, es) && id in t.peers && t.peers[id] == s.peers[id] && OnlyMarks(Of(es, id), id)
  {
    var t := Apply(s, a);
    var es := NewEvents(s, t);
    if a.DisconnectAll? {
      Effects.DisconnectAllEffect(s, a.all);
      PeerLife.AllMarkedOf(a.all, id);
    } else {
      Effects.DisconnectPeerEffect(s, a.id);
      if es != [] { PeerLife.OneEvent(es[0], id, PeerLife.Open); assert es == [es[0]]; }
    }
  }

  lemma WonDooms(s: State, a: Action, id: nat)
    requires PeerLife.IdsFit(s) && Doomed(s, id) && Enabled(s, a) && a.ConnectWon?
    ensures var t := Apply(s, a); var es := NewEvents(s, t);
      Grows(s, t, es) && id in t.peers && t.peers[id] == s.peers[id] && Of(es, id) == []
  {
    Effects.WonEffect(s, a.ip, a.port, a.host);
    PeerLife.OneEvent(Joined(s.counter + 1), id, PeerLife.Open);
    assert NewEvents(s, Apply(s, a)) == [Joined(s.counter + 1)];
  }

  lemma OthersDoom(s: State, a: Action, id: nat)
    requires Doomed(s, id) && Enabled(s, a)
    requires !a.ListenSection? && !a.SendOne? && !a.DisconnectPeer? && !a.DisconnectAll? && !a.ConnectWon?
    ensures var t := Apply(s, a); var es := NewEvents(s, t);
      Grows(s, t, es) && t.peers == s.peers && (es == [] || (exists e :: es == [e] && About(e) == None))
  {
  }

  lemma StepDooms(s: State, a: Action, id: nat) returns (es: seq<Event>)
    requires PeerLife.IdsFit(s) && Doomed(s, id) && Enabled(s, a)
    ensures var t := Apply(s, a);
      && Grows(s, t, es)
      && (id in t.peers ==> t.peers[id] == s.peers[id] && OnlyMarks(Of(es, id), id))
      && (id !in t.peers ==> a.ListenSection? && Of(es, id) == [Ended(id, WasDisconnected, s.peers[id].errmsg, a.endTold)])
  {
    if a.ListenSection? {
      es := SectionDooms(s, a.order, a.acc, a.recv, a.endTold, id);
    } else {
      es := NewEvents(s, Apply(s, a));
      if a.SendOne? {
        SendDooms(s, a.answer, id);
      } else if a.DisconnectPeer? || a.DisconnectAll? {
        CallsDoom(s, a, id);
      } else if a.ConnectWon? {
        WonDooms(s, a, id);
      } else {
        OthersDoom(s, a, id);
        if es != [] { PeerLife.OneEvent(es[0], id, PeerLife.Open); assert es == [es[0]]; }
      }
    }
  }

  // ---- after the end ------------------------------------------------------

  lemma OverIsSilent(es: seq<Event>, id: nat)
    requires PeerLife.Feed(PeerLife.Over, Of(es, id)) == PeerLife.Over
    ensures Of(es, id) == []
  {
    var own := Of(es, id);
    if own != [] {
      LateConnected.OfHolds(es, id, own[0]);
      assert PeerLife.Advance(PeerLife.Over, own[0]) == PeerLife.Broken;
      PeerStories.BrokenStays(own[1..]);
    }
  }

  lemma GoneStep(s: State, a: Action, id: nat) returns (es: seq<Event>)
    requires Inv(s) && Enabled(s, a) && id !in s.peers && id in s.h.issued
    ensures Grows(s, Apply(s, a), es) && Of(es, id) == []
    ensures id !in Apply(s, a).peers && id in Apply(s, a).h.issued
  {
    var t := Apply(s, a);
    if id in t.peers { NewIdsAreFresh(s, a, id); }
    LateConnected.WaitMoves(s, a, id);
    es := EventsOf(s, a);
    StepKeepsInv(s, a);
    assert PeerLife.PhaseOf(s.h.log, id) == PeerLife.Standing(s, id) == PeerLife.Over;
    assert PeerLife.PhaseOf(t.h.log, id) == PeerLife.Standing(t, id) == PeerLife.Over;
    OfAppend(s.h.log, es, id);
    PeerLife.FeedAppend(PeerLife.Absent, Of(s.h.log, id), Of(es, id));
    OverIsSilent(es, id);
  }

  lemma EventsOf(s: State, a: Action) returns (es: seq<Event>)
    requires Enabled(s, a)
    ensures Grows(s, Apply(s, a), es)
  {
    if a == ConnectAnnounce(true) {
      es := [Connected(s.conn.id)];
    } else {
      es := LateConnected.StepTells(s, a, 0);
    }
  }

  // ---- over runs ----------------------------------------------------------

  /** What was told of the peer since: marks, and its end once it is gone. */
  ghost predicate Story(es: seq<Event>, id: nat, err: Message, gone: bool) {
    if !gone then OnlyMarks(es, id)
    else
      && es != [] && OnlyMarks(es[..|es| - 1], id)
      && exists told :: es[|es| - 1] == Ended(id, WasDisconnected, err, told)
  }

  lemma StoryGoesOn(es: seq<Event>, rest: seq<Event>, id: nat, err: Message, gone: bool)
    requires OnlyMarks(es, id) && Story(rest, id, err, gone)
    ensures Story(es + rest, id, err, gone)
  {
    if gone {
      var all := es + rest;
      assert all[..|all| - 1] == es + rest[..|rest| - 1];
      assert all[|all| - 1] == rest[|rest| - 1];
    }
  }

  lemma {:induction false} SilentRun(s: State, run: seq<Action>, id: nat) returns (es: seq<Event>)
    requires Inv(s) && ValidRun(s, run) && id !in s.peers && id in s.h.issued
    ensures Grows(s, After(s, run), es) && Of(es, id) == [] && id !in After(s, run).peers
    decreases |run|
  {
    if run == [] {
      es := [];
    } else {
      var first := GoneStep(s, run[0], id);
      StepKeepsInv(s, run[0]);
      var rest := SilentRun(Apply(s, run[0]), run[1..], id);
      es := first + rest;
      GrowsOn(s, Apply(s, run[0]), After(s, run), first, rest, id);
    }
  }

  lemma {:induction false} DoomedRun(s: State, run: seq<Action>, id: nat) returns (es: seq<Event>)
    requires Inv(s) && ValidRun(s, run) && Doomed(s, id)
    ensures var t := After(s, run);
      Grows(s, t, es) && Story(Of(es, id), id, s.peers[id].errmsg, id !in t.peers)
    decreases |run|
  {
    if run == [] {
      es := [];
    } else {
      var a, u := run[0], Apply(s, run[0]);
      var first := StepDooms(s, a, id);
      StepKeepsInv(s, a);
      var rest;
      if id in u.peers {
        rest := DoomedRun(u, run[1..], id);
        StoryGoesOn(Of(first, id), Of(rest, id), id, s.peers[id].errmsg, id !in After(s, run).peers);
      } else {
        LateConnected.WaitMoves(s, a, id);
        rest := SilentRun(u, run[1..], id);
        StoryEnds(Of(first, id), Of(rest, id), id, s.peers[id].errmsg, a.endTold);
      }
      es := first + rest;
      GrowsOn(s, u, After(s, run), first, rest, id);
    }
  }

  lemma StoryEnds(own: seq<Event>, rest: seq<Event>, id: nat, err: Message, told: bool)
    requires own == [Ended(id, WasDisconnected, err, told)] && rest == []
    ensures Story(own + rest, id, err, true)
  {
    assert own + rest == own && own[..0] == [];
  }

  /** Each pass erases a peer as long as a marked one is there. */
  lemma PassErasesOne(s: State, order: seq<nat>, acc: AcceptAnswer, recv: nat -> ReceiveAnswer, told: bool, id: nat)
    requires PeerLife.IdsFit(s) && Doomed(s, id) && !acc.Incoming? && Enumerates(order, DoAccept(s, acc).peers.Keys)
    ensures |DoListenSection(s, order, acc, recv, told).peers| == |s.peers| - 1
  {
    var s1 := DoAccept(s, acc);
    var s2 := DoSweep(s1, order, recv);
    assert s1.peers == s.peers;
    SweepVisitsEachOnce(s1, order, recv, id);
    SizeOfRest(s.peers, s2.peers, {});
    DeleteErasesOne(s2, order, told, id);
  }

  lemma DeleteErasesOne(s: State, order: seq<nat>, told: bool, id: nat)
    requires Doomed(s, id) && Enumerates(order, s.peers.Keys)
    ensures |DoDelete(s, order, told).peers| == |s.peers| - 1
  {
    FirstMarkedFinds(s.peers, order);
    assert id in order && s.peers[id].toBeDeleted;
    SizeOfRest(s.peers, DoDelete(s, order, told).peers, {FirstMarked(s.peers, order).value});
  }

  lemma StepSize(s: State, a: Action, id: nat)
    requires PeerLife.IdsFit(s) && Doomed(s, id) && Enabled(s, a) && Quiet(a)
    ensures |Apply(s, a).peers| + (if a.ListenSection? then 1 else 0) == |s.peers|
  {
    if a.ListenSection? {
      PassErasesOne(s, a.order, a.acc, a.recv, a.endTold, id);
    } else {
      if a.SendOne? { Effects.SendOneEffect(s, a.answer); } else { OthersInsertNothing(s, a); }
      SizeOfRest(s.peers, Apply(s, a).peers, {});
    }
  }

  lemma {:induction false} PassesErase(s: State, run: seq<Action>, id: nat)
    requires Inv(s) && ValidRun(s, run) && Doomed(s, id) && forall a :: a in run ==> Quiet(a)
    ensures id in After(s, run).peers ==> |After(s, run).peers| + Passes(run) == |s.peers|
    decreases |run|
  {
    if run != [] {
      var a, u := run[0], Apply(s, run[0]);
      assert a in run;
      var first := StepDooms(s, a, id);
      StepSize(s, a, id);
      StepKeepsInv(s, a);
      if id in u.peers {
        PassesErase(u, run[1..], id);
      } else {
        LateConnected.WaitMoves(s, a, id);
        var rest := SilentRun(u, run[1..], id);
      }
    }
  }

  /** disconnectPeer for a peer in the map, and after it, without new peers, as many
      passes as there were peers: the peer is gone, and since the call nothing was
      told of it but marks for being disconnected and one end of that kind. */
  lemma DisconnectPeerCloses(s: State, id: nat, run: seq<Action>) returns (es: seq<Event>)
    requires Inv(s) && id in s.peers && ValidRun(DoDisconnectPeer(s, id), run)
    requires (forall a :: a in run ==> Quiet(a)) && Passes(run) >= |s.peers|
    ensures var t := After(DoDisconnectPeer(s, id), run);
      id !in t.peers && Grows(s, t, es) && Story(Of(es, id), id, s.peers[id].errmsg, true)
  {
    var s1 := DoDisconnectPeer(s, id);
    var mark := Marked(id, WasDisconnected);
    Effects.DisconnectPeerEffect(s, id);
    StepKeepsInv(s, DisconnectPeer(id));
    var rest := DoomedRun(s1, run, id);
    PassesFinish(s, s1, run, id);
    PeerLife.OneEvent(mark, id, PeerLife.Open);
    StoryGoesOn([mark], Of(rest, id), id, s.peers[id].errmsg, true);
    es := [mark] + rest;
    GrowsOn(s, s1, After(s1, run), [mark], rest, id);
  }

  lemma PassesFinish(s: State, s1: State, run: seq<Action>, id: nat)
    requires Inv(s1) && Doomed(s1, id) && s1.peers.Keys == s.peers.Keys && ValidRun(s1, run)
    requires (forall a :: a in run ==> Quiet(a)) && Passes(run) >= |s.peers|
    ensures id !in After(s1, run).peers
  {
    PassesErase(s1, run, id);
    SizeOfRest(s.peers, s1.peers, {});
    var t := After(s1, run);
    assert |t.peers| == 0 ==> t.peers == map[];
  }
}
