/** `Connected` is announced after the data mutex was released, so it need not be
    the first thing the user hears of a connection: exactly when not. */
module LateConnected {
  import opened Common
  import opened PeerPrivate
  import opened NodeState
  import opened ReceiveSweep
  import opened NodeRuns
  import opened NodeScenarios
  import PeerLife
  import PeerStories
  import ConnectQueue

  // ---- what the user hears ------------------------------------------------

  /** A callback about the peer, other than those that introduce it. */
  predicate Tells(e: Event, id: nat) {
    (e.Received? || e.Sent? || e.Ended?) && e.id == id && e.told
  }

  ghost predicate SomeTold(log: seq<Event>, id: nat) {
    exists e :: e in log && Tells(e, id)
  }

  /** The user hears of the peer before Connected. */
  ghost predicate Late(log: seq<Event>, id: nat) {
    exists j :: 0 <= j < |log| && log[j] == Connected(id) && SomeTold(log[..j], id)
  }

  // ---- what makes the user hear it ----------------------------------------

  /** In this step the environment answers for the peer: its socket delivers, or
      takes bytes, or the peer is the one erased, and a callback is there. */
  predicate Answers(s: State, a: Action, id: nat) {
    match a
    case ListenSection(order, acc, recv, endTold) =>
      var s1 := DoAccept(s, acc);
      || (id in s1.peers && !s1.peers[id].toBeDeleted && Outcome(s1.peers[id], recv(id)).OK? && recv(id).told)
      || (FirstMarked(DoSweep(s1, order, recv).peers, order) == Some(id) && endTold)
    case SendOne(o) =>
      && s.outbox != [] && s.outbox[0].id == id
      && id in s.peers && !s.peers[id].toBeDeleted && o.taken > 0 && o.sentTold
    case _ => false
  }

  /** The connect thread is between lines 591 and 596 with this connection. */
  predicate Waiting(s: State, id: nat) {
    s.conn.Announcing? && s.conn.id == id
  }

  ghost function At(s: State, run: seq<Action>, k: nat): State
    requires ValidRun(s, run) && k <= |run|
    decreases k
  {
    if k == 0 then s else At(Apply(s, run[0]), run[1..], k - 1)
  }

  ghost predicate AnsweredAt(s: State, run: seq<Action>, id: nat, k: nat)
    requires ValidRun(s, run) && k < |run|
  {
    Waiting(At(s, run, k), id) && Answers(At(s, run, k), run[k], id)
  }

  ghost predicate AnsweredBy(s: State, run: seq<Action>, id: nat, m: nat)
    requires ValidRun(s, run) && m <= |run|
  {
    exists k :: 0 <= k < m && AnsweredAt(s, run, id, k)
  }

  ghost predicate AnnouncedAt(s: State, run: seq<Action>, id: nat, m: nat)
    requires ValidRun(s, run) && m < |run|
  {
    Waiting(At(s, run, m), id) && run[m] == ConnectAnnounce(true)
  }

  /** Some section or send answers for the peer in the window before its
      announcement.  (`before`: one already did, before this run.) */
  ghost predicate InWindow(s: State, run: seq<Action>, id: nat, before: bool)
    requires ValidRun(s, run)
  {
    exists m :: 0 <= m < |run| && AnnouncedAt(s, run, id, m) && (before || AnsweredBy(s, run, id, m))
  }

  // ---- one step -----------------------------------------------------------

  ghost predicate Adds(s: State, t: State, es: seq<Event>) {
    t.h.log == s.h.log + es
  }

  lemma {:induction false} OfHolds(es: seq<Event>, id: nat, e: Event)
    ensures e in Of(es, id) <==> e in es && About(e) == Some(id)
  {
    if es != [] {
      OfHolds(es[1..], id, e);
      assert es == [es[0]] + es[1..];
    }
  }

  lemma ToldAppend(xs: seq<Event>, ys: seq<Event>, id: nat)
    ensures SomeTold(xs + ys, id) <==> SomeTold(xs, id) || SomeTold(ys, id)
  {
    if SomeTold(xs, id) {
      var e :| e in xs && Tells(e, id);
      assert e in xs + ys;
    }
    if SomeTold(ys, id) {
      var e :| e in ys && Tells(e, id);
      assert e in xs + ys;
    }
  }

  lemma SweepTells(s: State, order: seq<nat>, recv: nat -> ReceiveAnswer, id: nat)
    requires Enumerates(order, s.peers.Keys)
    ensures SomeTold(SweepLog(s.peers, order, recv), id) <==>
            id in s.peers && !s.peers[id].toBeDeleted && Outcome(s.peers[id], recv(id)).OK? && recv(id).told
  {
    var es := SweepLog(s.peers, order, recv);
    SweepLogOf(s.peers, order, recv, id);
    forall e: Event | Tells(e, id) ensures e in es <==> e in Of(es, id) {
      OfHolds(es, id, e);
    }
    if id in s.peers && !s.peers[id].toBeDeleted && Outcome(s.peers[id], recv(id)).OK? && recv(id).told {
      var e := Received(id, recv(id).data, true);
      assert Of(es, id) == [e] && e in Of(es, id) && Tells(e, id);
    }
  }

  function AcceptEvents(s: State, acc: AcceptAnswer): seq<Event> {
    match acc
    case NotListening => []
    case NoneWaiting(errno, probe, told) =>
      if errno != 0 && told then [ListenFailed(ErrorMessage("Listen Error", "Failed to accept", Some(probe)))] else []
    case Incoming(_, _, _, _, told) => [Accepted(s.counter + 1, told)]
  }

  function DeleteEvents(s: State, order: seq<nat>, told: bool): seq<Event> {
    var m := FirstMarked(s.peers, order);
    if m.Some? && m.value in s.peers then [Ended(m.value, s.peers[m.value].disconn, s.peers[m.value].errmsg, told)] else []
  }

  function SectionEvents(s: State, order: seq<nat>, acc: AcceptAnswer, recv: nat -> ReceiveAnswer, told: bool): seq<Event> {
    var s1 := DoAccept(s, acc);
    AcceptEvents(s, acc) + (SweepLog(s1.peers, order, recv) + DeleteEvents(DoSweep(s1, order, recv), order, told))
  }

  lemma SectionAdds(s: State, order: seq<nat>, acc: AcceptAnswer, recv: nat -> ReceiveAnswer, told: bool)
    ensures Adds(s, DoListenSection(s, order, acc, recv, told), SectionEvents(s, order, acc, recv, told))
  {
    var s1 := DoAccept(s, acc);
    assert s1.h.log == s.h.log + AcceptEvents(s, acc);
    var s2 := DoSweep(s1, order, recv);
    assert DoDelete(s2, order, told).h.log == s2.h.log + DeleteEvents(s2, order, told);
  }

  lemma SectionTells(s: State, order: seq<nat>, acc: AcceptAnswer, recv: nat -> ReceiveAnswer, told: bool, id: nat)
    requires Enumerates(order, DoAccept(s, acc).peers.Keys)
    ensures SomeTold(SectionEvents(s, order, acc, recv, told), id) <==> Answers(s, ListenSection(order, acc, recv, told), id)
  {
    var s1 := DoAccept(s, acc);
    var s2 := DoSweep(s1, order, recv);
    var a, b, c := AcceptEvents(s, acc), SweepLog(s1.peers, order, recv), DeleteEvents(s2, order, told);
    ToldAppend(a, b + c, id);
    ToldAppend(b, c, id);
    SweepTells(s1, order, recv, id);
    DeleteTells(s2, order, told, id);
    assert !SomeTold(a, id);
  }

  lemma DeleteTells(s: State, order: seq<nat>, told: bool, id: nat)
    ensures SomeTold(DeleteEvents(s, order, told), id) <==> FirstMarked(s.peers, order) == Some(id) && told
  {
    var es := DeleteEvents(s, order, told);
    FirstMarkedFinds(s.peers, order);
    if es != [] { assert es[0] in es; }
  }

  lemma {:induction false} SweepConnectsNobody(peers: map<nat, PeerData>, order: seq<nat>, recv: nat -> ReceiveAnswer)
    ensures forall e :: e in SweepLog(peers, order, recv) ==> !e.Connected?
    decreases |order|
  {
    if order != [] {
      var id := order[0];
      SweepConnectsNobody(if id in peers then peers[id := SweepPeer(peers[id], recv(id))] else peers, order[1..], recv);
    }
  }

  /** The events of any other step. */
  function OtherEvents(s: State, t: State): seq<Event> {
    if |s.h.log| <= |t.h.log| then t.h.log[|s.h.log|..] else []
  }

  lemma SendTells(s: State, o: SendAnswer, id: nat)
    requires Enabled(s, SendOne(o))
    ensures var es := OtherEvents(s, DoSendOne(s, o));
      && Adds(s, DoSendOne(s, o), es) && (forall e :: e in es ==> !e.Connected?)
      && (SomeTold(es, id) <==> Answers(s, SendOne(o), id))
  {
    var t := DoSendOne(s, o);
    var es := OtherEvents(s, t);
    if es != [] { assert es[0] in es; }
  }

  lemma OthersTellNothing(s: State, a: Action, id: nat)
    requires Enabled(s, a) && !a.ListenSection? && !a.SendOne? && a != ConnectAnnounce(true)
    ensures var es := OtherEvents(s, Apply(s, a));
      Adds(s, Apply(s, a), es) && (forall e :: e in es ==> !e.Connected?) && !SomeTold(es, id)
  {
  }

  /** A step tells of the peer exactly if it answers for it, and none but the
      announcement tells Connected. */
  lemma StepTells(s: State, a: Action, id: nat) returns (es: seq<Event>)
    requires Enabled(s, a) && a != ConnectAnnounce(true)
    ensures Adds(s, Apply(s, a), es) && (forall e :: e in es ==> !e.Connected?)
    ensures SomeTold(es, id) <==> Answers(s, a, id)
  {
    if a.ListenSection? {
      es := SectionEvents(s, a.order, a.acc, a.recv, a.endTold);
      SectionAdds(s, a.order, a.acc, a.recv, a.endTold);
      SectionTells(s, a.order, a.acc, a.recv, a.endTold, id);
      SweepConnectsNobody(DoAccept(s, a.acc).peers, a.order, a.recv);
    } else {
      es := OtherEvents(s, Apply(s, a));
      if a.SendOne? { SendTells(s, a.answer, id); } else { OthersTellNothing(s, a, id); }
    }
  }

  // ---- the window ---------------------------------------------------------

  /** What is known of one id along a run. */
  ghost predicate Tracked(s: State, id: nat, before: bool) {
    && Inv(s)
    && (id !in s.h.issued ==> !before && Connected(id) !in s.h.log)
    && (Waiting(s, id) ==> id in s.h.issued && Connected(id) !in s.h.log && (before <==> SomeTold(s.h.log, id)))
  }

  lemma SilentWhileAbsent(log: seq<Event>, i: nat, id: nat)
    requires PeerLife.PhaseOf(log, id) == PeerLife.Absent && i < |log|
    ensures About(log[i]) != Some(id)
  {
    PeerStories.OneMore(log, i, id);
    PeerStories.LifeMovesOn(log, i + 1, |log|, id);
    assert log[..|log|] == log;
  }

  lemma SilentUntilIssued(s: State, id: nat)
    requires Inv(s) && id !in s.h.issued
    ensures !SomeTold(s.h.log, id)
  {
    assert PeerLife.PhaseOf(s.h.log, id) == PeerLife.Standing(s, id);
    assert id !in s.peers;
    forall i | 0 <= i < |s.h.log| ensures !Tells(s.h.log[i], id) {
      SilentWhileAbsent(s.h.log, i, id);
    }
  }

  /** Where a wait begins and ends; ids stay issued. */
  lemma WaitMoves(s: State, a: Action, id: nat)
    requires Enabled(s, a)
    ensures var t := Apply(s, a);
      && (forall x :: x in s.h.issued ==> x in t.h.issued)
      && (Waiting(s, id) && !a.ConnectAnnounce? ==> Waiting(t, id))
      && (Waiting(t, id) && !Waiting(s, id) ==> a.ConnectWon? && id == s.counter + 1)
  {
    if a.ListenSection? {
      ConnectQueue.SectionLeavesQueue(s, a.order, a.acc, a.recv, a.endTold);
      SectionIssues(s, a.order, a.acc, a.recv, a.endTold);
    } else if a.SendOne? {
      ConnectQueue.SendLeavesQueue(s, a.answer);
      SendIssuesNothing(s, a.answer);
    } else if a.ConnectWon? {
      WonIssues(s, a.ip, a.port, a.host);
    } else {
      OthersIssueNothing(s, a);
    }
  }

  lemma SectionIssues(s: State, order: seq<nat>, acc: AcceptAnswer, recv: nat -> ReceiveAnswer, told: bool)
    ensures var t := DoListenSection(s, order, acc, recv, told);
      t.h.issued == s.h.issued + if acc.Incoming? then [s.counter + 1] else []
  {
  }

  lemma SendIssuesNothing(s: State, o: SendAnswer)
    requires Enabled(s, SendOne(o))
    ensures DoSendOne(s, o).h.issued == s.h.issued
  {
  }

  lemma WonIssues(s: State, ip: string, port: nat, host: string)
    requires s.conn.Won?
    ensures var t := DoConnectWon(s, ip, port, host);
      && t.h.issued == s.h.issued + [s.counter + 1] && t.conn.Announcing? && t.conn.id == s.counter + 1
      && t.h.log == s.h.log + [Joined(s.counter + 1)]
  {
  }

  lemma OthersIssueNothing(s: State, a: Action)
    requires Enabled(s, a) && !a.ListenSection? && !a.SendOne? && !a.ConnectWon?
    ensures var t := Apply(s, a);
      && t.h.issued == s.h.issued
      && (a.ConnectAnnounce? ==> !t.conn.Announcing?)
      && (!a.ConnectAnnounce? ==> (t.conn.Announcing? <==> s.conn.Announcing?))
      && (t.conn.Announcing? ==> t.conn == s.conn)
  {
  }

  /** Events that do not tell Connected do not make a peer late. */
  lemma NoNewLateness(log: seq<Event>, es: seq<Event>, id: nat)
    requires Connected(id) !in es
    ensures Late(log + es, id) <==> Late(log, id)
  {
    if Late(log, id) {
      var j :| 0 <= j < |log| && log[j] == Connected(id) && SomeTold(log[..j], id);
      assert (log + es)[j] == Connected(id) && (log + es)[..j] == log[..j];
    }
    forall j | |log| <= j < |log + es| ensures (log + es)[j] != Connected(id) {
      assert (log + es)[j] == es[j - |log|] && es[j - |log|] in es;
    }
    if Late(log + es, id) {
      var j :| 0 <= j < |log + es| && (log + es)[j] == Connected(id) && SomeTold((log + es)[..j], id);
      assert log[j] == Connected(id) && (log + es)[..j] == log[..j];
    }
  }

  /** The announcement makes the peer late exactly if it was told of before. */
  lemma AnnouncingMakesLate(log: seq<Event>, id: nat)
    requires Connected(id) !in log
    ensures Late(log + [Connected(id)], id) <==> SomeTold(log, id)
    ensures !Late(log, id)
  {
    var after := log + [Connected(id)];
    assert after[|log|] == Connected(id) && after[..|log|] == log;
    forall j | 0 <= j < |log| ensures after[j] != Connected(id) {
      assert log[j] in log;
    }
  }

  function Then(s: State, a: Action, id: nat, before: bool): bool {
    before || (Waiting(s, id) && Answers(s, a, id))
  }

  lemma StepKeepsTracked(s: State, a: Action, id: nat, before: bool)
    requires Tracked(s, id, before) && Enabled(s, a) && !a.ConnectAnnounce?
    ensures Tracked(Apply(s, a), id, Then(s, a, id, before))
    ensures Late(Apply(s, a).h.log, id) <==> Late(s.h.log, id)
  {
    var t := Apply(s, a);
    StepKeepsInv(s, a);
    WaitMoves(s, a, id);
    var es := StepTells(s, a, id);
    NoNewLateness(s.h.log, es, id);
    ToldAppend(s.h.log, es, id);
    if Waiting(t, id) && !Waiting(s, id) {
      BeginsUntold(s, a, id);
    }
  }

  lemma BeginsUntold(s: State, a: Action, id: nat)
    requires Inv(s) && a.ConnectWon? && Enabled(s, a) && id == s.counter + 1
    ensures id !in s.h.issued && id in Apply(s, a).h.issued && !SomeTold(Apply(s, a).h.log, id)
  {
    PeerLife.InsertKeepsIds(s, 0, "", 0, "");
    WonIssues(s, a.ip, a.port, a.host);
    SilentUntilIssued(s, id);
    ToldAppend(s.h.log, [Joined(id)], id);
  }

  lemma AnnounceKeepsTracked(s: State, told: bool, id: nat, before: bool)
    requires Tracked(s, id, before) && s.conn.Announcing?
    ensures Tracked(DoConnectAnnounce(s, told), id, before)
    ensures Late(DoConnectAnnounce(s, told).h.log, id) <==>
            Late(s.h.log, id) || (told && Waiting(s, id) && before)
  {
    var t := DoConnectAnnounce(s, told);
    StepKeepsInv(s, ConnectAnnounce(told));
    var es := if told then [Connected(s.conn.id)] else [];
    assert t.h.log == s.h.log + es;
    if told && Waiting(s, id) {
      AnnouncingMakesLate(s.h.log, id);
    } else {
      NoNewLateness(s.h.log, es, id);
    }
  }

  // ---- over runs ----------------------------------------------------------

  /** The window, one step at a time. */
  lemma WindowStep(s: State, run: seq<Action>, id: nat, before: bool)
    requires ValidRun(s, run) && run != []
    ensures InWindow(s, run, id, before) <==>
      || (Waiting(s, id) && run[0] == ConnectAnnounce(true) && before)
      || InWindow(Apply(s, run[0]), run[1..], id, Then(s, run[0], id, before))
  {
    var u, rest := Apply(s, run[0]), run[1..];
    if InWindow(s, run, id, before) {
      var m :| 0 <= m < |run| && AnnouncedAt(s, run, id, m) && (before || AnsweredBy(s, run, id, m));
      if m > 0 {
        assert AnnouncedAt(u, rest, id, m - 1);
        if !Then(s, run[0], id, before) {
          var k :| 0 <= k < m && AnsweredAt(s, run, id, k);
          assert k > 0 && AnsweredAt(u, rest, id, k - 1);
        }
      }
    }
    if Waiting(s, id) && run[0] == ConnectAnnounce(true) && before {
      assert AnnouncedAt(s, run, id, 0);
    }
    if InWindow(u, rest, id, Then(s, run[0], id, before)) {
      WindowShifts(s, run, id, before);
    }
  }

  lemma WindowShifts(s: State, run: seq<Action>, id: nat, before: bool)
    requires ValidRun(s, run) && run != []
    requires InWindow(Apply(s, run[0]), run[1..], id, Then(s, run[0], id, before))
    ensures InWindow(s, run, id, before)
  {
    var u, rest := Apply(s, run[0]), run[1..];
    var m :| 0 <= m < |rest| && AnnouncedAt(u, rest, id, m) && (Then(s, run[0], id, before) || AnsweredBy(u, rest, id, m));
    assert AnnouncedAt(s, run, id, m + 1);
    if !before {
      if AnsweredBy(u, rest, id, m) {
        var k :| 0 <= k < m && AnsweredAt(u, rest, id, k);
        assert AnsweredAt(s, run, id, k + 1);
      } else {
        assert AnsweredAt(s, run, id, 0);
      }
      assert AnsweredBy(s, run, id, m + 1);
    }
  }

  lemma {:induction false} RunTracks(s: State, run: seq<Action>, id: nat, before: bool)
    requires Tracked(s, id, before) && ValidRun(s, run)
    ensures Late(After(s, run).h.log, id) <==> Late(s.h.log, id) || InWindow(s, run, id, before)
    decreases |run|
  {
    if run != [] {
      var a := run[0];
      if a.ConnectAnnounce? {
        AnnounceKeepsTracked(s, a.told, id, before);
      } else {
        StepKeepsTracked(s, a, id, before);
      }
      WindowStep(s, run, id, before);
      RunTracks(Apply(s, a), run[1..], id, Then(s, a, id, before));
    }
  }

  /** In every run from construction: the user hears of a connection before its
      Connected if and only if, while the connect thread stands between inserting
      the peer and announcing it, a listen section receives from the peer or
      erases it, or a send to it takes bytes, with a callback installed. */
  lemma ConnectedIsLateIff(s: State, run: seq<Action>, id: nat)
    requires Init(s) && ValidRun(s, run)
    ensures Late(After(s, run).h.log, id) <==> InWindow(s, run, id, false)
  {
    InitHasInv(s);
    RunTracks(s, run, id, false);
  }

  /** So a window without a listen section and without a send is a safe one. */
  lemma QuietWindowIsSafe(s: State, run: seq<Action>, id: nat)
    requires Init(s) && ValidRun(s, run)
    requires forall k :: 0 <= k < |run| && Waiting(At(s, run, k), id) ==> !run[k].ListenSection? && !run[k].SendOne?
    ensures !Late(After(s, run).h.log, id)
  {
    ConnectedIsLateIff(s, run, id);
    forall k | 0 <= k < |run| ensures !AnsweredAt(s, run, id, k) {
    }
  }

  // ---- it does happen -----------------------------------------------------

  function Delivering(): nat -> ReceiveAnswer {
    (id: nat) => ReceiveAnswer(true, OK, [7], ErrnoProbe(0, ""), true)
  }

  /** Wherever an unmarked peer waits to be announced, a section can receive from
      it first. */
  lemma SectionCanAnswer(s: State, id: nat, order: seq<nat>)
    requires id in s.peers && !s.peers[id].toBeDeleted && s.peers[id].socket.Some?
    requires Enumerates(order, s.peers.Keys)
    ensures var a := ListenSection(order, NotListening, Delivering(), false);
      Enabled(s, a) && Answers(s, a, id)
  {
  }

  /** From every newly constructed node there is a run in which the user receives
      data of a connection before being told that it was made. */
  lemma DataMayPrecedeConnected(s: State) returns (run: seq<Action>, id: nat)
    requires Init(s)
    ensures ValidRun(s, run) && Late(After(s, run).h.log, id)
  {
    var first, u := BatchOfTwo(s);
    var second, v := BeginsCycle(u);
    RunsJoin(s, first, u, second, v);
    id := v.counter + 1;
    var rest, t := ReceivesThenAnnounces(v);
    RunsJoin(s, first + second, v, rest, t);
    run := first + second + rest;
  }

  lemma ReceivesThenAnnounces(v: State) returns (run: seq<Action>, t: State)
    requires v.conn.Trying? && v.peers == map[] && v.h.log == []
    ensures Reaches(v, run, t) && Late(t.h.log, v.counter + 1)
  {
    var c := v.conn;
    var u := v.(conn := Won(c.i, c.q, c.sock, c.to));
    var w := DoConnectWon(u, "", 0, "");
    var rest;
    rest, t := HearsFirst(w, v.counter + 1);
    OneStepMore(u, ConnectWon("", 0, ""), rest, t);
    OneStepMore(v, ConnectAttempt(true, 0, false), [ConnectWon("", 0, "")] + rest, t);
    run := [ConnectAttempt(true, 0, false)] + ([ConnectWon("", 0, "")] + rest);
  }

  lemma HearsFirst(w: State, id: nat) returns (run: seq<Action>, t: State)
    requires Waiting(w, id) && w.h.log == [Joined(id)]
    requires w.peers.Keys == {id} && !w.peers[id].toBeDeleted && w.peers[id].socket.Some?
    ensures Reaches(w, run, t) && Late(t.h.log, id)
  {
    var section := ListenSection([id], NotListening, Delivering(), false);
    ReceivesOne(w, id);
    var x := Logged(w, [Received(id, [7], true)]);
    t := DoConnectAnnounce(x, true);
    OneStepMore(x, ConnectAnnounce(true), [], t);
    OneStepMore(w, section, [ConnectAnnounce(true)] + [], t);
    run := [section] + ([ConnectAnnounce(true)] + []);
    LateLog(id);
    assert t.h.log == [Joined(id), Received(id, [7], true), Connected(id)];
  }

  lemma LateLog(id: nat)
    ensures Late([Joined(id), Received(id, [7], true), Connected(id)], id)
  {
    var log := [Joined(id), Received(id, [7], true), Connected(id)];
    assert log[..2][1] == log[1] && log[1] in log[..2] && Tells(log[1], id) && log[2] == Connected(id);
  }

  lemma ReceivesOne(u: State, id: nat)
    requires u.peers.Keys == {id} && !u.peers[id].toBeDeleted && u.peers[id].socket.Some?
    ensures DoListenSection(u, [id], NotListening, Delivering(), false) == Logged(u, [Received(id, [7], true)])
  {
    assert [id][1..] == [];
    var p := u.peers[id];
    assert u.peers[id := p] == u.peers;
    assert SweepMap(u.peers, [id], Delivering()) == SweepMap(u.peers, [], Delivering());
    assert SweepLog(u.peers, [id], Delivering()) == [Received(id, [7], true)] + SweepLog(u.peers, [], Delivering());
    assert FirstMarked(u.peers, [id]) == FirstMarked(u.peers, []);
  }
}
