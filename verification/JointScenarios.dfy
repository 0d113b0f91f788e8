/** The scenarios of the lock model happen with data too: each of their moves can
    be made together with the action the source makes there. */
module JointScenarios {
  import opened Common
  import opened PeerPrivate
  import opened Coupling
  import opened JointRuns
  import opened JointLiveness
  import P = Protocol
  import N = NodeState
  import D = Deadlock
  import F = Fairness
  import L = Liveness
  import NodeScenarios
  import PeerLife
  import ListenRequests
  import C = Scenarios
  import FairScenarios

  // ---- a modest move has an action ----------------------------------------

  const PROBE := ErrnoProbe(0, "")
  const SILENCE: nat -> N.ReceiveAnswer :=
    (id: nat) => N.ReceiveAnswer(true, NothingReceived, [], PROBE, false)

  lemma ListenHasAction(j: Joint, x: P.Choice) returns (a: Option<N.Action>)
    requires Agree(j) && P.ListenCan(j.p, x) && C.Modest(j.p, P.Listen, x)
    ensures Can(j, By(P.Listen, x, a))
  {
    if j.p.l.LOpening? {
      a := Some(N.OpenListener(x.ok, 0, PROBE, false));
    } else if j.p.l.LClosing? {
      a := Some(N.CloseListener(false));
    } else if j.p.l.LMain? && !(x.ok && j.p.l.work > 0) {
      a := Some(N.ListenSection([], N.NotListening, SILENCE, false));
      EmptySection(j.n);
    } else {
      a := None;
    }
  }

  lemma EmptySection(n: N.State)
    requires |n.peers| == 0
    ensures N.Enabled(n, N.ListenSection([], N.NotListening, SILENCE, false))
    ensures Loses(n, N.ListenSection([], N.NotListening, SILENCE, false)).None?
  {
    assert n.peers == map[];
  }

  lemma ConnectHasAction(j: Joint, x: P.Choice) returns (a: Option<N.Action>)
    requires Agree(j) && P.ConnectCan(j.p)
    ensures Can(j, By(P.Connect, x, a))
  {
    var h := NodeScenarios.FreshHandle(j.n.h.made);
    match j.p.k
    case KRead => a := Some(N.ConnectRead);
    case KCycle(i, q) => a := if i < q then Some(N.ConnectCreate(h)) else None;
    case KFront(_, _) => a := Some(N.ConnectFront);
    case KTry(_, _, left) => a := Some(N.ConnectAttempt(x.ok, if left > 0 && x.told then 0 else 1, false));
    case KLost(_, _) => a := Some(N.ConnectLost(PROBE, false));
    case KWon(_, _) => a := Some(N.ConnectWon("", 0, ""));
    case KTell(_, _) => a := Some(N.ConnectAnnounce(false));
    case KPop => a := Some(N.ConnectPop);
    case _ => a := None;
  }

  lemma SendHasAction(j: Joint, x: P.Choice) returns (a: Option<N.Action>)
    requires Agree(j) && P.SendCan(j.p, x)
    ensures Can(j, By(P.Send, x, a))
  {
    a := if j.p.s.SPop? && j.p.outbox > 0 then Some(N.SendOne(N.SendAnswer(0, PROBE, false, false))) else None;
  }

  lemma {:induction false} SomeOrder(keys: set<nat>) returns (order: seq<nat>)
    ensures Enumerates(order, keys)
    decreases |keys|
  {
    if keys == {} {
      order := [];
    } else {
      var x :| x in keys;
      var rest := SomeOrder(keys - {x});
      order := [x] + rest;
      assert forall y :: y in order <==> y == x || y in rest;
    }
  }

  lemma UserHasAction(j: Joint, u: nat, x: P.Choice) returns (a: Option<N.Action>)
    requires Agree(j) && PeerLife.IdsFit(j.n) && u in j.p.u && P.UserCan(j.p, u, x) && C.Modest(j.p, P.User(u), x)
    ensures Can(j, By(P.User(u), x, a))
  {
    var h := NodeScenarios.FreshHandle(j.n.h.made);
    var order := SomeOrder(j.n.peers.Keys);
    var pc := j.p.u[u];
    if pc.QData? {
      a := Some(N.DisconnectAll(order));
    } else if !pc.UData? {
      a := None;
    } else {
      match pc.op
      case DoListen => a := None;
      case SetListener => a := Some(N.SetListener(Some(h)));
      case ConnectTo => a := Some(N.ConnectTo(Address("", 0)));
      case SendData => a := Some(N.SendData(NO_PEER, [], false));
      case OtherCall => a := None;
    }
  }

  lemma MoveHasAction(j: Joint, who: P.Thread, x: P.Choice) returns (a: Option<N.Action>)
    requires Sound(j) && P.Can(j.p, who, x) && C.Modest(j.p, who, x)
    ensures Can(j, By(who, x, a))
  {
    match who
    case Listen => a := ListenHasAction(j, x);
    case Connect => a := ConnectHasAction(j, x);
    case Send => a := SendHasAction(j, x);
    case User(u) => a := UserHasAction(j, u, x);
  }

  // ---- what joint runs reach ----------------------------------------------

  /** Some joint run leads from j to a state with these threads. */
  ghost predicate LeadsTo(j: Joint, p: P.State) {
    exists run :: ValidRun(j, run) && After(j, run).p == p
  }

  lemma {:induction false} RunsJoin(j: Joint, xs: seq<Move>, ys: seq<Move>)
    requires ValidRun(j, xs) && ValidRun(After(j, xs), ys)
    ensures ValidRun(j, xs + ys) && After(j, xs + ys) == After(After(j, xs), ys)
    decreases |xs|
  {
    if xs == [] {
      assert xs + ys == ys;
    } else {
      assert (xs + ys)[0] == xs[0] && (xs + ys)[1..] == xs[1..] + ys;
      RunsJoin(Next(j, xs[0]), xs[1..], ys);
    }
  }

  lemma OneMove(j: Joint, m: Move)
    requires Can(j, m)
    ensures ValidRun(j, [m]) && After(j, [m]) == Next(j, m)
  {
    assert [m][1..] == [];
    assert ValidRun(Next(j, m), []) && After(Next(j, m), []) == Next(j, m);
  }

  lemma LeadsFarther(j: Joint, p: P.State, who: P.Thread, x: P.Choice)
    requires Sound(j) && LeadsTo(j, p) && P.Can(p, who, x) && C.Modest(p, who, x)
    ensures LeadsTo(j, P.Step(p, who, x))
  {
    var run :| ValidRun(j, run) && After(j, run).p == p;
    var i := After(j, run);
    RunKeepsSound(j, run);
    var a := MoveHasAction(i, who, x);
    MoveExtends(j, run, By(who, x, a));
  }

  lemma MoveExtends(j: Joint, run: seq<Move>, m: Move)
    requires ValidRun(j, run) && Can(After(j, run), m)
    ensures LeadsTo(j, Next(After(j, run), m).p)
  {
    OneMove(After(j, run), m);
    RunsJoin(j, run, [m]);
    assert After(j, run + [m]).p == Next(After(j, run), m).p;
  }

  lemma LeadsToIsClosed(j: Joint)
    requires Sound(j)
    ensures C.Closed(iset p: P.State | LeadsTo(j, p)) && LeadsTo(j, j.p)
  {
    assert ValidRun(j, []) && After(j, []).p == j.p;
    forall p, who, x | LeadsTo(j, p) && P.Can(p, who, x) && C.Modest(p, who, x) ensures LeadsTo(j, P.Step(p, who, x)) {
      LeadsFarther(j, p, who, x);
    }
  }

  /** A node just constructed, with one user. */
  const NEW := Joint(C.Fresh(true), N.State(map[], [], [], 0, 0, N.AtTop,
    N.History({0}, [], [], [], {}, [], [], map[], [], 0, [], [], [])))

  lemma NewIsInit()
    ensures Init(NEW) && Sound(NEW)
  {
    InitIsSound(NEW);
  }

  /** The deadlock of line 336 is reached with data as well. */
  lemma DeadlockHappensWithData() returns (run: seq<Move>)
    ensures Init(NEW) && ValidRun(NEW, run) && D.Stuck(After(NEW, run).p)
  {
    NewIsInit();
    LeadsToIsClosed(NEW);
    var s := C.NodeSticks(iset p: P.State | LeadsTo(NEW, p));
    run :| ValidRun(NEW, run) && After(NEW, run).p == s;
  }

  /** And so is the doListen that is slept through. */
  lemma MissedDoListenHappensWithData() returns (run: seq<Move>)
    ensures Init(NEW) && ValidRun(NEW, run)
    ensures var p := After(NEW, run).p; ListenRequests.Asleep(p) && p.f.enabled && !p.f.available
  {
    NewIsInit();
    LeadsToIsClosed(NEW);
    var s := C.NodeMisses(iset p: P.State | LeadsTo(NEW, p));
    run :| ValidRun(NEW, run) && After(NEW, run).p == s;
  }

  // ---- a fair execution ---------------------------------------------------

  ghost function Along(j: Joint, run: seq<Move>, n: nat): Joint
    decreases n
  {
    if n == 0 || run == [] || !Can(j, run[0]) then j else Along(Next(j, run[0]), run[1..], n - 1)
  }

  ghost function ThenRest(j: Joint, run: seq<Move>): JointExecution {
    JointExecution((n: nat) => Along(j, run, n), (n: nat) => if n < |run| then Some(run[n]) else None)
  }

  lemma {:induction false} AlongGoes(j: Joint, run: seq<Move>, n: nat)
    requires ValidRun(j, run)
    ensures n < |run| ==> Can(Along(j, run, n), run[n]) && Along(j, run, n + 1) == Next(Along(j, run, n), run[n])
    ensures n >= |run| ==> Along(j, run, n) == After(j, run)
    decreases n
  {
    if n > 0 && run != [] {
      AlongGoes(Next(j, run[0]), run[1..], n - 1);
    }
  }

  lemma {:induction false} AlongPrefix(j: Joint, xs: seq<Move>, ys: seq<Move>)
    requires ValidRun(j, xs) && ValidRun(After(j, xs), ys)
    ensures Along(j, xs + ys, |xs|) == After(j, xs)
    decreases |xs|
  {
    if xs != [] {
      assert (xs + ys)[0] == xs[0] && (xs + ys)[1..] == xs[1..] + ys;
      AlongPrefix(Next(j, xs[0]), xs[1..], ys);
    }
  }

  lemma RestingGoes(j: Joint, run: seq<Move>, n: nat)
    requires ValidRun(j, run)
    ensures JointLiveness.Goes(ThenRest(j, run), n)
  {
    AlongGoes(j, run, n);
    AlongGoes(j, run, n + 1);
  }

  lemma RestingExecutes(j: Joint, run: seq<Move>)
    requires Init(j) && ValidRun(j, run)
    ensures IsJointExecution(ThenRest(j, run))
  {
    forall n: nat ensures JointLiveness.Goes(ThenRest(j, run), n) {
      RestingGoes(j, run, n);
    }
    assert ThenRest(j, run).at(0) == j;
  }

  /** A run that ends where nobody owes a move, followed by rest. */
  lemma RestingIsFair(j: Joint, run: seq<Move>)
    requires Init(j) && ValidRun(j, run) && After(j, run).p == FairScenarios.Resting()
    ensures var f := Threads(ThenRest(j, run)); F.Fair(f) && F.NeverStuck(f) && L.NeverQuits(f)
  {
    var f, n := Threads(ThenRest(j, run)), |run|;
    RestingExecutes(j, run);
    ThreadsExecute(ThenRest(j, run));
    forall k: nat | k >= n ensures f.at(k) == FairScenarios.Resting() {
      AlongGoes(j, run, k);
    }
    FairScenarios.RestingEnd(f, n);
  }

  /** Fair executions with data exist: a user asks for one connection and calls
      nothing more; the request is queued at moment n and popped at a later one. */
  lemma FairServiceHappensWithData() returns (e: JointExecution, n: nat, j: nat)
    ensures IsJointExecution(e) && F.Fair(Threads(e)) && F.NeverStuck(Threads(e)) && L.NeverQuits(Threads(e))
    ensures |e.at(n).n.requests| == 1 && e.at(n).n.h.popped + 1 == |e.at(n).n.h.arrived|
    ensures j >= n && e.at(j).n.h.popped == |e.at(n).n.h.arrived|
  {
    e, n := OneCallThenRest();
    j := AllIsDone(e, L.Connector, n);
    AskedIsDoneOrQueued(e.at(n), L.Connector);
  }

  lemma OneCallThenRest() returns (e: JointExecution, n: nat)
    ensures IsJointExecution(e) && F.Fair(Threads(e)) && F.NeverStuck(Threads(e)) && L.NeverQuits(Threads(e))
    ensures Sound(e.at(n)) && e.at(n).p == FairScenarios.Called()
  {
    NewIsInit();
    LeadsToIsClosed(NEW);
    FairScenarios.NodeIsCalled(iset p: P.State | LeadsTo(NEW, p));
    var xs :| ValidRun(NEW, xs) && After(NEW, xs).p == FairScenarios.Called();
    RunKeepsSound(NEW, xs);
    var ys := RestIsReached(After(NEW, xs));
    RunsJoin(NEW, xs, ys);
    AlongPrefix(NEW, xs, ys);
    e, n := ThenRest(NEW, xs + ys), |xs|;
    RestingExecutes(NEW, xs + ys);
    RestingIsFair(NEW, xs + ys);
  }

  lemma RestIsReached(mid: Joint) returns (ys: seq<Move>)
    requires Sound(mid) && mid.p == FairScenarios.Called()
    ensures ValidRun(mid, ys) && After(mid, ys).p == FairScenarios.Resting()
  {
    LeadsToIsClosed(mid);
    FairScenarios.NodeRests(iset p: P.State | LeadsTo(mid, p));
    ys :| ValidRun(mid, ys) && After(mid, ys).p == FairScenarios.Resting();
  }
}
