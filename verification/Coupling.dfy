/**
 The two models side by side: the threads lock by lock, and the node's data.  A
 move of a thread carries the action on the data that the source makes there, and
 every step keeps both models' invariants and their agreement.
 */
module Coupling {
  import opened Common
  import opened PeerPrivate
  import P = Protocol
  import N = NodeState
  import D = Deadlock
  import NodeRuns
  import PeerLife
  import ReceiveSweep
  import ConnectQueue

  datatype Joint = Joint(p: P.State, n: N.State)

  datatype Move =
    | By(who: P.Thread, x: P.Choice, a: Option<N.Action>)
    | Elsewhere     // another node of the process takes a connection number

  // ---- which action goes with which move ----------------------------------

  /** The peer a section erases, if any. */
  function Loses(n: N.State, a: N.Action): Option<nat>
    requires a.ListenSection?
  {
    N.FirstMarked(N.DoSweep(N.DoAccept(n, a.acc), a.order, a.recv).peers, a.order)
  }

  predicate ListenDoes(p: P.State, n: N.State, x: P.Choice, a: Option<N.Action>) {
    if p.l.LOpening? then a.Some? && a.value.OpenListener? && a.value.ok == x.ok
    else if p.l.LClosing? then a.Some? && a.value.CloseListener?
    else if p.l.LMain? && !(x.ok && p.l.work > 0) then
      && a.Some? && a.value.ListenSection?
      && x.gain == a.value.acc.Incoming? && x.lose == Loses(n, a.value).Some?
    else a.None?
  }

  predicate ConnectDoes(p: P.State, x: P.Choice, a: Option<N.Action>) {
    match p.k
    case KRead => a == Some(N.ConnectRead)
    case KCycle(i, q) => if i < q then a.Some? && a.value.ConnectCreate? else a.None?
    case KFront(_, _) => a == Some(N.ConnectFront)
    case KTry(_, _, left) =>
      && a.Some? && a.value.ConnectAttempt? && a.value.success == x.ok
      && (!x.ok ==> (a.value.errno == 0 && !a.value.timeup <==> left > 0 && x.told))
    case KLost(_, _) => a.Some? && a.value.ConnectLost?
    case KWon(_, _) => a.Some? && a.value.ConnectWon?
    case KTell(_, _) => a.Some? && a.value.ConnectAnnounce?
    case KPop => a == Some(N.ConnectPop)
    case _ => a.None?
  }

  predicate SendDoes(p: P.State, a: Option<N.Action>) {
    if p.s.SPop? && p.outbox > 0 then a.Some? && a.value.SendOne? else a.None?
  }

  predicate UserDoes(pc: P.UserPC, n: N.State, x: P.Choice, a: Option<N.Action>) {
    match pc
    case UData(op) =>
      (match op
       case DoListen => a.None?
       case SetListener => a.Some? && a.value.SetListener? && a.value.sock.Some?
       case ConnectTo => a.Some? && a.value.ConnectTo?
       case SendData => a.Some? && a.value.SendData? && x.ok == N.PeerExists(n, a.value.to.id)
       case OtherCall => a.Some? ==> a.value.DisconnectPeer? || a.value.DisconnectAll?)
    case QData => a.Some? && a.value.DisconnectAll?
    case _ => a.None?
  }

  ghost predicate Does(j: Joint, who: P.Thread, x: P.Choice, a: Option<N.Action>) {
    match who
    case Listen => ListenDoes(j.p, j.n, x, a)
    case Connect => ConnectDoes(j.p, x, a)
    case Send => SendDoes(j.p, a)
    case User(u) => u in j.p.u && UserDoes(j.p.u[u], j.n, x, a)
  }

  ghost predicate Can(j: Joint, m: Move) {
    m.By? ==> P.Can(j.p, m.who, m.x) && Does(j, m.who, m.x, m.a) && (m.a.Some? ==> N.Enabled(j.n, m.a.value))
  }

  ghost function Acted(n: N.State, a: Option<N.Action>): N.State
    requires a.Some? ==> N.Enabled(n, a.value)
  {
    if a.Some? then N.Apply(n, a.value) else n
  }

  ghost function Next(j: Joint, m: Move): Joint
    requires Can(j, m)
  {
    match m
    case By(who, x, a) => Joint(P.Step(j.p, who, x), Acted(j.n, a))
    case Elsewhere => Joint(j.p, N.Apply(j.n, N.OtherNode))
  }

  // ---- agreement ----------------------------------------------------------

  predicate Stand(k: P.ConnectPC, c: N.ConnectStep) {
    match k
    case KCycle(i, q) => c == N.Cycle(i, q)
    case KFrontWant(i, q) => c.Created? && c.i == i && c.q == q
    case KFront(i, q) => c.Created? && c.i == i && c.q == q
    case KTry(i, q, _) => c.Trying? && c.i == i && c.q == q
    case KLostWant(i, q) => c.Lost? && c.i == i && c.q == q
    case KLost(i, q) => c.Lost? && c.i == i && c.q == q
    case KWonWant(i, q) => c.Won? && c.i == i && c.q == q
    case KWon(i, q) => c.Won? && c.i == i && c.q == q
    case KTellWant(i, q) => c.Announcing? && c.i == i && c.q == q
    case KTell(i, q) => c.Announcing? && c.i == i && c.q == q
    case KPopWant => c.Cycle? && c.i >= c.q
    case KPop => c.Cycle? && c.i >= c.q
    case _ => c.AtTop?
  }

  /** The numbers the threads decide by are those of the data. */
  ghost predicate Agree(j: Joint) {
    && j.p.peers == |j.n.peers| && j.p.queue == |j.n.requests| && j.p.outbox == |j.n.outbox|
    && Stand(j.p.k, j.n.conn)
  }

  ghost predicate Sound(j: Joint) {
    D.Inv(j.p) && NodeRuns.Inv(j.n) && Agree(j)
  }

  /** What the data mutex protects. */
  predicate SameData(n: N.State, n': N.State) {
    n'.peers == n.peers && n'.outbox == n.outbox && n'.requests == n.requests && n'.listener == n.listener
  }

  predicate Leaves(n: N.State, n': N.State) {
    SameData(n, n') && n'.conn == n.conn
  }

  // ---- the listen thread --------------------------------------------------

  lemma Grown(peers: map<nat, PeerData>, id: nat, p: PeerData)
    requires id !in peers
    ensures |peers[id := p]| == |peers| + 1
  {
    assert peers[id := p].Keys == peers.Keys + {id};
  }

  lemma AcceptCounts(n: N.State, acc: N.AcceptAnswer)
    requires PeerLife.IdsFit(n)
    ensures var t := N.DoAccept(n, acc);
      && |t.peers| == |n.peers| + (if acc.Incoming? then 1 else 0)
      && t.requests == n.requests && t.outbox == n.outbox && t.conn == n.conn
  {
    if acc.Incoming? {
      PeerLife.InsertKeepsIds(n, acc.sock, acc.ip, acc.port, acc.host);
      Grown(n.peers, n.counter + 1, NewPeer(n.counter + 1, acc.ip, acc.port, acc.host, acc.sock));
    }
  }

  lemma SweepCounts(n: N.State, order: seq<nat>, recv: nat -> N.ReceiveAnswer)
    requires Enumerates(order, n.peers.Keys)
    ensures var t := N.DoSweep(n, order, recv);
      |t.peers| == |n.peers| && t.requests == n.requests && t.outbox == n.outbox && t.conn == n.conn
  {
    ReceiveSweep.SweepVisitsEachOnce(n, order, recv, 0);
    var t := N.DoSweep(n, order, recv);
    assert |t.peers| == |t.peers.Keys| && |n.peers| == |n.peers.Keys|;
  }

  lemma DeleteCounts(n: N.State, order: seq<nat>, told: bool)
    ensures var t := N.DoDelete(n, order, told);
      && |t.peers| == |n.peers| - (if N.FirstMarked(n.peers, order).Some? then 1 else 0)
      && t.requests == n.requests && t.outbox == n.outbox && t.conn == n.conn
  {
    ReceiveSweep.FirstMarkedFinds(n.peers, order);
    var m := N.FirstMarked(n.peers, order);
    if m.Some? {
      var rest := n.peers - {m.value};
      assert rest.Keys == n.peers.Keys - {m.value};
    }
  }

  lemma SectionCounts(n: N.State, a: N.Action)
    requires PeerLife.IdsFit(n) && a.ListenSection? && N.Enabled(n, a)
    ensures var t := N.Apply(n, a);
      && |t.peers| == |n.peers| + (if a.acc.Incoming? then 1 else 0) - (if Loses(n, a).Some? then 1 else 0)
      && t.requests == n.requests && t.outbox == n.outbox && t.conn == n.conn
  {
    var n1 := N.DoAccept(n, a.acc);
    AcceptCounts(n, a.acc);
    SweepCounts(n1, a.order, a.recv);
    DeleteCounts(N.DoSweep(n1, a.order, a.recv), a.order, a.endTold);
  }

  lemma ListenAgrees(j: Joint, x: P.Choice, a: Option<N.Action>)
    requires PeerLife.IdsFit(j.n) && Agree(j) && Can(j, By(P.Listen, x, a))
    ensures Agree(Next(j, By(P.Listen, x, a)))
  {
    if a.Some? && a.value.ListenSection? {
      SectionCounts(j.n, a.value);
    } else if a.Some? {
      ListenerLeaves(j.n, a.value);
    }
  }

  lemma ListenerLeaves(n: N.State, a: N.Action)
    requires N.Enabled(n, a) && (a.OpenListener? || a.CloseListener?)
    ensures Leaves(n, N.Apply(n, a))
  {
  }

  // ---- the connect thread -------------------------------------------------

  lemma CycleAgrees(j: Joint, x: P.Choice, a: N.Action)
    requires Agree(j) && P.ConnectCan(j.p) && ConnectDoes(j.p, x, Some(a)) && N.Enabled(j.n, a)
    requires a.ConnectCreate? || a.ConnectAttempt? || a.ConnectLost? || a.ConnectAnnounce?
    ensures Agree(Joint(P.ConnectStep(j.p, x), N.Apply(j.n, a)))
  {
  }

  lemma QueueAgrees(j: Joint, x: P.Choice, a: N.Action)
    requires Agree(j) && ConnectQueue.Queue(j.n) && P.ConnectCan(j.p) && ConnectDoes(j.p, x, Some(a)) && N.Enabled(j.n, a)
    requires a.ConnectRead? || a.ConnectFront? || a.ConnectPop?
    ensures Agree(Joint(P.ConnectStep(j.p, x), N.Apply(j.n, a)))
  {
  }

  lemma WonAgrees(j: Joint, x: P.Choice, a: N.Action)
    requires Agree(j) && PeerLife.IdsFit(j.n) && P.ConnectCan(j.p) && ConnectDoes(j.p, x, Some(a)) && N.Enabled(j.n, a)
    requires a.ConnectWon?
    ensures Agree(Joint(P.ConnectStep(j.p, x), N.Apply(j.n, a)))
  {
    var n, t := j.n, N.DoConnectWon(j.n, a.ip, a.port, a.host);
    PeerLife.InsertKeepsIds(n, n.conn.sock, a.ip, a.port, a.host);
    Grown(n.peers, n.counter + 1, t.peers[n.counter + 1]);
  }

  lemma WaitAgrees(j: Joint, x: P.Choice)
    requires Agree(j) && P.ConnectCan(j.p) && ConnectDoes(j.p, x, None)
    ensures Agree(Joint(P.ConnectStep(j.p, x), j.n))
  {
  }

  lemma ConnectAgrees(j: Joint, x: P.Choice, a: Option<N.Action>)
    requires PeerLife.IdsFit(j.n) && ConnectQueue.Queue(j.n) && Agree(j) && Can(j, By(P.Connect, x, a))
    ensures Agree(Next(j, By(P.Connect, x, a)))
  {
    if a.None? {
      WaitAgrees(j, x);
    } else if a.value.ConnectWon? {
      WonAgrees(j, x, a.value);
    } else if a.value.ConnectRead? || a.value.ConnectFront? || a.value.ConnectPop? {
      QueueAgrees(j, x, a.value);
    } else {
      CycleAgrees(j, x, a.value);
    }
  }

  // ---- the send thread and the users --------------------------------------

  lemma SendCounts(n: N.State, o: N.SendAnswer)
    requires N.Enabled(n, N.SendOne(o))
    ensures var t := N.DoSendOne(n, o);
      t.peers.Keys == n.peers.Keys && |t.outbox| == |n.outbox| - 1 && t.requests == n.requests && t.conn == n.conn
  {
  }

  lemma SendAgrees(j: Joint, x: P.Choice, a: Option<N.Action>)
    requires Agree(j) && Can(j, By(P.Send, x, a))
    ensures Agree(Next(j, By(P.Send, x, a)))
  {
    if a.Some? {
      SendCounts(j.n, a.value.answer);
      var t := N.DoSendOne(j.n, a.value.answer);
      assert |t.peers| == |t.peers.Keys| == |j.n.peers.Keys|;
    }
  }

  lemma UserCounts(n: N.State, a: N.Action)
    requires N.Enabled(n, a)
    requires a.SendData? || a.DisconnectPeer? || a.DisconnectAll? || a.SetListener? || a.ConnectTo? || a.OtherNode?
    ensures var t := N.Apply(n, a);
      && t.peers.Keys == n.peers.Keys && t.conn == n.conn
      && |t.outbox| == |n.outbox| + (if a.SendData? && N.PeerExists(n, a.to.id) then 1 else 0)
      && |t.requests| == |n.requests| + (if a.ConnectTo? then 1 else 0)
  {
  }

  /** A user starts a thread that was not running: the connect thread at its top. */
  lemma UserLeavesConnect(p: P.State, u: nat, x: P.Choice)
    requires D.Starts(p) && u in p.u && P.UserCan(p, u, x)
    ensures var t := P.UserStep(p, u, x); t.k == p.k || (p.k.KUnstarted? && t.k.KTop?)
    ensures P.UserStep(p, u, x).peers == p.peers
  {
    D.StartsSpawnIdle(p, u, x);
  }

  lemma UserAgrees(j: Joint, u: nat, x: P.Choice, a: Option<N.Action>)
    requires D.Starts(j.p) && Agree(j) && Can(j, By(P.User(u), x, a))
    ensures Agree(Next(j, By(P.User(u), x, a)))
  {
    UserLeavesConnect(j.p, u, x);
    if a.Some? {
      UserCounts(j.n, a.value);
      var t := N.Apply(j.n, a.value);
      assert |t.peers| == |t.peers.Keys| == |j.n.peers.Keys|;
    }
  }

  // ---- every step ---------------------------------------------------------

  lemma StepKeepsSound(j: Joint, m: Move)
    requires Sound(j) && Can(j, m)
    ensures Sound(Next(j, m))
  {
    if m.By? {
      D.StepKeepsLocks(j.p, m.who, m.x);
      D.StepKeepsStarts(j.p, m.who, m.x);
      if m.a.Some? { NodeRuns.StepKeepsInv(j.n, m.a.value); }
      match m.who
      case Listen => ListenAgrees(j, m.x, m.a);
      case Connect => ConnectAgrees(j, m.x, m.a);
      case Send => SendAgrees(j, m.x, m.a);
      case User(u) => UserAgrees(j, u, m.x, m.a);
    } else {
      NodeRuns.StepKeepsInv(j.n, N.OtherNode);
    }
  }
}
