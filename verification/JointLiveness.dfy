/**
 What fair scheduling means for the data: every buffer accepted is handled, every
 request queued is popped, and after disconnectAll every peer is closed.
 */
module JointLiveness {
  import opened Common
  import opened Coupling
  import opened JointRuns
  import P = Protocol
  import N = NodeState
  import NodeRuns
  import ConnectQueue
  import SendPipeline
  import CallHistory
  import F = Fairness
  import Liveness
  import L = ListenLiveness

  /** An endless run of the threads together with the data. */
  datatype JointExecution = JointExecution(at: nat -> Joint, turn: nat -> Option<Move>)

  ghost predicate Goes(e: JointExecution, n: nat) {
    match e.turn(n)
    case None => e.at(n + 1) == e.at(n)
    case Some(m) => Can(e.at(n), m) && e.at(n + 1) == Next(e.at(n), m)
  }

  ghost predicate IsJointExecution(e: JointExecution) {
    Init(e.at(0)) && forall n: nat :: Goes(e, n)
  }

  function ThreadMove(t: Option<Move>): Option<P.Move> {
    if t.Some? && t.value.By? then Some(P.Move(t.value.who, t.value.x)) else None
  }

  /** What the threads do in it. */
  function Threads(e: JointExecution): F.Execution {
    F.Execution((n: nat) => e.at(n).p, (n: nat) => ThreadMove(e.turn(n)))
  }

  lemma ThreadsExecute(e: JointExecution)
    requires IsJointExecution(e)
    ensures F.IsExecution(Threads(e))
  {
    var f := Threads(e);
    forall n: nat ensures F.Goes(f, n) {
      assert Goes(e, n);
    }
  }

  lemma {:induction false} SoundAt(e: JointExecution, n: nat)
    requires IsJointExecution(e)
    ensures Sound(e.at(n))
  {
    if n == 0 {
      InitIsSound(e.at(0));
    } else {
      SoundAt(e, n - 1);
      assert Goes(e, n - 1);
      if e.turn(n - 1).Some? { StepKeepsSound(e.at(n - 1), e.turn(n - 1).value); }
    }
  }

  // ---- a stretch of it ----------------------------------------------------

  function Stretch(e: JointExecution, n: nat, j: nat): seq<Move>
    decreases j - n
  {
    if n >= j then []
    else (if e.turn(n).Some? then [e.turn(n).value] else []) + Stretch(e, n + 1, j)
  }

  lemma {:induction false} StretchRuns(e: JointExecution, n: nat, j: nat)
    requires IsJointExecution(e) && n <= j
    ensures ValidRun(e.at(n), Stretch(e, n, j)) && After(e.at(n), Stretch(e, n, j)) == e.at(j)
    decreases j - n
  {
    if n < j {
      StretchRuns(e, n + 1, j);
      assert Goes(e, n);
      var rest := Stretch(e, n + 1, j);
      if e.turn(n).Some? {
        assert Stretch(e, n, j)[1..] == rest;
      } else {
        assert Stretch(e, n, j) == rest;
      }
    }
  }

  /** No peer comes in at this moment. */
  predicate QuietAt(e: JointExecution, n: nat) {
    e.turn(n).Some? && e.turn(n).value.By? && e.turn(n).value.a.Some? ==> NodeRuns.Quiet(e.turn(n).value.a.value)
  }

  lemma {:induction false} StretchIsQuiet(e: JointExecution, n: nat, j: nat)
    requires forall k: nat :: n <= k ==> QuietAt(e, k)
    ensures forall a :: a in Actions(Stretch(e, n, j)) ==> NodeRuns.Quiet(a)
    decreases j - n
  {
    if n < j {
      assert QuietAt(e, n);
      StretchIsQuiet(e, n + 1, j);
      if e.turn(n).Some? {
        var m := e.turn(n).value;
        assert Stretch(e, n, j)[1..] == Stretch(e, n + 1, j);
        assert Actions(Stretch(e, n, j)) == ActionsOf(m) + Actions(Stretch(e, n + 1, j));
      } else {
        assert Stretch(e, n, j) == Stretch(e, n + 1, j);
      }
    }
  }

  // ---- its sections are the passes over the data --------------------------

  function SectionsAhead(e: JointExecution, n: nat, j: nat): nat
    decreases j - n
  {
    if n >= j then 0 else (if L.SectionEnds(Threads(e), n) then 1 else 0) + SectionsAhead(e, n + 1, j)
  }

  lemma {:induction false} SectionsAgree(e: JointExecution, n: nat, j: nat)
    requires n <= j
    ensures SectionsAhead(e, n, j) == L.Sections(Threads(e), n, j)
    decreases j - n
  {
    if n < j {
      SectionsAgree(e, n + 1, j);
      L.SectionsJoin(Threads(e), n, n + 1, j);
      assert L.Sections(Threads(e), n, n) == 0;
    }
  }

  lemma {:induction false} PassesAppend(xs: seq<N.Action>, ys: seq<N.Action>)
    ensures NodeRuns.Passes(xs + ys) == NodeRuns.Passes(xs) + NodeRuns.Passes(ys)
  {
    if xs == [] {
      assert xs + ys == ys;
    } else {
      assert (xs + ys)[0] == xs[0] && (xs + ys)[1..] == xs[1..] + ys;
      PassesAppend(xs[1..], ys);
    }
  }

  lemma PassesOfMove(j: Joint, m: Move)
    requires Can(j, m)
    ensures NodeRuns.Passes(ActionsOf(m)) ==
            if m.By? && m.who == P.Listen && L.Ends(j.p, m.x) then 1 else 0
  {
    var es := ActionsOf(m);
    if es != [] { assert es[1..] == []; }
  }

  lemma {:induction false} PassesAreSections(e: JointExecution, n: nat, j: nat)
    requires IsJointExecution(e) && n <= j
    ensures NodeRuns.Passes(Actions(Stretch(e, n, j))) == SectionsAhead(e, n, j)
    decreases j - n
  {
    if n < j {
      var rest := Stretch(e, n + 1, j);
      PassesAreSections(e, n + 1, j);
      assert Goes(e, n);
      if e.turn(n).Some? {
        var m := e.turn(n).value;
        assert Stretch(e, n, j)[1..] == rest;
        PassesAppend(ActionsOf(m), Actions(rest));
        PassesOfMove(e.at(n), m);
      } else {
        assert Stretch(e, n, j) == rest;
      }
    }
  }

  // ---- the end ------------------------------------------------------------

  /** Every peer there was is told closed, once each, and none is left. */
  ghost predicate AllClosed(n: N.State, n': N.State, ends: seq<NodeRuns.End>) {
    && n'.peers == map[]
    && NodeRuns.Ends(n'.h.log) == NodeRuns.Ends(n.h.log) + ends
    && |ends| == |n.peers| && NodeRuns.EndsAre(ends, n.peers.Keys)
    && forall id :: id in n.peers ==> NodeRuns.End(id, DisconnectType.WasDisconnected) in ends
  }

  lemma StretchCloses(e: JointExecution, n: nat, j: nat) returns (ends: seq<NodeRuns.End>)
    requires IsJointExecution(e) && n <= j && NodeRuns.AllClosing(e.at(n).n)
    requires forall k: nat :: n <= k ==> QuietAt(e, k)
    ensures NodeRuns.ClosedBy(e.at(n).n, e.at(j).n, ends, L.Sections(Threads(e), n, j))
  {
    var run := Stretch(e, n, j);
    StretchRuns(e, n, j);
    StretchIsQuiet(e, n, j);
    PassesAreSections(e, n, j);
    SectionsAgree(e, n, j);
    RunsProject(e.at(n), run);
    ends := NodeRuns.ClosingRun(e.at(n).n, Actions(run));
  }

  lemma ClosedToTheLast(n: N.State, n': N.State, ends: seq<NodeRuns.End>, k: nat)
    requires NodeRuns.ClosedBy(n, n', ends, k) && (k == |n.peers| || |n'.peers| == 0)
    ensures AllClosed(n, n', ends)
  {
    assert |n'.peers| == 0;
    assert n.peers.Keys - n'.peers.Keys == n.peers.Keys;
    assert |n.peers.Keys| == |n.peers|;
    NodeRuns.EndsCover(ends, n.peers.Keys);
  }

  /** In every execution of the threads with the data from construction that is
      fair, never stuck and without destructor: once every peer is being closed,
      as disconnectAll leaves them, and if none comes in after that, there comes a
      moment at which none is left and each was told closed exactly once. */
  lemma ClosingComesToAnEnd(e: JointExecution, n: nat) returns (j: nat, ends: seq<NodeRuns.End>)
    requires IsJointExecution(e) && F.Fair(Threads(e)) && F.NeverStuck(Threads(e)) && Liveness.NeverQuits(Threads(e))
    requires NodeRuns.AllClosing(e.at(n).n) && forall k: nat :: n <= k ==> QuietAt(e, k)
    ensures j >= n && AllClosed(e.at(n).n, e.at(j).n, ends)
  {
    ThreadsExecute(e);
    j := L.SectionsGoOn(Threads(e), n, |e.at(n).n.peers|);
    ends := StretchCloses(e, n, j);
    SoundAt(e, j);
    ClosedToTheLast(e.at(n).n, e.at(j).n, ends, L.Sections(Threads(e), n, j));
  }

  /** The same from the call of disconnectAll at moment n. */
  lemma DisconnectAllEnds(e: JointExecution, n: nat) returns (j: nat, ends: seq<NodeRuns.End>)
    requires IsJointExecution(e) && F.Fair(Threads(e)) && F.NeverStuck(Threads(e)) && Liveness.NeverQuits(Threads(e))
    requires e.turn(n).Some? && e.turn(n).value.By? && e.turn(n).value.a.Some? && e.turn(n).value.a.value.DisconnectAll?
    requires forall k: nat :: n < k ==> QuietAt(e, k)
    ensures j > n && AllClosed(e.at(n + 1).n, e.at(j).n, ends) && e.at(n + 1).n.peers.Keys == e.at(n).n.peers.Keys
  {
    assert Goes(e, n);
    assert e.at(n + 1).n == N.DoDisconnectAll(e.at(n).n, e.turn(n).value.a.value.all);
    j, ends := ClosingComesToAnEnd(e, n + 1);
  }

  // ---- buffers and requests -----------------------------------------------

  /** How many buffers were handled, or requests popped, so far. */
  function Done(n: N.State, w: Liveness.Worker): nat {
    if w.Sender? then |n.h.handled| else n.h.popped
  }

  /** And how many were accepted, or arrived. */
  function Asked(n: N.State, w: Liveness.Worker): nat {
    if w.Sender? then |n.h.accepted| else |n.h.arrived|
  }

  lemma AskedIsDoneOrQueued(j: Joint, w: Liveness.Worker)
    requires Sound(j)
    ensures Asked(j.n, w) == Done(j.n, w) + Liveness.Work(j.p, w)
  {
  }

  lemma ActionsDo(n: N.State, a: N.Action)
    requires N.Enabled(n, a)
    ensures var t := N.Apply(n, a);
      && |t.h.handled| == |n.h.handled| + (if a.SendOne? then 1 else 0)
      && n.h.accepted <= t.h.accepted
  {
    if a.ListenSection? { SectionHandlesNothing(n, a); }
  }

  lemma SectionHandlesNothing(n: N.State, a: N.Action)
    requires a.ListenSection?
    ensures var t := N.DoListenSection(n, a.order, a.acc, a.recv, a.endTold);
      t.h.handled == n.h.handled && t.h.accepted == n.h.accepted
  {
  }

  lemma ActionsPop(n: N.State, a: N.Action)
    requires ConnectQueue.Queue(n) && N.Enabled(n, a)
    ensures N.Apply(n, a).h.popped == n.h.popped + if a.ConnectPop? then 1 else 0
  {
    if a.ListenSection? {
      ConnectQueue.SectionLeavesQueue(n, a.order, a.acc, a.recv, a.endTold);
    } else if a.SendOne? {
      ConnectQueue.SendLeavesQueue(n, a.answer);
    }
  }

  /** A worker's pop and nothing else is the action that takes from its queue. */
  lemma PopIsAction(j: Joint, m: Move)
    requires Agree(j) && ConnectQueue.Queue(j.n) && Can(j, m) && m.By?
    ensures m.a.Some? && m.a.value.SendOne? <==> m.who == P.Send && j.p.s.SPop? && j.p.outbox != 0
    ensures m.a.Some? && m.a.value.ConnectPop? <==> m.who == P.Connect && j.p.k.KPop? && j.p.queue != 0
  {
  }

  /** Does this move take from the worker's queue? */
  predicate Takes(j: Joint, m: Move, w: Liveness.Worker) {
    m.By? && m.who == Liveness.Of(w) && Liveness.AtPop(j.p, w) && Liveness.Work(j.p, w) != 0
  }

  lemma MoveDoes(j: Joint, m: Move, w: Liveness.Worker)
    requires Sound(j) && Can(j, m)
    ensures Done(Next(j, m).n, w) == Done(j.n, w) + if Takes(j, m, w) then 1 else 0
    ensures j.n.h.accepted <= Next(j, m).n.h.accepted
  {
    if m.Elsewhere? {
      ActionsDo(j.n, N.OtherNode);
    } else {
      PopIsAction(j, m);
      if m.a.Some? {
        ActionsDo(j.n, m.a.value);
        ActionsPop(j.n, m.a.value);
      }
    }
  }

  lemma MomentDoes(e: JointExecution, w: Liveness.Worker, n: nat)
    requires IsJointExecution(e)
    ensures Done(e.at(n + 1).n, w) == Done(e.at(n).n, w) + if Liveness.Pops(Threads(e), w, n) then 1 else 0
    ensures e.at(n).n.h.accepted <= e.at(n + 1).n.h.accepted
  {
    SoundAt(e, n);
    assert Goes(e, n);
    if e.turn(n).Some? { MoveDoes(e.at(n), e.turn(n).value, w); }
  }

  lemma {:induction false} DoneCounts(e: JointExecution, w: Liveness.Worker, n: nat, j: nat)
    requires IsJointExecution(e) && n <= j
    ensures Done(e.at(j).n, w) == Done(e.at(n).n, w) + Liveness.Popped(Threads(e), w, n, j)
    ensures e.at(n).n.h.accepted <= e.at(j).n.h.accepted
    decreases j - n
  {
    if n < j {
      DoneCounts(e, w, n, j - 1);
      MomentDoes(e, w, j - 1);
    }
  }

  lemma AllIsDone(e: JointExecution, w: Liveness.Worker, n: nat) returns (j: nat)
    requires IsJointExecution(e) && F.Fair(Threads(e)) && F.NeverStuck(Threads(e)) && Liveness.NeverQuits(Threads(e))
    ensures j >= n && Done(e.at(j).n, w) == Asked(e.at(n).n, w)
  {
    ThreadsExecute(e);
    Liveness.EverythingQueuedIsServed(Threads(e), w, n);
    j :| j >= n && Liveness.Popped(Threads(e), w, n, j) == Liveness.Work(Threads(e).at(n), w);
    DoneCounts(e, w, n, j);
    SoundAt(e, n);
    AskedIsDoneOrQueued(e.at(n), w);
  }

  /** The calls and other steps of the node up to a moment. */
  function Before(e: JointExecution, n: nat): seq<N.Action> {
    Actions(Stretch(e, 0, n))
  }

  lemma BeforeRuns(e: JointExecution, n: nat)
    requires IsJointExecution(e)
    ensures N.ValidRun(e.at(0).n, Before(e, n)) && N.After(e.at(0).n, Before(e, n)) == e.at(n).n
  {
    StretchRuns(e, 0, n);
    RunsProject(e.at(0), Stretch(e, 0, n));
  }

  /** In every fair execution without destructor and deadlock: the buffers given to
      sendData by any moment for peers that were in the map are, some time later,
      exactly those handled, unchanged and in the order of the calls. */
  lemma EveryBufferIsHandled(e: JointExecution, n: nat) returns (j: nat)
    requires IsJointExecution(e) && F.Fair(Threads(e)) && F.NeverStuck(Threads(e)) && Liveness.NeverQuits(Threads(e))
    ensures j >= n && N.ValidRun(e.at(0).n, Before(e, n))
    ensures SendPipeline.Buffers(e.at(j).n.h.handled) == CallHistory.Given(e.at(0).n, Before(e, n))
  {
    j := AllAcceptedIsHandled(e, n);
    AcceptedIsGiven(e, n);
  }

  lemma AllAcceptedIsHandled(e: JointExecution, n: nat) returns (j: nat)
    requires IsJointExecution(e) && F.Fair(Threads(e)) && F.NeverStuck(Threads(e)) && Liveness.NeverQuits(Threads(e))
    ensures j >= n && SendPipeline.Buffers(e.at(j).n.h.handled) == e.at(n).n.h.accepted
  {
    j := AllIsDone(e, Liveness.Sender, n);
    DoneCounts(e, Liveness.Sender, n, j);
    SoundAt(e, j);
    assert SendPipeline.Pipeline(e.at(j).n);
  }

  lemma AcceptedIsGiven(e: JointExecution, n: nat)
    requires IsJointExecution(e)
    ensures N.ValidRun(e.at(0).n, Before(e, n)) && e.at(n).n.h.accepted == CallHistory.Given(e.at(0).n, Before(e, n))
  {
    SoundAt(e, 0);
    BeforeRuns(e, n);
    CallHistory.AcceptedAreGiven(e.at(0).n, Before(e, n));
  }

  /** And the calls of connectTo made by any moment have all had their requests tried
      and popped some time later. */
  lemma EveryRequestIsPopped(e: JointExecution, n: nat) returns (j: nat)
    requires IsJointExecution(e) && F.Fair(Threads(e)) && F.NeverStuck(Threads(e)) && Liveness.NeverQuits(Threads(e))
    ensures j >= n && e.at(j).n.h.popped == |CallHistory.Addresses(Before(e, n))|
    ensures forall k :: 0 <= k < |CallHistory.Addresses(Before(e, n))| ==> k in e.at(j).n.h.cycles
  {
    j := AllIsDone(e, Liveness.Connector, n);
    SoundAt(e, j);
    BeforeRuns(e, n);
    CallHistory.ArrivedAreCalled(e.at(0).n, Before(e, n));
    ConnectQueue.FirstAttemptsAreFifo(e.at(j).n);
  }
}
