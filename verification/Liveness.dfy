/**
 Under fair scheduling, with no destructor and no deadlock, the send thread
 handles every buffer that is queued and the connect thread pops every request.
 */
module Liveness {
  import opened Protocol
  import opened Deadlock
  import opened Shutdown
  import opened Fairness

  datatype Worker = Sender | Connector

  function Of(w: Worker): Thread {
    if w.Sender? then Send else Connect
  }

  /** What is queued for a worker. */
  function Work(s: State, w: Worker): nat {
    if w.Sender? then s.outbox else s.queue
  }

  ghost predicate NeverQuits(e: Execution) {
    forall n: nat :: !e.at(n).quit
  }

  // ---- a worker with work is running --------------------------------------

  ghost predicate Manned(s: State) {
    && BatchFits(s.k)
    && (!s.quit ==> SenderManned(s) && ConnectorManned(s))
  }

  predicate SenderManned(s: State) {
    && (s.outbox != 0 ==> s.sendRun)
    && (s.sendRun ==> !s.s.SUnstarted? && !s.s.SExited?)
  }

  predicate ConnectorManned(s: State) {
    && (s.queue != 0 ==> s.connectRun)
    && (s.connectRun ==> !s.k.KUnstarted? && !s.k.KExited?)
  }

  lemma WorkersKeepManned(s: State, who: Thread, x: Choice)
    requires Inv(s) && Manned(s) && Can(s, who, x) && !who.User?
    ensures Manned(Step(s, who, x))
  {
    if who.Connect? { ConnectKeepsBatch(s, x); }
  }

  lemma UserKeepsManned(s: State, u: nat, x: Choice)
    requires Inv(s) && Manned(s) && u in s.u && UserCan(s, u, x)
    ensures Manned(UserStep(s, u, x))
  {
    StartsSpawnIdle(s, u, x);
  }

  lemma {:induction false} MannedAt(e: Execution, n: nat)
    requires IsExecution(e)
    ensures Inv(e.at(n)) && Manned(e.at(n))
  {
    InvAt(e, n);
    if n > 0 {
      MannedAt(e, n - 1);
      assert Goes(e, n - 1);
      if e.turn(n - 1).Some? {
        var who, x := e.turn(n - 1).value.who, e.turn(n - 1).value.x;
        if who.User? { UserKeepsManned(e.at(n - 1), who.u, x); } else { WorkersKeepManned(e.at(n - 1), who, x); }
      }
    }
  }

  predicate Active(s: State, w: Worker) {
    if w.Sender? then !s.s.SUnstarted? && !s.s.SExited? else !s.k.KUnstarted? && !s.k.KExited?
  }

  // ---- a running worker moves ---------------------------------------------

  lemma UnblockedCanMove(s: State, w: Worker)
    requires Active(s, w) && Wants(s, Of(w)).None?
    ensures Can(s, Of(w), SOME_CHOICE)
  {
  }

  lemma WorkerMoves(e: Execution, w: Worker, n: nat)
    requires IsExecution(e) && Fair(e) && NeverStuck(e) && Active(e.at(n), w) && Work(e.at(n), w) != 0
    ensures MovesLater(e, Of(w), n)
  {
    if Wants(e.at(n), Of(w)).Some? {
      OwnersMove(e, Wants(e.at(n), Of(w)).value, n);
      FreeForEver(e, Wants(e.at(n), Of(w)).value, n);
      WaiterMoves(e, Of(w), n);
    } else if !MovesLater(e, Of(w), n) {
      RestingWorkerIsAble(e, w, n);
    }
  }

  lemma RestingWorkerIsAble(e: Execution, w: Worker, n: nat)
    requires IsExecution(e) && Active(e.at(n), w) && Wants(e.at(n), Of(w)).None? && !MovesLater(e, Of(w), n)
    requires Work(e.at(n), w) != 0
    ensures AlwaysAbleLater(e, Of(w), n)
  {
    forall k: nat | k >= n ensures AbleLater(e, Of(w), k) {
      StaysPut(e, Of(w), n, k);
      WorkStays(e, w, n, k);
      UnblockedCanMove(e.at(k), w);
      assert CanMove(e.at(k), Of(w)) && Owes(e.at(k), Of(w));
    }
  }

  // ---- it heads for its next pop ------------------------------------------

  predicate AtPop(s: State, w: Worker) {
    if w.Sender? then s.s.SPop? else s.k.KPop?
  }

  function SendToPop(pc: SendPC): nat {
    match pc
    case STop => 13
    case SWant => 12
    case SCount => 11
    case SBlocked => 10
    case SPauseWant => 9
    case SPause => 8
    case SReWant => 7
    case SHandle => 6
    case STell(t) => TellLeft(t)
    case _ => 0
  }

  function ConnectStretch(pc: ConnectPC): nat {
    if pc.KBlocked? || pc.KPauseWant? || pc.KPause? || pc.KTop? then 3
    else if pc.KReadWant? || pc.KRead? then 2
    else 1
  }

  datatype Distance = Distance(stretch: nat, cycles: nat, left: nat, tries: nat)

  function ToPop(s: State, w: Worker): Distance {
    if w.Sender? then Distance(0, 0, SendToPop(s.s), 0)
    else Distance(ConnectStretch(s.k), CyclesLeft(s.k), ConnectLeft(s.k), TriesLeft(s.k))
  }

  predicate Nearer(a: Distance, b: Distance) {
    || a.stretch < b.stretch
    || (a.stretch == b.stretch && a.cycles < b.cycles)
    || (a.stretch == b.stretch && a.cycles == b.cycles && Sooner(b.left, b.tries, a.left, a.tries))
  }

  lemma HeadsForPop(s: State, w: Worker, x: Choice)
    requires Inv(s) && Manned(s) && !s.quit && Work(s, w) != 0 && !AtPop(s, w) && Can(s, Of(w), x)
    ensures var t := Step(s, Of(w), x);
      Nearer(ToPop(t, w), ToPop(s, w)) && Work(t, w) == Work(s, w)
  {
    if w.Sender? { SenderHeadsForPop(s, x); } else { ConnectorHeadsForPop(s, x); }
  }

  lemma SenderHeadsForPop(s: State, x: Choice)
    requires SenderManned(s) && s.outbox != 0 && !s.s.SPop? && SendCan(s, x)
    ensures var t := SendStep(s, x); SendToPop(t.s) < SendToPop(s.s) && t.outbox == s.outbox
  {
  }

  lemma ConnectorHeadsForPop(s: State, x: Choice)
    requires ConnectorManned(s) && BatchFits(s.k) && s.queue != 0 && !s.k.KPop? && ConnectCan(s)
    ensures var t := ConnectStep(s, x);
      t.queue == s.queue && Nearer(ToPop(t, Connector), ToPop(s, Connector))
  {
  }

  lemma OthersLeaveWork(s: State, who: Thread, x: Choice, w: Worker)
    requires Can(s, who, x) && who != Of(w)
    ensures Work(Step(s, who, x), w) >= Work(s, w)
  {
  }

  lemma {:induction false} WorkStays(e: Execution, w: Worker, n: nat, j: nat)
    requires IsExecution(e) && n <= j && Rests(e, Of(w), n, j)
    ensures Work(e.at(j), w) >= Work(e.at(n), w)
    decreases j - n
  {
    if n < j {
      assert Goes(e, n) && !Moved(e, n, Of(w));
      if e.turn(n).Some? { OthersLeaveWork(e.at(n), e.turn(n).value.who, e.turn(n).value.x, w); }
      WorkStays(e, w, n + 1, j);
    }
  }

  /** At moment n the worker pops the front of its queue. */
  predicate Pops(e: Execution, w: Worker, n: nat) {
    Moved(e, n, Of(w)) && AtPop(e.at(n), w) && Work(e.at(n), w) != 0
  }

  /** How often it does from n on, before j. */
  function Popped(e: Execution, w: Worker, n: nat, j: nat): nat
    decreases j
  {
    if j <= n then 0 else Popped(e, w, n, j - 1) + if Pops(e, w, j - 1) then 1 else 0
  }

  lemma {:induction false} PoppedJoins(e: Execution, w: Worker, n: nat, i: nat, j: nat)
    requires n <= i <= j
    ensures Popped(e, w, n, j) == Popped(e, w, n, i) + Popped(e, w, i, j)
    decreases j - i
  {
    if i < j { PoppedJoins(e, w, n, i, j - 1); }
  }

  lemma {:induction false} NonePopped(e: Execution, w: Worker, n: nat, j: nat)
    requires n <= j && Rests(e, Of(w), n, j)
    ensures Popped(e, w, n, j) == 0
    decreases j - n
  {
    if n < j {
      assert !Moved(e, j - 1, Of(w));
      NonePopped(e, w, n, j - 1);
    }
  }

  /** The worker's next move. */
  lemma NextMove(e: Execution, w: Worker, n: nat) returns (k: nat)
    requires IsExecution(e) && Fair(e) && NeverStuck(e) && NeverQuits(e) && Work(e.at(n), w) != 0
    ensures k >= n && Moved(e, k, Of(w)) && Popped(e, w, n, k) == 0
    ensures ToPop(e.at(k), w) == ToPop(e.at(n), w) && Work(e.at(k), w) >= Work(e.at(n), w)
  {
    MannedAt(e, n);
    WorkerMoves(e, w, n);
    k :| k >= n && Moved(e, k, Of(w));
    k := FirstMove(e, Of(w), Of(w), n, k);
    StaysPut(e, Of(w), n, k);
    WorkStays(e, w, n, k);
    NonePopped(e, w, n, k);
  }

  lemma PopTakesOne(s: State, w: Worker, x: Choice)
    requires Work(s, w) != 0 && AtPop(s, w) && Can(s, Of(w), x)
    ensures Work(Step(s, Of(w), x), w) == Work(s, w) - 1
  {
  }

  lemma {:induction false} NextPop(e: Execution, w: Worker, n: nat) returns (j: nat)
    requires IsExecution(e) && Fair(e) && NeverStuck(e) && NeverQuits(e) && Work(e.at(n), w) != 0
    ensures j > n && Popped(e, w, n, j) == 1 && Work(e.at(j), w) + 1 >= Work(e.at(n), w)
    decreases ToPop(e.at(n), w).stretch, ToPop(e.at(n), w).cycles, ToPop(e.at(n), w).left, ToPop(e.at(n), w).tries
  {
    var k := NextMove(e, w, n);
    MoveServes(e, w, k);
    if Pops(e, w, k) {
      j := k + 1;
    } else {
      j := NextPop(e, w, k + 1);
      PoppedJoins(e, w, n, k + 1, j);
    }
  }

  lemma MoveServes(e: Execution, w: Worker, k: nat)
    requires IsExecution(e) && NeverQuits(e) && Moved(e, k, Of(w)) && Work(e.at(k), w) != 0
    ensures Pops(e, w, k) ==> Work(e.at(k + 1), w) == Work(e.at(k), w) - 1
    ensures !Pops(e, w, k) ==> Work(e.at(k + 1), w) == Work(e.at(k), w) && Nearer(ToPop(e.at(k + 1), w), ToPop(e.at(k), w))
  {
    MannedAt(e, k);
    assert Goes(e, k);
    if AtPop(e.at(k), w) {
      PopTakesOne(e.at(k), w, e.turn(k).value.x);
    } else {
      HeadsForPop(e.at(k), w, e.turn(k).value.x);
    }
  }

  lemma {:induction false} SomePops(e: Execution, w: Worker, n: nat, m: nat) returns (j: nat)
    requires IsExecution(e) && Fair(e) && NeverStuck(e) && NeverQuits(e) && m <= Work(e.at(n), w)
    ensures j >= n && Popped(e, w, n, j) == m
    decreases m
  {
    if m == 0 {
      j := n;
    } else {
      var k := NextPop(e, w, n);
      j := SomePops(e, w, k, m - 1);
      PoppedJoins(e, w, n, k, j);
    }
  }

  /** In every fair execution from construction that never gets stuck and in which
      no destructor begins: of all that is queued at any moment, every buffer is
      handled and every request popped later, since queues are first in, first
      out and as many are popped. */
  lemma EverythingQueuedIsServed(e: Execution, w: Worker, n: nat)
    requires IsExecution(e) && Fair(e) && NeverStuck(e) && NeverQuits(e)
    ensures exists j: nat :: j >= n && Popped(e, w, n, j) == Work(e.at(n), w)
  {
    var j := SomePops(e, w, n, Work(e.at(n), w));
  }

  /** Without a destructor the threads get stuck at line 336 or serve all that is
      queued. */
  lemma ServedOrStuck(e: Execution, w: Worker, n: nat)
    requires IsExecution(e) && Fair(e) && NeverQuits(e)
    ensures (exists j: nat :: j >= n && Popped(e, w, n, j) == Work(e.at(n), w)) || exists j: nat :: Stuck(e.at(j))
  {
    if NeverStuck(e) { EverythingQueuedIsServed(e, w, n); }
  }
}
