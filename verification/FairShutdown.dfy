/**
 The destructor comes to its end: in every execution with fair scheduling all
 three joins are reached, unless the deadlock of line 336 is.
 */
module FairShutdown {
  import opened Common
  import opened Protocol
  import opened Deadlock
  import opened Shutdown
  import opened Fairness

  ghost predicate Sound(s: State) {
    Inv(s) && Started(s) && BatchFits(s.k) && Gone(s)
  }

  // ---- what the destructor has waited for ---------------------------------

  predicate BeforeConnect(pc: UserPC) { pc.QConnect? }
  predicate BeforeSend(pc: UserPC) { pc.QConnect? || pc.QConnectJoin? || pc.QSend? }
  predicate BeforeListen(pc: UserPC) { BeforeSend(pc) || pc.QSendJoin? || pc.QListen? }
  predicate AfterListen(pc: UserPC) { pc.QWant? || pc.QData? || pc.QDone? }
  predicate AfterSend(pc: UserPC) { pc.QListen? || pc.QListenJoin? || AfterListen(pc) }
  predicate AfterConnect(pc: UserPC) { pc.QSend? || pc.QSendJoin? || AfterSend(pc) }

  /** A thread the destructor is past has ended or was never started. */
  ghost predicate Gone(s: State) {
    forall u :: u in s.u ==> GoneFor(s, s.u[u])
  }

  predicate GoneFor(s: State, pc: UserPC) {
    && (BeforeConnect(pc) && !s.connectRun ==> s.k.KUnstarted?)
    && (BeforeSend(pc) && !s.sendRun ==> s.s.SUnstarted?)
    && (BeforeListen(pc) && !s.listenRun ==> s.l.LUnstarted?)
    && (AfterConnect(pc) ==> s.k.KUnstarted? || s.k.KExited?)
    && (AfterSend(pc) ==> s.s.SUnstarted? || s.s.SExited?)
    && (AfterListen(pc) ==> s.l.LUnstarted? || s.l.LExited?)
  }

  lemma WorkersKeepGone(s: State, who: Thread, x: Choice)
    requires Gone(s) && Can(s, who, x) && !who.User?
    ensures Gone(Step(s, who, x))
  {
    var t := Step(s, who, x);
    forall u | u in t.u ensures GoneFor(t, t.u[u]) {
      assert GoneFor(s, s.u[u]);
    }
  }

  lemma UserKeepsGone(s: State, u: nat, x: Choice)
    requires Inv(s) && Gone(s) && u in s.u && UserCan(s, u, x)
    ensures Gone(UserStep(s, u, x))
  {
    var t := UserStep(s, u, x);
    forall v | v in t.u ensures GoneFor(t, t.u[v]) {
      assert GoneFor(s, s.u[v]);
      if v == u {
        QuitterKeepsGone(s, u, x);
      } else {
        BystanderKeepsGone(s, u, x, v);
      }
    }
  }

  lemma QuitterKeepsGone(s: State, u: nat, x: Choice)
    requires Inv(s) && u in s.u && UserCan(s, u, x) && GoneFor(s, s.u[u])
    ensures GoneFor(UserStep(s, u, x), UserStep(s, u, x).u[u])
  {
    if Quitting(s.u[u]) {
      QuitMovesNoThread(s, u, x);
      DestructorKeepsGone(s, UserStep(s, u, x), u, x);
    } else {
      CallKeepsGone(s, u, x);
    }
  }

  lemma CallKeepsGone(s: State, u: nat, x: Choice)
    requires Starts(s) && u in s.u && UserCan(s, u, x) && !Quitting(s.u[u])
    ensures GoneFor(UserStep(s, u, x), UserStep(s, u, x).u[u])
  {
    if Quitting(UserStep(s, u, x).u[u]) {
      assert s.u[u].UIdle? && !s.quit;
    }
  }

  lemma DestructorKeepsGone(s: State, t: State, u: nat, x: Choice)
    requires u in s.u && Quitting(s.u[u]) && UserCan(s, u, x) && GoneFor(s, s.u[u])
    requires t.k == s.k && t.s == s.s && t.l == s.l
    requires t.connectRun == (s.connectRun && !s.u[u].QConnect?)
    requires t.sendRun == (s.sendRun && !s.u[u].QSend?) && t.listenRun == (s.listenRun && !s.u[u].QListen?)
    ensures GoneFor(t, UserNext(s, s.u[u], x))
  {
  }

  lemma QuitMovesNoThread(s: State, u: nat, x: Choice)
    requires u in s.u && Quitting(s.u[u]) && UserCan(s, u, x)
    ensures var t := UserStep(s, u, x);
      && t.k == s.k && t.s == s.s && t.l == s.l
      && t.connectRun == (s.connectRun && !s.u[u].QConnect?)
      && t.sendRun == (s.sendRun && !s.u[u].QSend?) && t.listenRun == (s.listenRun && !s.u[u].QListen?)
  {
  }

  lemma BystanderKeepsGone(s: State, u: nat, x: Choice, v: nat)
    requires Inv(s) && u in s.u && UserCan(s, u, x) && v in s.u && v != u && GoneFor(s, s.u[v])
    ensures GoneFor(UserStep(s, u, x), s.u[v])
  {
  }

  lemma StepKeepsSound(s: State, who: Thread, x: Choice)
    requires Sound(s) && Can(s, who, x)
    ensures Sound(Step(s, who, x))
  {
    StepKeepsLocks(s, who, x);
    StepKeepsStarts(s, who, x);
    StepKeepsStarted(s, who, x);
    if who.User? { UserKeepsGone(s, who.u, x); } else { WorkersKeepGone(s, who, x); }
  }

  lemma {:induction false} SoundAt(e: Execution, n: nat)
    requires IsExecution(e)
    ensures Sound(e.at(n))
  {
    if n == 0 {
      InitHasInv(e.at(0));
    } else {
      SoundAt(e, n - 1);
      assert Goes(e, n - 1);
      if e.turn(n - 1).Some? {
        StepKeepsSound(e.at(n - 1), e.turn(n - 1).value.who, e.turn(n - 1).value.x);
      }
    }
  }

  // ---- the joins ----------------------------------------------------------

  ghost predicate Destructs(s: State, q: nat) {
    q in s.u && Quitting(s.u[q]) && !s.u[q].QDone?
  }

  lemma {:induction false} ExitedStays(e: Execution, n: nat, j: nat)
    requires IsExecution(e) && n <= j && e.at(n).quit
    ensures e.at(n).k.KExited? ==> e.at(j).k.KExited?
    ensures e.at(n).s.SExited? ==> e.at(j).s.SExited?
    ensures e.at(n).l.LExited? ==> e.at(j).l.LExited?
    decreases j - n
  {
    if n < j {
      SoundAt(e, n);
      assert Goes(e, n);
      if e.turn(n).Some? { OthersLeaveThreadsAlone(e.at(n), e.turn(n).value.who, e.turn(n).value.x); }
      ExitedStays(e, n + 1, j);
    }
  }

  /** As long as neither the destructor nor the thread it waits for moves, nothing
      changes for it. */
  lemma Unchanged(e: Execution, n: nat, k: nat, q: nat)
    requires IsExecution(e) && n <= k && Sound(e.at(n)) && Destructs(e.at(n), q)
    requires Rests(e, Awaited(e.at(n), q), n, k) && Rests(e, User(q), n, k)
    ensures Sound(e.at(k)) && Destructs(e.at(k), q)
    ensures Awaited(e.at(k), q) == Awaited(e.at(n), q) && Far(e.at(k), q) == Far(e.at(n), q)
    ensures Wants(e.at(k), Awaited(e.at(n), q)) == Wants(e.at(n), Awaited(e.at(n), q))
  {
    SoundAt(e, k);
    StaysPut(e, Awaited(e.at(n), q), n, k);
    StaysPut(e, User(q), n, k);
    ExitedStays(e, n, k);
  }

  /** The thread the destructor waits for, or the destructor, moves again. */
  lemma AwaitedMoves(e: Execution, n: nat, q: nat)
    requires IsExecution(e) && Fair(e) && NeverStuck(e) && Destructs(e.at(n), q)
    ensures MovesLater(e, Awaited(e.at(n), q), n) || MovesLater(e, User(q), n)
  {
    SoundAt(e, n);
    var a := Awaited(e.at(n), q);
    if !MovesLater(e, a, n) && !MovesLater(e, User(q), n) {
      if Wants(e.at(n), a).Some? {
        OwnersMove(e, Wants(e.at(n), a).value, n);
        FreeForEver(e, Wants(e.at(n), a).value, n);
        WaiterMoves(e, a, n);
      } else {
        RestingAwaitedIsAble(e, n, q);
      }
    }
  }

  lemma RestingAwaitedIsAble(e: Execution, n: nat, q: nat)
    requires IsExecution(e) && Sound(e.at(n)) && Destructs(e.at(n), q)
    requires Wants(e.at(n), Awaited(e.at(n), q)).None?
    requires !MovesLater(e, Awaited(e.at(n), q), n) && !MovesLater(e, User(q), n)
    ensures AlwaysAbleLater(e, Awaited(e.at(n), q), n)
  {
    var a := Awaited(e.at(n), q);
    forall k: nat | k >= n ensures AbleLater(e, a, k) {
      Unchanged(e, n, k, q);
      AwaitedCanMove(e.at(k), q);
      assert CanMove(e.at(k), a) && Owes(e.at(k), a);
    }
  }

  function Stage(pc: UserPC): nat {
    match pc
    case QConnect => 8
    case QConnectJoin => 7
    case QSend => 6
    case QSendJoin => 5
    case QListen => 4
    case QListenJoin => 3
    case QWant => 2
    case QData => 1
    case _ => 0
  }

  /** How far the destructor is from its end: its own stage, then the thread it
      waits for. */
  datatype Distance = Distance(stage: nat, part: nat, cycles: nat, left: nat, tries: nat)

  function Far(s: State, q: nat): Distance
    requires q in s.u
  {
    match s.u[q]
    case QConnectJoin => Distance(7, ConnectStage(s.k), CyclesLeft(s.k), ConnectLeft(s.k), TriesLeft(s.k))
    case QSendJoin => Distance(5, 0, 0, SendLeft(s.s), 0)
    case QListenJoin => Distance(3, ListenStage(s.l), 0, ListenLeft(s.l), 0)
    case _ => Distance(Stage(s.u[q]), 0, 0, 0, 0)
  }

  predicate Nearer(a: Distance, b: Distance) {
    || a.stage < b.stage
    || (a.stage == b.stage && a.part < b.part)
    || (a.stage == b.stage && a.part == b.part && a.cycles < b.cycles)
    || (a.stage == b.stage && a.part == b.part && a.cycles == b.cycles && Sooner(b.left, b.tries, a.left, a.tries))
  }

  lemma AwaitedComesNearer(s: State, q: nat, who: Thread, x: Choice)
    requires Sound(s) && Destructs(s, q) && Can(s, who, x) && (who == Awaited(s, q) || who == User(q))
    ensures var t := Step(s, who, x);
      q in t.u && Quitting(t.u[q]) && Nearer(Far(t, q), Far(s, q))
  {
    if who == Connect {
      ConnectWindsDown(s, x);
    } else if who == Send {
      SendWindsDown(s, x);
    } else if who == Listen {
      ListenWindsDown(s, x);
    } else {
      DestructorComesNearer(s, q, x);
    }
  }

  lemma DestructorComesNearer(s: State, q: nat, x: Choice)
    requires Destructs(s, q) && UserCan(s, q, x)
    ensures var t := UserStep(s, q, x);
      Quitting(t.u[q]) && Far(t, q).stage < Far(s, q).stage
  {
  }

  lemma ComesNearer(e: Execution, n: nat, q: nat) returns (i: nat)
    requires IsExecution(e) && Fair(e) && NeverStuck(e) && Destructs(e.at(n), q)
    ensures i > n && q in e.at(i).u && Quitting(e.at(i).u[q]) && Nearer(Far(e.at(i), q), Far(e.at(n), q))
  {
    var k := NextMove(e, n, q);
    MoveComesNearer(e, k, q);
    i := k + 1;
  }

  /** Up to the next move of the destructor or of the thread it waits for,
      nothing changes for it. */
  lemma NextMove(e: Execution, n: nat, q: nat) returns (k: nat)
    requires IsExecution(e) && Fair(e) && NeverStuck(e) && Destructs(e.at(n), q)
    ensures k >= n && Sound(e.at(k)) && Destructs(e.at(k), q) && Far(e.at(k), q) == Far(e.at(n), q)
    ensures Moved(e, k, Awaited(e.at(k), q)) || Moved(e, k, User(q))
  {
    SoundAt(e, n);
    k := FirstOfTwo(e, n, q);
    Unchanged(e, n, k, q);
  }

  lemma FirstOfTwo(e: Execution, n: nat, q: nat) returns (k: nat)
    requires IsExecution(e) && Fair(e) && NeverStuck(e) && Destructs(e.at(n), q)
    ensures var a := Awaited(e.at(n), q);
      k >= n && (Moved(e, k, a) || Moved(e, k, User(q))) && Rests(e, a, n, k) && Rests(e, User(q), n, k)
  {
    var a := Awaited(e.at(n), q);
    AwaitedMoves(e, n, q);
    k :| k >= n && (Moved(e, k, a) || Moved(e, k, User(q)));
    k := FirstMove(e, a, User(q), n, k);
  }

  lemma MoveComesNearer(e: Execution, k: nat, q: nat)
    requires IsExecution(e) && Sound(e.at(k)) && Destructs(e.at(k), q)
    requires Moved(e, k, Awaited(e.at(k), q)) || Moved(e, k, User(q))
    ensures q in e.at(k + 1).u && Quitting(e.at(k + 1).u[q]) && Nearer(Far(e.at(k + 1), q), Far(e.at(k), q))
  {
    assert Goes(e, k);
    AwaitedComesNearer(e.at(k), q, e.turn(k).value.who, e.turn(k).value.x);
  }

  lemma {:induction false} DestructorEnds(e: Execution, n: nat, q: nat) returns (j: nat)
    requires IsExecution(e) && Fair(e) && NeverStuck(e) && q in e.at(n).u && Quitting(e.at(n).u[q])
    ensures j >= n && q in e.at(j).u && e.at(j).u[q].QDone?
    decreases Far(e.at(n), q).stage, Far(e.at(n), q).part, Far(e.at(n), q).cycles, Far(e.at(n), q).left, Far(e.at(n), q).tries
  {
    if e.at(n).u[q].QDone? {
      j := n;
    } else {
      var i := ComesNearer(e, n, q);
      j := DestructorEnds(e, i, q);
    }
  }

  /** No worker thread is running. */
  predicate AllJoined(s: State) {
    && (s.k.KUnstarted? || s.k.KExited?)
    && (s.s.SUnstarted? || s.s.SExited?)
    && (s.l.LUnstarted? || s.l.LExited?)
  }

  /** In every fair execution from construction in which some user's destructor
      has begun, it ends, with every worker thread ended or never started, or
      the threads get stuck at line 336. */
  lemma EveryJoinIsReached(e: Execution, n: nat, q: nat)
    requires IsExecution(e) && Fair(e) && q in e.at(n).u && Quitting(e.at(n).u[q])
    ensures (exists j: nat :: j >= n && q in e.at(j).u && e.at(j).u[q].QDone? && AllJoined(e.at(j)))
            || exists j: nat :: Stuck(e.at(j))
  {
    if NeverStuck(e) {
      var j := DestructorEnds(e, n, q);
      SoundAt(e, j);
      assert GoneFor(e.at(j), e.at(j).u[q]);
    }
  }

  /** After that no thread moves again: the end is final. */
  lemma NobodyMovesAfterwards(s: State, q: nat, who: Thread)
    requires Sound(s) && q in s.u && s.u[q].QDone? && IsThread(s, who)
    ensures !CanMove(s, who)
  {
    assert GoneFor(s, s.u[q]);
    assert s.quit;
  }

  // ---- there is always a way to the end -----------------------------------

  /** What the owners still have to do before they let go. */
  function Load(s: State): nat {
    var d := if s.d.Some? && IsThread(s, s.d.value) then 1 + LetGoLeft(s, s.d.value) else 0;
    var c := if s.c.Some? && s.c != s.d && IsThread(s, s.c.value) then 1 + LetGoLeft(s, s.c.value) else 0;
    d + c
  }

  /** A step of an owner that nobody awaits: the destructor is as far as before,
      and the mutexes are nearer to being free. */
  lemma OwnerClearsTheWay(s: State, q: nat, who: Thread, x: Choice)
    requires Sound(s) && Destructs(s, q) && Can(s, who, x) && who != Awaited(s, q) && who != User(q)
    requires s.d == Some(who) || s.c == Some(who)
    ensures var t := Step(s, who, x);
      && Destructs(t, q) && Far(t, q) == Far(s, q)
      && Sooner(ListenStage(s.l), Load(s), ListenStage(t.l), Load(t))
  {
    var t := Step(s, who, x);
    OthersLeavePC(s, who, x, User(q));
    OthersLeavePC(s, who, x, Awaited(s, q));
    OthersLeaveThreadsAlone(s, who, x);
    assert Far(t, q) == Far(s, q);
    LoadDrops(s, who, x);
  }

  lemma LoadDrops(s: State, who: Thread, x: Choice)
    requires Sound(s) && s.quit && Can(s, who, x) && (s.d == Some(who) || s.c == Some(who))
    ensures var t := Step(s, who, x); Sooner(ListenStage(s.l), Load(s), ListenStage(t.l), Load(t))
  {
    HolderIsOwner(s, who, D);
    HolderIsOwner(s, who, C);
    OthersLeaveThreadsAlone(s, who, x);
    match who
    case Listen => ListenLoadDrops(s, x);
    case Connect => ConnectLoadDrops(s, x);
    case Send => SendLoadDrops(s, x);
    case User(u) => UserLoadDrops(s, u, x);
  }

  lemma ListenLoadDrops(s: State, x: Choice)
    requires s.quit && ListenCan(s, x) && (s.d == Some(Listen) || s.c == Some(Listen))
    ensures var t := ListenStep(s, x); Sooner(ListenStage(s.l), Load(s), ListenStage(t.l), Load(t))
  {
    ListenWindsDown(s, x);
  }

  lemma ConnectLoadDrops(s: State, x: Choice)
    requires ConnectCan(s) && (s.d == Some(Connect) || s.c == Some(Connect))
    requires (s.d == Some(Connect) <==> ConnectHoldsD(s.k)) && (s.c == Some(Connect) <==> ConnectHoldsC(s.k))
    ensures Load(ConnectStep(s, x)) < Load(s)
  {
  }

  lemma SendLoadDrops(s: State, x: Choice)
    requires SendCan(s, x) && (s.d == Some(Send) || s.c == Some(Send))
    requires (s.d == Some(Send) <==> SendHoldsD(s.s)) && (s.c == Some(Send) <==> SendHoldsC(s.s))
    ensures Load(SendStep(s, x)) < Load(s)
  {
  }

  lemma UserLoadDrops(s: State, u: nat, x: Choice)
    requires Sound(s) && s.quit && u in s.u && UserCan(s, u, x) && (s.d == Some(User(u)) || s.c == Some(User(u)))
    requires (s.d == Some(User(u)) <==> UserHoldsD(s.u[u])) && (s.c == Some(User(u)) <==> UserHoldsC(s.u[u]))
    ensures Load(UserStep(s, u, x)) < Load(s)
  {
    assert s.u[u].QData?;
    OthersLeaveThreadsAlone(s, User(u), x);
  }

  /** The step NoDeadEnd finds brings the end nearer. */
  lemma FindStep(s: State, q: nat) returns (who: Thread)
    requires Sound(s) && Destructs(s, q) && !Stuck(s)
    ensures Can(s, who, SOME_CHOICE)
    ensures var t := Step(s, who, SOME_CHOICE);
      && Sound(t) && q in t.u && Quitting(t.u[q])
      && (Nearer(Far(t, q), Far(s, q))
          || (Far(t, q) == Far(s, q) && Sooner(ListenStage(s.l), Load(s), ListenStage(t.l), Load(t))))
  {
    who := NoDeadEnd(s, q);
    StepKeepsSound(s, who, SOME_CHOICE);
    if who == Awaited(s, q) || who == User(q) {
      AwaitedComesNearer(s, q, who, SOME_CHOICE);
    } else {
      OwnerClearsTheWay(s, q, who, SOME_CHOICE);
    }
  }

  /** From every state in which the destructor has begun some run leads to its
      end, or to the deadlock. */
  lemma {:induction false} CanFinish(s: State, q: nat) returns (run: seq<Move>)
    requires Sound(s) && q in s.u && Quitting(s.u[q])
    ensures ValidRun(s, run)
    ensures var t := After(s, run); Sound(t) && (Stuck(t) || (q in t.u && t.u[q].QDone?))
    decreases Far(s, q).stage, Far(s, q).part, Far(s, q).cycles, Far(s, q).left, Far(s, q).tries, ListenStage(s.l), Load(s)
  {
    if s.u[q].QDone? || Stuck(s) {
      run := [];
    } else {
      var who := FindStep(s, q);
      var rest := CanFinish(Step(s, who, SOME_CHOICE), q);
      run := [Move(who, SOME_CHOICE)] + rest;
      assert run[1..] == rest;
    }
  }

  lemma {:induction false} RunKeepsSound(s: State, run: seq<Move>)
    requires Sound(s) && ValidRun(s, run)
    ensures Sound(After(s, run))
    decreases |run|
  {
    if run != [] {
      StepKeepsSound(s, run[0].who, run[0].x);
      RunKeepsSound(Step(s, run[0].who, run[0].x), run[1..]);
    }
  }

  /** The same after every run from construction. */
  lemma EveryRunCanFinish(s0: State, before: seq<Move>, q: nat) returns (run: seq<Move>)
    requires Init(s0) && ValidRun(s0, before)
    requires q in After(s0, before).u && Quitting(After(s0, before).u[q])
    ensures ValidRun(After(s0, before), run)
    ensures var t := After(After(s0, before), run);
      Stuck(t) || (q in t.u && t.u[q].QDone? && AllJoined(t))
  {
    InitHasInv(s0);
    RunKeepsSound(s0, before);
    run := CanFinish(After(s0, before), q);
    var t := After(After(s0, before), run);
    if q in t.u { assert GoneFor(t, t.u[q]); }
  }

  /** A run that ends with the destructor done, followed by rest, is a fair
      execution; and by EveryRunCanFinish every run can be continued so. */
  lemma FinishedRunIsFair(s: State, run: seq<Move>, q: nat)
    requires Init(s) && ValidRun(s, run)
    requires q in After(s, run).u && After(s, run).u[q].QDone?
    ensures IsExecution(ThenRest(s, run)) && Fair(ThenRest(s, run))
  {
    InitHasInv(s);
    RunKeepsSound(s, run);
    forall who ensures !Owes(After(s, run), who) {
      if IsThread(After(s, run), who) { NobodyMovesAfterwards(After(s, run), q, who); }
    }
    RestIsFair(s, run);
  }
}
