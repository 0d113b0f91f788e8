/** The destructor: how each thread winds down, and that there is no dead end. */
module Shutdown {
  import opened Common
  import opened Protocol
  import opened Deadlock

  // ---- how far each thread is from its end --------------------------------

  function TellLeft(t: Tell): nat {
    match t
    case Want => 5
    case Hold => 4
    case Running => 3
    case Rewant => 2
    case Held => 1
  }

  /** Stage 2 is before the last accept/receive/delete section, stage 1 in it,
      stage 0 past it. */
  function ListenStage(pc: ListenPC): nat {
    if pc.LMainWant? then 2 else if pc.LMain? || pc.LMainTell? then 1 else 0
  }

  function ListenLeft(pc: ListenPC): nat {
    match pc
    case LMainWant => 0
    case LMain(work) => 6 * work
    case LMainTell(work, t) => 6 * work + TellLeft(t)
    case LTop => 24
    case LTest => 23
    case LTestChanging => 22
    case LTestStop => 21
    case LOpenWant => 20
    case LCloseWant => 20
    case LOpening => 19
    case LClosing => 19
    case LClosedWant => 18
    case LClosed => 17
    case LClosedCallback => 16
    case LRelock => 15
    case LClosedEnd => 14
    case LClosedEnd2 => 13
    case LOpenFailed(t) => 13 + TellLeft(t)
    case LOpenOk(t) => 13 + TellLeft(t)
    case LOpenDone => 13
    case LClear => 12
    case LBlocked => 11
    case LPauseWant => 10
    case LPause => 9
    case LCheckQuit => 8
    case LExited => 0
    case LUnstarted => 0
  }

  predicate Sooner(a: nat, b: nat, a': nat, b': nat) {
    a' < a || (a' == a && b' < b)
  }

  /** Once the destructor has begun, every step of the listen thread brings it
      nearer to its end; it starts at most one more section, since the stage
      never rises. */
  lemma ListenWindsDown(s: State, x: Choice)
    requires s.quit && ListenCan(s, x)
    ensures var t := ListenStep(s, x);
      Sooner(ListenStage(s.l), ListenLeft(s.l), ListenStage(t.l), ListenLeft(t.l))
  {
  }

  function SendLeft(pc: SendPC): nat {
    match pc
    case SWant => 13
    case SCount => 12
    case SBlocked => 12
    case SPauseWant => 11
    case SPause => 10
    case SReWant => 9
    case SHandle => 8
    case STell(t) => 2 + TellLeft(t)
    case SPop => 2
    case STop => 1
    case SExited => 0
    case SUnstarted => 0
  }

  /** After its flag is cleared the send thread counts down, handling at most one
      more entry: from a pop it goes to the top of its loop and out. */
  lemma SendWindsDown(s: State, x: Choice)
    requires s.quit && !s.sendRun && SendCan(s, x)
    ensures SendLeft(SendStep(s, x).s) < SendLeft(s.s)
    ensures SendStep(s, x).outbox != s.outbox ==> SendLeft(SendStep(s, x).s) <= 1
  {
  }

  /** Stage 2 is before the connect thread's last batch, stage 1 in it. */
  function ConnectStage(pc: ConnectPC): nat {
    if pc.KReadWant? || pc.KRead? then 2 else if InBatch(pc) || pc.KPopWant? || pc.KPop? then 1 else 0
  }

  predicate InBatch(pc: ConnectPC) {
    || pc.KCycle? || pc.KFrontWant? || pc.KFront? || pc.KTry? || pc.KLostWant? || pc.KLost?
    || pc.KWonWant? || pc.KWon? || pc.KTellWant? || pc.KTell?
  }

  function CyclesLeft(pc: ConnectPC): nat {
    if InBatch(pc) && pc.i < pc.q then pc.q - pc.i else 0
  }

  function ConnectLeft(pc: ConnectPC): nat {
    match pc
    case KReadWant => 1
    case KRead => 0
    case KCycle(_, _) => 9
    case KFrontWant(_, _) => 8
    case KFront(_, _) => 7
    case KTry(_, _, _) => 6
    case KLostWant(_, _) => 5
    case KLost(_, _) => 4
    case KWonWant(_, _) => 5
    case KWon(_, _) => 4
    case KTellWant(_, _) => 3
    case KTell(_, _) => 2
    case KPopWant => 1
    case KPop => 0
    case KBlocked => 5
    case KPauseWant => 4
    case KPause => 3
    case KTop => 2
    case KExited => 0
    case KUnstarted => 0
  }

  function TriesLeft(pc: ConnectPC): nat { if pc.KTry? then pc.left else 0 }

  predicate BatchFits(pc: ConnectPC) {
    InBatch(pc) && !pc.KCycle? ==> pc.i < pc.q
  }

  lemma ConnectKeepsBatch(s: State, x: Choice)
    requires ConnectCan(s) && BatchFits(s.k)
    ensures BatchFits(ConnectNext(s, x))
  {
  }

  /** After its flag is cleared the connect thread finishes at most the batch it
      is in or about to begin: stage, cycles, step and attempts left go down
      lexicographically. */
  lemma ConnectWindsDown(s: State, x: Choice)
    requires s.quit && !s.connectRun && ConnectCan(s) && BatchFits(s.k)
    ensures var t := ConnectNext(s, x);
      || ConnectStage(t) < ConnectStage(s.k)
      || (ConnectStage(t) == ConnectStage(s.k) && CyclesLeft(t) < CyclesLeft(s.k))
      || (ConnectStage(t) == ConnectStage(s.k) && CyclesLeft(t) == CyclesLeft(s.k)
          && Sooner(ConnectLeft(s.k), TriesLeft(s.k), ConnectLeft(t), TriesLeft(t)))
  {
  }

  /** Nobody else moves a thread of the node once the destructor has begun. */
  lemma OthersLeaveThreadsAlone(s: State, who: Thread, x: Choice)
    requires Inv(s) && s.quit && Can(s, who, x)
    ensures who != Listen ==> Step(s, who, x).l == s.l
    ensures who != Connect ==> Step(s, who, x).k == s.k
    ensures who != Send ==> Step(s, who, x).s == s.s
    ensures Step(s, who, x).quit
  {
  }

  // ---- how much is still done ---------------------------------------------

  /** A running flag the destructor has cleared stays clear. */
  lemma ClearedStaysClear(s: State, who: Thread, x: Choice)
    requires Inv(s) && s.quit && Can(s, who, x)
    ensures !s.connectRun ==> !Step(s, who, x).connectRun
    ensures !s.sendRun ==> !Step(s, who, x).sendRun
  {
  }

  datatype Work = Section | Entry | Batch

  /** Does this move begin a section, handle an entry, or finish a batch? */
  function Does(s: State, who: Thread, what: Work): nat {
    match what
    case Section => if who == Listen && s.l.LMainWant? then 1 else 0
    case Entry => if who == Send && s.s.SPop? && s.outbox > 0 then 1 else 0
    case Batch => if who == Connect && s.k.KPop? then 1 else 0
  }

  ghost function Amount(s: State, run: seq<Move>, what: Work): nat
    requires ValidRun(s, run)
    decreases |run|
  {
    if run == [] then 0 else Does(s, run[0].who, what) + Amount(Step(s, run[0].who, run[0].x), run[1..], what)
  }

  /** How much the thread concerned can still do once it is told to end. */
  function Allowed(s: State, what: Work): nat {
    match what
    case Section => if ListenStage(s.l) == 2 then 1 else 0
    case Entry => if SendLeft(s.s) >= 2 then 1 else 0
    case Batch => if ConnectStage(s.k) >= 1 then 1 else 0
  }

  /** The destructor has begun and, for the two threads that look at their flag
      first, has cleared that flag. */
  predicate Told(s: State, what: Work) {
    s.quit && (what.Entry? ==> !s.sendRun) && (what.Batch? ==> !s.connectRun)
  }

  lemma WorkIsUsedUp(s: State, who: Thread, x: Choice, what: Work)
    requires Inv(s) && BatchFits(s.k) && Told(s, what) && Can(s, who, x)
    ensures Told(Step(s, who, x), what)
    ensures Does(s, who, what) + Allowed(Step(s, who, x), what) <= Allowed(s, what)
  {
    ClearedStaysClear(s, who, x);
    OthersLeaveThreadsAlone(s, who, x);
    match who
    case Listen => ListenWindsDown(s, x);
    case Send => if what.Entry? { SendWindsDown(s, x); }
    case Connect => if what.Batch? { ConnectWindsDown(s, x); }
    case User(_) =>
  }

  /** In every run after the destructor told a thread to end, it begins at most
      one more section, handles at most one more entry, finishes at most one
      more batch. */
  lemma {:induction false} AtMostOneMore(s: State, run: seq<Move>, what: Work)
    requires Inv(s) && BatchFits(s.k) && Told(s, what) && ValidRun(s, run)
    ensures Amount(s, run, what) <= Allowed(s, what) <= 1
    decreases |run|
  {
    if run != [] {
      var who, x := run[0].who, run[0].x;
      WorkIsUsedUp(s, who, x, what);
      StepKeepsLocks(s, who, x);
      StepKeepsStarts(s, who, x);
      if who.Connect? { ConnectKeepsBatch(s, x); } else { OthersLeaveThreadsAlone(s, who, x); }
      AtMostOneMore(Step(s, who, x), run[1..], what);
    }
  }

  /** The same from construction: `before` is any run that ends with the thread
      told to end, `run` any continuation. */
  lemma EveryLastWork(s0: State, before: seq<Move>, run: seq<Move>, what: Work)
    requires Init(s0) && ValidRun(s0, before) && Told(After(s0, before), what) && ValidRun(After(s0, before), run)
    ensures Amount(After(s0, before), run, what) <= 1
  {
    InitHasInv(s0);
    RunKeepsStarted(s0, before);
    AtMostOneMore(After(s0, before), run, what);
  }

  // ---- nobody keeps a mutex -----------------------------------------------

  function UserLeft(pc: UserPC): nat {
    match pc
    case UData(_) => 5
    case UListenChange => 4
    case UListenWake => 3
    case USendWant => 4
    case USendError => 3
    case USendEnd => 2
    case USet => 2
    case UStarting => 2
    case QData => 2
    case _ => 0
  }

  /** A thread that holds a mutex gives it up within finitely many of its own
      steps, in any state at all. */
  lemma ListenLetsGo(s: State, x: Choice, m: Mutex)
    requires ListenCan(s, x) && Holds(s, Listen, m) && Holds(ListenStep(s, x), Listen, m)
    ensures var t := ListenStep(s, x);
      Sooner(ListenStage(s.l), ListenLeft(s.l), ListenStage(t.l), ListenLeft(t.l))
  {
  }

  lemma OthersLetGo(s: State, who: Thread, x: Choice, m: Mutex)
    requires Can(s, who, x) && who != Listen && Holds(s, who, m) && Holds(Step(s, who, x), who, m)
    ensures who.Send? || who.User?
    ensures who.Send? ==> SendLeft(Step(s, who, x).s) < SendLeft(s.s)
    ensures who.User? ==> UserLeft(Step(s, who, x).u[who.u]) < UserLeft(s.u[who.u])
  {
  }

  // ---- the joins ----------------------------------------------------------

  /** A thread whose running flag is set, or is waited for, was started. */
  ghost predicate Started(s: State) {
    && (s.connectRun ==> !s.k.KUnstarted?)
    && (s.sendRun ==> !s.s.SUnstarted?)
    && (s.listenRun && s.l.LUnstarted? ==>
          s.starter.Some? && s.starter.value in s.u
          && (s.u[s.starter.value].UStartWant? || s.u[s.starter.value].UStarting?))
    && (forall u :: u in s.u && s.u[u].QConnectJoin? ==> !s.k.KUnstarted? && !s.connectRun)
    && (forall u :: u in s.u && s.u[u].QSendJoin? ==> !s.s.SUnstarted? && !s.sendRun)
    && (forall u :: u in s.u && s.u[u].QListenJoin? ==> !s.l.LUnstarted? && !s.listenRun)
  }

  lemma WorkersKeepStarted(s: State, who: Thread, x: Choice)
    requires Started(s) && Can(s, who, x) && !who.User?
    ensures Started(Step(s, who, x))
  {
  }

  lemma UserKeepsStarted(s: State, u: nat, x: Choice)
    requires Inv(s) && Started(s) && u in s.u && UserCan(s, u, x)
    ensures Started(UserStep(s, u, x))
  {
  }

  /** The thread the destructor is waiting for, or the destructor itself. */
  function Awaited(s: State, q: nat): Thread
    requires q in s.u
  {
    match s.u[q]
    case QConnectJoin => if s.k.KExited? then User(q) else Connect
    case QSendJoin => if s.s.SExited? then User(q) else Send
    case QListenJoin => if s.l.LExited? then User(q) else Listen
    case _ => User(q)
  }

  /** Until the destructor is done, unless the threads are stuck at line 336,
      there is always a thread that can move: the one it waits for, itself, or
      the owner of a mutex one of them wants. */
  lemma NoDeadEnd(s: State, q: nat) returns (who: Thread)
    requires Inv(s) && Started(s) && !Stuck(s)
    requires q in s.u && Quitting(s.u[q]) && !s.u[q].QDone?
    ensures Can(s, who, SOME_CHOICE)
    ensures who == Awaited(s, q) || s.d == Some(who) || s.c == Some(who)
    ensures s.quit
    ensures Awaited(s, q) == Connect ==> !s.connectRun
    ensures Awaited(s, q) == Send ==> !s.sendRun
  {
    var a := Awaited(s, q);
    if Wants(s, a).Some? {
      who := WaitingEnds(s, a);
    } else {
      who := a;
      AwaitedCanMove(s, q);
    }
  }

  lemma AwaitedCanMove(s: State, q: nat)
    requires Inv(s) && Started(s) && q in s.u && Quitting(s.u[q]) && !s.u[q].QDone?
    requires Wants(s, Awaited(s, q)).None?
    ensures Can(s, Awaited(s, q), SOME_CHOICE)
  {
  }

  lemma {:induction false} RunKeepsStarted(s: State, run: seq<Move>)
    requires Inv(s) && Started(s) && BatchFits(s.k) && ValidRun(s, run)
    ensures Inv(After(s, run)) && Started(After(s, run)) && BatchFits(After(s, run).k)
    decreases |run|
  {
    if run != [] {
      var who, x := run[0].who, run[0].x;
      StepKeepsLocks(s, who, x);
      StepKeepsStarts(s, who, x);
      StepKeepsStarted(s, who, x);
      RunKeepsStarted(Step(s, who, x), run[1..]);
    }
  }

  lemma StepKeepsStarted(s: State, who: Thread, x: Choice)
    requires Inv(s) && Started(s) && BatchFits(s.k) && Can(s, who, x)
    ensures Started(Step(s, who, x)) && BatchFits(Step(s, who, x).k)
  {
    if who.User? {
      UserKeepsStarted(s, who.u, x);
      StartsSpawnIdle(s, who.u, x);
    } else {
      WorkersKeepStarted(s, who, x);
      if who.Connect? { ConnectKeepsBatch(s, x); }
    }
  }

  /** Over every run: a destructor that is not done is not alone with threads
      that cannot move, except in the one deadlock. */
  lemma NoDeadEndInAnyRun(s0: State, run: seq<Move>, q: nat) returns (who: Thread)
    requires Init(s0) && ValidRun(s0, run)
    requires var s := After(s0, run); q in s.u && Quitting(s.u[q]) && !s.u[q].QDone? && !Stuck(s)
    ensures var s := After(s0, run);
      && Can(s, who, SOME_CHOICE)
      && (who == Awaited(s, q) || s.d == Some(who) || s.c == Some(who))
  {
    InitHasInv(s0);
    RunKeepsStarted(s0, run);
    who := NoDeadEnd(After(s0, run), q);
  }
}
