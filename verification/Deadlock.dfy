/** Who holds which mutex, and the one way the threads can block each other. */
module Deadlock {
  import opened Common
  import opened Protocol

  // ---- what each program counter holds and wants --------------------------

  predicate TellHolds(t: Tell) { t.Hold? || t.Held? }
  predicate TellWants(t: Tell) { t.Want? || t.Rewant? }

  predicate ListenHoldsD(pc: ListenPC) {
    pc.LOpening? || pc.LOpenFailed? || pc.LOpenOk? || pc.LOpenDone? || pc.LClosing? || pc.LClosedWant? || pc.LClosed?
    || pc.LClosedEnd? || pc.LClosedEnd2? || pc.LPause? || pc.LMain? || pc.LMainTell?
  }

  predicate ListenHoldsC(pc: ListenPC) {
    || ((pc.LOpenFailed? || pc.LOpenOk? || pc.LMainTell?) && TellHolds(pc.t))
    || pc.LClosed? || pc.LClosedCallback? || pc.LRelock? || pc.LClosedEnd?
  }

  function ListenWants(pc: ListenPC): Option<Mutex> {
    if (pc.LOpenFailed? || pc.LOpenOk? || pc.LMainTell?) && TellWants(pc.t) then Some(C)
    else if pc.LClosedWant? then Some(C)
    else if pc.LOpenWant? || pc.LCloseWant? || pc.LRelock? || pc.LPauseWant? || pc.LMainWant? then Some(D)
    else None
  }

  predicate ConnectHoldsD(pc: ConnectPC) { pc.KRead? || pc.KPause? || pc.KFront? || pc.KWon? || pc.KPop? }
  predicate ConnectHoldsC(pc: ConnectPC) { pc.KLost? || pc.KTell? }
  function ConnectWants(pc: ConnectPC): Option<Mutex> {
    if pc.KReadWant? || pc.KPauseWant? || pc.KFrontWant? || pc.KWonWant? || pc.KPopWant? then Some(D)
    else if pc.KLostWant? || pc.KTellWant? then Some(C)
    else None
  }

  predicate SendHoldsD(pc: SendPC) { pc.SCount? || pc.SPause? || pc.SHandle? || pc.STell? || pc.SPop? }
  predicate SendHoldsC(pc: SendPC) { pc.STell? && TellHolds(pc.t) }
  function SendWants(pc: SendPC): Option<Mutex> {
    if pc.SWant? || pc.SPauseWant? || pc.SReWant? then Some(D)
    else if pc.STell? && TellWants(pc.t) then Some(C)
    else None
  }

  predicate UserHoldsD(pc: UserPC) {
    pc.UData? || pc.UListenChange? || pc.UListenWake? || pc.USendWant? || pc.USendError? || pc.USendEnd? || pc.UStarting? || pc.QData?
  }
  predicate UserHoldsC(pc: UserPC) { pc.USendError? || pc.USet? }
  function UserWants(pc: UserPC): Option<Mutex> {
    if pc.UWant? || pc.UStartWant? || pc.QWant? then Some(D)
    else if pc.USendWant? || pc.USetWant? then Some(C)
    else None
  }

  predicate IsThread(s: State, who: Thread) { who.User? ==> who.u in s.u }

  predicate Holds(s: State, who: Thread, m: Mutex)
    requires IsThread(s, who)
  {
    match who
    case Listen => if m.D? then ListenHoldsD(s.l) else ListenHoldsC(s.l)
    case Connect => if m.D? then ConnectHoldsD(s.k) else ConnectHoldsC(s.k)
    case Send => if m.D? then SendHoldsD(s.s) else SendHoldsC(s.s)
    case User(u) => if m.D? then UserHoldsD(s.u[u]) else UserHoldsC(s.u[u])
  }

  function Wants(s: State, who: Thread): Option<Mutex>
    requires IsThread(s, who)
  {
    match who
    case Listen => ListenWants(s.l)
    case Connect => ConnectWants(s.k)
    case Send => SendWants(s.s)
    case User(u) => UserWants(s.u[u])
  }

  predicate InStart(pc: UserPC) {
    || ((pc.UWant? || pc.UData?) && (pc.op.DoListen? || pc.op.ConnectTo?))
    || pc.UListenChange? || pc.UListenWake? || pc.UStart? || pc.UStartWant? || pc.UStarting?
  }

  predicate Quitting(pc: UserPC) {
    || pc.QConnect? || pc.QConnectJoin? || pc.QSend? || pc.QSendJoin? || pc.QListen? || pc.QListenJoin?
    || pc.QWant? || pc.QData? || pc.QDone?
  }

  /** Threads are started once: the running flags are tested and set. */
  ghost predicate Starts(s: State) {
    && (!s.connectRun && !s.quit ==> s.k.KUnstarted?)
    && (!s.sendRun && !s.quit ==> s.s.SUnstarted?)
    && (!s.listenRun && !s.quit ==> s.l.LUnstarted?)
    && (s.l.LRelock? ==> s.relock)
    && Serial(s)
  }

  ghost predicate Serial(s: State) {
    OneStarter(s) && StartsFresh(s) && QuitsAlone(s)
  }

  ghost predicate OneStarter(s: State) {
    forall u :: u in s.u && InStart(s.u[u]) ==> s.starter == Some(u)
  }

  ghost predicate StartsFresh(s: State) {
    forall u :: u in s.u && (s.u[u].UStartWant? || s.u[u].UStarting?) ==> s.l.LUnstarted? && s.listenRun
  }

  ghost predicate QuitsAlone(s: State) {
    && (forall u :: u in s.u && !s.u[u].UIdle? ==> (s.quit <==> Quitting(s.u[u])))
    && (forall u, v :: u in s.u && v in s.u && u != v && Quitting(s.u[u]) ==> s.u[v].UIdle?)
  }

  // ---- the locks are kept -------------------------------------------------

  /** One mutex through one step of `who`: left alone, taken when free, or
      given up when held. */
  predicate Moves(before: Option<Thread>, after: Option<Thread>, who: Thread, held: bool, holds: bool) {
    || (after == before && held == holds)
    || (before.None? && after == Some(who) && !held && holds)
    || (after.None? && held && !holds)
  }

  ghost predicate Holding(s: State, m: Mutex) {
    && (Owner(s, m) == Some(Listen) <==> Holds(s, Listen, m))
    && (Owner(s, m) == Some(Connect) <==> Holds(s, Connect, m))
    && (Owner(s, m) == Some(Send) <==> Holds(s, Send, m))
    && (forall u :: u in s.u ==> (Owner(s, m) == Some(User(u)) <==> Holds(s, User(u), m)))
    && (Owner(s, m).Some? ==> IsThread(s, Owner(s, m).value))
  }

  lemma HoldingKept(s: State, t: State, who: Thread, m: Mutex)
    requires Holding(s, m) && IsThread(s, who) && t.u.Keys == s.u.Keys
    requires Moves(Owner(s, m), Owner(t, m), who, Holds(s, who, m), Holds(t, who, m))
    requires forall other :: IsThread(s, other) && other != who ==> Holds(t, other, m) == Holds(s, other, m)
    ensures Holding(t, m)
  {
    forall u | u in t.u ensures Owner(t, m) == Some(User(u)) <==> Holds(t, User(u), m) {
      assert IsThread(s, User(u));
    }
    assert IsThread(s, Listen) && IsThread(s, Connect) && IsThread(s, Send);
  }

  ghost predicate Locks(s: State) {
    Holding(s, D) && Holding(s, C)
  }

  lemma ListenMoves(s: State, x: Choice)
    requires ListenCan(s, x)
    ensures var t := ListenStep(s, x);
      && Moves(s.d, t.d, Listen, ListenHoldsD(s.l), ListenHoldsD(t.l))
      && Moves(s.c, t.c, Listen, ListenHoldsC(s.l), ListenHoldsC(t.l))
  {
  }

  lemma ConnectMoves(s: State, x: Choice)
    requires ConnectCan(s)
    ensures var t := ConnectStep(s, x);
      && Moves(s.d, t.d, Connect, ConnectHoldsD(s.k), ConnectHoldsD(t.k))
      && Moves(s.c, t.c, Connect, ConnectHoldsC(s.k), ConnectHoldsC(t.k))
  {
  }

  lemma SendMoves(s: State, x: Choice)
    requires SendCan(s, x)
    ensures var t := SendStep(s, x);
      && Moves(s.d, t.d, Send, SendHoldsD(s.s), SendHoldsD(t.s))
      && Moves(s.c, t.c, Send, SendHoldsC(s.s), SendHoldsC(t.s))
  {
  }

  lemma UserMoves(s: State, u: nat, x: Choice)
    requires u in s.u && UserCan(s, u, x)
    ensures var t := UserStep(s, u, x);
      && Moves(s.d, t.d, User(u), UserHoldsD(s.u[u]), UserHoldsD(t.u[u]))
      && Moves(s.c, t.c, User(u), UserHoldsC(s.u[u]), UserHoldsC(t.u[u]))
  {
  }

  lemma ListenKeepsLocks(s: State, x: Choice)
    requires Locks(s) && ListenCan(s, x)
    ensures Locks(ListenStep(s, x))
  {
    ListenMoves(s, x);
    HoldingKept(s, ListenStep(s, x), Listen, D);
    HoldingKept(s, ListenStep(s, x), Listen, C);
  }

  lemma ConnectKeepsLocks(s: State, x: Choice)
    requires Locks(s) && ConnectCan(s)
    ensures Locks(ConnectStep(s, x))
  {
    ConnectMoves(s, x);
    HoldingKept(s, ConnectStep(s, x), Connect, D);
    HoldingKept(s, ConnectStep(s, x), Connect, C);
  }

  lemma SendKeepsLocks(s: State, x: Choice)
    requires Locks(s) && SendCan(s, x)
    ensures Locks(SendStep(s, x))
  {
    SendMoves(s, x);
    HoldingKept(s, SendStep(s, x), Send, D);
    HoldingKept(s, SendStep(s, x), Send, C);
  }

  lemma UserKeepsLocks(s: State, u: nat, x: Choice)
    requires Locks(s) && Starts(s) && u in s.u && UserCan(s, u, x)
    ensures Locks(UserStep(s, u, x))
  {
    UserKeepsHolding(s, u, x, D);
    UserKeepsHolding(s, u, x, C);
  }

  lemma UserKeepsHolding(s: State, u: nat, x: Choice, m: Mutex)
    requires Holding(s, m) && Starts(s) && u in s.u && UserCan(s, u, x)
    ensures Holding(UserStep(s, u, x), m)
  {
    UserMoves(s, u, x);
    StartsSpawnIdle(s, u, x);
    HoldingKept(s, UserStep(s, u, x), User(u), m);
  }

  /** A thread a user starts was not running, so it holds nothing before and
      after. */
  lemma StartsSpawnIdle(s: State, u: nat, x: Choice)
    requires Starts(s) && u in s.u && UserCan(s, u, x)
    ensures var t := UserStep(s, u, x);
      && (t.l != s.l ==> s.l.LUnstarted? && t.l.LTop?)
      && (t.k != s.k ==> s.k.KUnstarted? && t.k.KTop?)
      && (t.s != s.s ==> s.s.SUnstarted? && t.s.STop?)
  {
  }

  lemma StepKeepsLocks(s: State, who: Thread, x: Choice)
    requires Locks(s) && Starts(s) && Can(s, who, x)
    ensures Locks(Step(s, who, x))
  {
    match who
    case Listen => ListenKeepsLocks(s, x);
    case Connect => ConnectKeepsLocks(s, x);
    case Send => SendKeepsLocks(s, x);
    case User(u) => UserKeepsLocks(s, u, x);
  }

  // ---- the starts are kept ------------------------------------------------

  lemma UserKeepsOneStarter(s: State, u: nat, x: Choice)
    requires Starts(s) && u in s.u && UserCan(s, u, x)
    ensures OneStarter(UserStep(s, u, x))
  {
  }

  lemma UserKeepsStartsFresh(s: State, u: nat, x: Choice)
    requires Starts(s) && u in s.u && UserCan(s, u, x)
    ensures StartsFresh(UserStep(s, u, x))
  {
  }

  lemma UserKeepsQuitsAlone(s: State, u: nat, x: Choice)
    requires QuitsAlone(s) && u in s.u && UserCan(s, u, x)
    ensures QuitsAlone(UserStep(s, u, x))
  {
  }

  lemma StepKeepsStarts(s: State, who: Thread, x: Choice)
    requires Starts(s) && Can(s, who, x)
    ensures Starts(Step(s, who, x))
  {
    if who.User? {
      UserKeepsOneStarter(s, who.u, x);
      UserKeepsStartsFresh(s, who.u, x);
      UserKeepsQuitsAlone(s, who.u, x);
    }
  }

  ghost predicate Inv(s: State) {
    Locks(s) && Starts(s)
  }

  lemma InitHasInv(s: State)
    requires Init(s)
    ensures Inv(s)
  {
  }

  lemma {:induction false} RunKeepsInv(s: State, run: seq<Move>)
    requires Inv(s) && ValidRun(s, run)
    ensures Inv(After(s, run)) && After(s, run).relock == s.relock
    decreases |run|
  {
    if run != [] {
      StepKeepsLocks(s, run[0].who, run[0].x);
      StepKeepsStarts(s, run[0].who, run[0].x);
      RunKeepsInv(Step(s, run[0].who, run[0].x), run[1..]);
    }
  }

  /** Two threads are never inside critical sections of the same mutex. */
  lemma MutualExclusion(s: State, a: Thread, b: Thread, m: Mutex)
    requires Locks(s) && IsThread(s, a) && IsThread(s, b)
    requires Holds(s, a, m) && Holds(s, b, m)
    ensures a == b
  {
    HolderIsOwner(s, a, m);
    HolderIsOwner(s, b, m);
  }

  lemma HolderIsOwner(s: State, who: Thread, m: Mutex)
    requires Locks(s) && IsThread(s, who)
    ensures Holds(s, who, m) <==> Owner(s, m) == Some(who)
  {
    assert Holding(s, m);
  }

  // ---- deadlock -----------------------------------------------------------

  ghost predicate WaitsFor(s: State, a: Thread, b: Thread) {
    IsThread(s, a) && Wants(s, a).Some? && Owner(s, Wants(s, a).value) == Some(b)
  }

  /** A circle of threads each waiting for a mutex the next one owns. */
  ghost predicate Cycle(s: State, ts: seq<Thread>) {
    |ts| >= 1 && forall i :: 0 <= i < |ts| ==> WaitsFor(s, ts[i], ts[if i + 1 < |ts| then i + 1 else 0])
  }

  /** The listen thread wants the data mutex back while it holds the callback
      mutex, and the owner of the data mutex wants the callback mutex. */
  ghost predicate Stuck(s: State) {
    && s.l.LRelock?
    && s.d.Some? && IsThread(s, s.d.value)
    && Wants(s, s.d.value) == Some(C)
  }

  /** The lock order: only the re-lock wants D while holding C, and nobody wants
      what it holds. */
  lemma LockOrder(s: State, who: Thread)
    requires IsThread(s, who)
    ensures Wants(s, who) == Some(D) ==> !Holds(s, who, D)
    ensures Wants(s, who) == Some(C) ==> !Holds(s, who, C)
    ensures Wants(s, who) == Some(D) && Holds(s, who, C) <==> who == Listen && s.l.LRelock?
  {
  }

  /** There is a circle of waits exactly when the threads are stuck this way. */
  lemma DeadlockIffStuck(s: State)
    requires Locks(s)
    ensures (exists ts :: Cycle(s, ts)) <==> Stuck(s)
  {
    if Stuck(s) {
      HolderIsOwner(s, Listen, C);
      assert Cycle(s, [Listen, s.d.value]);
    }
    forall ts | Cycle(s, ts) ensures Stuck(s) {
      CycleIsStuck(s, ts);
    }
  }

  lemma CycleIsStuck(s: State, ts: seq<Thread>)
    requires Locks(s) && Cycle(s, ts)
    ensures Stuck(s) && Listen in ts
  {
    var n := |ts|;
    var next := if 1 < n then 1 else 0;
    assert WaitsFor(s, ts[0], ts[next]);
    assert WaitsFor(s, ts[n - 1], ts[if n - 1 + 1 < n then n else 0]);
    assert WaitsFor(s, ts[next], ts[if next + 1 < n then next + 1 else 0]);
    LinkHoldsAndWants(s, ts[n - 1], ts[0]);
    LinkHoldsAndWants(s, ts[0], ts[next]);
  }

  /** A link of a circle: the second thread holds what the first one wants. */
  lemma LinkHoldsAndWants(s: State, a: Thread, b: Thread)
    requires Locks(s) && WaitsFor(s, a, b)
    ensures IsThread(s, b) && Holds(s, b, Wants(s, a).value)
    ensures Wants(s, b) != Wants(s, a)
    ensures Wants(s, a) == Some(C) && Wants(s, b) == Some(D) ==> b == Listen && s.l.LRelock?
  {
    var m := Wants(s, a).value;
    assert Holding(s, m);
    HolderIsOwner(s, b, m);
    LockOrder(s, b);
  }

  /** Once stuck, stuck for ever: neither of the two threads can move, and what
      the others do does not help. */
  lemma StuckForever(s: State, who: Thread, x: Choice)
    requires Inv(s) && Stuck(s) && Can(s, who, x)
    ensures Stuck(Step(s, who, x)) && Step(s, who, x).d == s.d && who != Listen && who != s.d.value
  {
    HolderIsOwner(s, Listen, C);
    HolderIsOwner(s, s.d.value, D);
    StepKeepsLocks(s, who, x);
    assert s.d == Some(Send) || s.d.value.User?;
  }

  /** In every run from a stuck state, the two threads never move again. */
  lemma {:induction false} StuckInEveryRun(s: State, run: seq<Move>)
    requires Inv(s) && Stuck(s) && ValidRun(s, run)
    ensures Stuck(After(s, run)) && After(s, run).d == s.d
    ensures forall m :: m in run ==> m.who != Listen && Some(m.who) != s.d
    decreases |run|
  {
    if run != [] {
      var who, x := run[0].who, run[0].x;
      StuckForever(s, who, x);
      StepKeepsLocks(s, who, x);
      StepKeepsStarts(s, who, x);
      StuckInEveryRun(Step(s, who, x), run[1..]);
      assert run == [run[0]] + run[1..];
    }
  }

  /** Without the re-lock of line 336 no circle of waits ever forms. */
  lemma NoRelockNoDeadlock(s: State, run: seq<Move>)
    requires Init(s) && !s.relock && ValidRun(s, run)
    ensures forall ts :: !Cycle(After(s, run), ts)
  {
    InitHasInv(s);
    RunKeepsInv(s, run);
    DeadlockIffStuck(After(s, run));
  }

  /** Whenever the listen thread has closed its listener, it finds no
      stopped-listening callback (line 332). */
  ghost predicate NobodyToTell(s: State, run: seq<Move>)
    requires ValidRun(s, run)
    decreases |run|
  {
    run == [] || (
      && (run[0].who == Listen && s.l.LClosed? ==> !run[0].x.told)
      && NobodyToTell(Step(s, run[0].who, run[0].x), run[1..]))
  }

  /** As written, the node has no deadlock in any run in which no
      stopped-listening callback is installed when listening stops. */
  lemma NoCallbackNoDeadlock(s: State, run: seq<Move>)
    requires Init(s) && ValidRun(s, run) && NobodyToTell(s, run)
    ensures forall ts :: !Cycle(After(s, run), ts)
  {
    InitHasInv(s);
    RunKeepsInv(s, run);
    NeverReleasesEarly(s, run);
    DeadlockIffStuck(After(s, run));
  }

  lemma StepReleasesNothing(s: State, who: Thread, x: Choice)
    requires Starts(s) && Can(s, who, x) && !s.l.LClosedCallback? && !s.l.LRelock?
    requires who == Listen && s.l.LClosed? ==> !x.told
    ensures var t := Step(s, who, x); !t.l.LClosedCallback? && !t.l.LRelock?
  {
    if who.User? { StartsSpawnIdle(s, who.u, x); }
  }

  lemma {:induction false} NeverReleasesEarly(s: State, run: seq<Move>)
    requires Inv(s) && ValidRun(s, run) && NobodyToTell(s, run)
    requires !s.l.LClosedCallback? && !s.l.LRelock?
    ensures !After(s, run).l.LClosedCallback? && !After(s, run).l.LRelock?
    decreases |run|
  {
    if run != [] {
      var who, x := run[0].who, run[0].x;
      StepKeepsLocks(s, who, x);
      StepKeepsStarts(s, who, x);
      StepReleasesNothing(s, who, x);
      NeverReleasesEarly(Step(s, who, x), run[1..]);
    }
  }

  const SOME_CHOICE := Choice(false, false, false, false, 0, CallSetCallback, Target(0, ANY))

  /** A thread that owns a mutex and wants none can move. */
  lemma OwnerMoves(s: State, who: Thread, m: Mutex)
    requires Locks(s) && Owner(s, m) == Some(who) && IsThread(s, who) && Wants(s, who).None?
    ensures Can(s, who, SOME_CHOICE)
  {
    HolderIsOwner(s, who, m);
  }

  /** A thread that wants a free mutex can move. */
  lemma FreeMutexIsTaken(s: State, who: Thread)
    requires IsThread(s, who) && Wants(s, who).Some? && Owner(s, Wants(s, who).value).None?
    ensures Can(s, who, SOME_CHOICE)
  {
  }

  /** Unless the threads are stuck, waiting for a mutex always has an end: one of
      the owners can move. */
  lemma WaitingEnds(s: State, waiter: Thread) returns (who: Thread)
    requires Inv(s) && !Stuck(s) && IsThread(s, waiter) && Wants(s, waiter).Some?
    ensures Can(s, who, SOME_CHOICE)
    ensures who == waiter || s.d == Some(who) || s.c == Some(who)
  {
    var m := Wants(s, waiter).value;
    if Owner(s, m).None? {
      FreeMutexIsTaken(s, waiter);
      who := waiter;
    } else {
      assert Holding(s, m);
      var o := Owner(s, m).value;
      if Wants(s, o).None? {
        OwnerMoves(s, o, m);
        who := o;
      } else {
        who := SecondOwnerMoves(s, o, m);
      }
    }
  }

  lemma SecondOwnerMoves(s: State, o: Thread, m: Mutex) returns (who: Thread)
    requires Inv(s) && !Stuck(s) && IsThread(s, o) && Owner(s, m) == Some(o) && Wants(s, o).Some?
    ensures Can(s, who, SOME_CHOICE)
    ensures s.d == Some(who) || s.c == Some(who)
  {
    HolderIsOwner(s, o, m);
    LockOrder(s, o);
    var m' := Wants(s, o).value;
    if Owner(s, m').None? {
      FreeMutexIsTaken(s, o);
      who := o;
    } else {
      assert Holding(s, m');
      who := Owner(s, m').value;
      HolderIsOwner(s, who, m');
      LockOrder(s, who);
      OwnerMoves(s, who, m');
    }
  }
}
