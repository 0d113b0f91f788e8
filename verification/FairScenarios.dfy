/** A fair execution without destructor: a user asks for a connection and then calls
    nothing more; the request is tried, lost and popped, and all threads sleep. */
module FairScenarios {
  import opened Common
  import opened ListenerFlags
  import opened Protocol
  import opened Deadlock
  import opened Scenarios
  import opened Fairness
  import opened Liveness

  // ---- runs from a given state --------------------------------------------

  ghost predicate Leads(s: State, t: State) {
    exists run :: ValidRun(s, run) && After(s, run) == t
  }

  lemma LeadsIsClosed(s: State)
    ensures Closed(iset t: State | Leads(s, t)) && Leads(s, s)
  {
    assert ValidRun(s, []) && After(s, []) == s;
    forall t, who, x | Leads(s, t) && Can(t, who, x) ensures Leads(s, Step(t, who, x)) {
      var run :| ValidRun(s, run) && After(s, run) == t;
      RunSnoc(s, run, Move(who, x));
    }
  }

  lemma ConnectGoes(r: iset<State>, s: State, x: Choice)
    requires Closed(r) && s in r && ConnectCan(s)
    ensures ConnectStep(s, x) in r
  {
    assert Can(s, Connect, x) && Step(s, Connect, x) == ConnectStep(s, x);
  }

  // ---- the call -----------------------------------------------------------

  lemma ConnectCallLocks(r: iset<State>, s: State)
    requires Closed(r) && s in r && UserIs(s, UIdle) && s.d.None? && s.starter.None? && !s.quit
    ensures Put(s, UData(ConnectTo)).(starter := Some(0), d := Some(User(0))) in r
  {
    var s1 := Put(s, UWant(ConnectTo)).(starter := Some(0));
    UserGoes(r, s, Calls(ConnectTo));
    assert UserStep(s, 0, Calls(ConnectTo)) == s1;
    UserGoes(r, s1, YES);
    assert UserStep(s1, 0, YES) == Put(s1, UData(ConnectTo)).(d := Some(User(0)));
  }

  lemma ConnectCallQueues(r: iset<State>, s: State)
    requires Closed(r) && s in r && UserIs(s, UData(ConnectTo)) && s.d == Some(User(0)) && !s.connectRun
    ensures Put(s, UStart).(d := None, connectRun := true, k := KTop, queue := s.queue + 1) in r
  {
    UserGoes(r, s, YES);
    assert UserStep(s, 0, YES) == Put(s, UStart).(d := None, connectRun := true, k := KTop, queue := s.queue + 1);
  }

  /** connectTo has returned, and the two threads it started are at their tops. */
  function Called(): State {
    Fresh(true).(connectRun := true, listenRun := true, k := KTop, l := LTop, queue := 1)
  }

  lemma NodeIsCalled(r: iset<State>)
    requires Closed(r) && Fresh(true) in r
    ensures Called() in r
  {
    var s := Fresh(true);
    ConnectCallLocks(r, s);
    var s1 := Put(s, UData(ConnectTo)).(starter := Some(0), d := Some(User(0)));
    ConnectCallQueues(r, s1);
    var s2 := Put(s1, UStart).(d := None, connectRun := true, k := KTop, queue := 1);
    ListenThreadStarts(r, s2);
    assert Put(s2, UIdle).(listenRun := true, starter := None, l := LTop) == Called();
  }

  // ---- the listen thread finds nothing to do ------------------------------

  lemma ListenSleeps(r: iset<State>, s: State)
    requires Closed(r) && s in r && s.l == LTop && s.listenRun && s.d.None? && s.peers == 0 && !s.quit
    requires s.f == Flags(false, false, false, false, false) && s.enabledAt.None? && s.wokenAt.None?
    ensures s.(l := LBlocked) in r
  {
    ListenGoes(r, s, NO);
    TestsFindNothing(r, s.(l := LTest));
    ListenGoes(r, s.(l := LTestStop), NO);
    PauseIsEntered(r, s.(l := LClear));
    ListenGoes(r, s.(l := LPause, d := Some(Listen)), NO);
  }

  // ---- the connect thread tries and pops ----------------------------------

  lemma BatchBegins(r: iset<State>, s: State)
    requires Closed(r) && s in r && s.k == KTop && s.connectRun && s.d.None? && s.queue == 1
    ensures s.(k := KCycle(0, 1)) in r
  {
    ConnectGoes(r, s, NO);
    ConnectGoes(r, s.(k := KReadWant), NO);
    ConnectGoes(r, s.(k := KRead, d := Some(Connect)), NO);
  }

  lemma CycleTries(r: iset<State>, s: State)
    requires Closed(r) && s in r && s.k == KCycle(0, 1) && s.d.None?
    ensures s.(k := KTry(0, 1, 0)) in r
  {
    ConnectGoes(r, s, NO);
    ConnectGoes(r, s.(k := KFrontWant(0, 1)), NO);
    ConnectGoes(r, s.(k := KFront(0, 1), d := Some(Connect)), NO);
  }

  lemma CycleLoses(r: iset<State>, s: State)
    requires Closed(r) && s in r && s.k == KTry(0, 1, 0) && s.c.None?
    ensures s.(k := KCycle(1, 1)) in r
  {
    ConnectGoes(r, s, NO);
    ConnectGoes(r, s.(k := KLostWant(0, 1)), NO);
    ConnectGoes(r, s.(k := KLost(0, 1), c := Some(Connect)), NO);
  }

  lemma BatchEnds(r: iset<State>, s: State)
    requires Closed(r) && s in r && s.k == KCycle(1, 1) && s.d.None? && s.queue == 1
    ensures s.(k := KTop, queue := 0) in r
  {
    ConnectGoes(r, s, NO);
    ConnectGoes(r, s.(k := KPopWant), NO);
    ConnectGoes(r, s.(k := KPop, d := Some(Connect)), NO);
  }

  lemma NothingIsRead(r: iset<State>, s: State)
    requires Closed(r) && s in r && s.k == KTop && s.connectRun && s.d.None? && s.queue == 0
    ensures s.(k := KPauseWant) in r
  {
    ConnectGoes(r, s, NO);
    ConnectGoes(r, s.(k := KReadWant), NO);
    ConnectGoes(r, s.(k := KRead, d := Some(Connect)), NO);
  }

  lemma ConnectSleeps(r: iset<State>, s: State)
    requires Closed(r) && s in r && s.k == KPauseWant && s.d.None? && s.queue == 0 && !s.quit
    ensures s.(k := KBlocked) in r
  {
    ConnectGoes(r, s, NO);
    ConnectGoes(r, s.(k := KPause, d := Some(Connect)), NO);
  }

  /** The request is popped and everybody sleeps. */
  function Resting(): State {
    Called().(l := LBlocked, k := KBlocked, queue := 0)
  }

  lemma NodeRests(r: iset<State>)
    requires Closed(r) && Called() in r
    ensures Resting() in r
  {
    var s := Called().(l := LBlocked);
    ListenSleeps(r, Called());
    BatchBegins(r, s);
    CycleTries(r, s.(k := KCycle(0, 1)));
    CycleLoses(r, s.(k := KTry(0, 1, 0)));
    BatchEnds(r, s.(k := KCycle(1, 1)));
    NothingIsRead(r, s.(k := KTop, queue := 0));
    ConnectSleeps(r, s.(k := KPauseWant, queue := 0));
  }

  lemma NobodyOwes(who: Thread)
    ensures !Owes(Resting(), who)
  {
  }

  // ---- the execution ------------------------------------------------------

  lemma {:induction false} AlongPrefix(s: State, xs: seq<Move>, ys: seq<Move>)
    requires ValidRun(s, xs) && ValidRun(After(s, xs), ys)
    ensures ValidRun(s, xs + ys) && After(s, xs + ys) == After(After(s, xs), ys)
    ensures Along(s, xs + ys, |xs|) == After(s, xs)
    decreases |xs|
  {
    if xs == [] {
      assert xs + ys == ys;
    } else {
      assert (xs + ys)[0] == xs[0] && (xs + ys)[1..] == xs[1..] + ys;
      AlongPrefix(Step(s, xs[0].who, xs[0].x), xs[1..], ys);
    }
  }

  lemma MomentIsCalm(e: Execution, n: nat)
    requires IsExecution(e)
    ensures e.at(n).quit ==> e.at(n + 1).quit
    ensures Stuck(e.at(n)) ==> Stuck(e.at(n + 1))
  {
    InvAt(e, n);
    assert Goes(e, n);
    if e.turn(n).Some? && Stuck(e.at(n)) { StuckForever(e.at(n), e.turn(n).value.who, e.turn(n).value.x); }
  }

  /** A calm end was calm all along. */
  lemma {:induction false} CalmBefore(e: Execution, n: nat, j: nat)
    requires IsExecution(e) && n <= j && !e.at(j).quit && !Stuck(e.at(j))
    ensures !e.at(n).quit && !Stuck(e.at(n))
    decreases j - n
  {
    if n < j {
      MomentIsCalm(e, j - 1);
      CalmBefore(e, n, j - 1);
    }
  }

  /** An execution that comes to rest so is fair, and was calm all along. */
  lemma RestingEnd(e: Execution, n: nat)
    requires IsExecution(e) && forall k: nat :: k >= n ==> e.at(k) == Resting()
    ensures Fair(e) && NeverStuck(e) && NeverQuits(e)
  {
    forall who, k: nat ensures !AlwaysAbleLater(e, who, k) {
      var last := if k < n then n else k;
      forall i: nat | i >= last ensures !Owes(e.at(i), who) { NobodyOwes(who); }
      assert !AbleLater(e, who, last);
    }
    forall k: nat ensures !e.at(k).quit && !Stuck(e.at(k)) {
      CalmBefore(e, k, if k < n then n else k);
    }
  }

  lemma SomeRun() returns (s: State, xs: seq<Move>, ys: seq<Move>)
    ensures Init(s) && ValidRun(s, xs) && After(s, xs) == Called()
    ensures ValidRun(Called(), ys) && After(Called(), ys) == Resting()
  {
    ReachableIsClosed();
    NodeIsCalled(iset t: State | Reachable(t));
    s, xs :| Init(s) && ValidRun(s, xs) && After(s, xs) == Called();
    LeadsIsClosed(Called());
    NodeRests(iset t: State | Leads(Called(), t));
    ys :| ValidRun(Called(), ys) && After(Called(), ys) == Resting();
  }

  /** Fair executions without destructor and deadlock exist, with a request queued
      at some moment and popped later, and with users who stop calling. */
  lemma FairServiceHappens() returns (e: Execution, n: nat, j: nat, last: nat)
    ensures IsExecution(e) && Fair(e) && NeverStuck(e) && NeverQuits(e)
    ensures Work(e.at(n), Connector) == 1 && j >= n && Popped(e, Connector, n, j) == 1
    ensures forall i: nat :: i >= last ==> e.turn(i).None?
  {
    var s, xs, ys := SomeRun();
    AlongPrefix(s, xs, ys);
    e, n, last := ThenRest(s, xs + ys), |xs|, |xs + ys|;
    RestingIsExecution(s, xs + ys);
    forall k: nat | k >= last ensures e.at(k) == Resting() { AlongGoes(s, xs + ys, k); }
    RestingEnd(e, last);
    EverythingQueuedIsServed(e, Connector, n);
    j :| j >= n && Popped(e, Connector, n, j) == Work(e.at(n), Connector);
  }
}
