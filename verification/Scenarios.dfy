/** Two runs worth knowing: the deadlock at line 336, and a doListen that the
    listen thread sleeps through. */
module Scenarios {
  import opened Common
  import opened ListenerFlags
  import opened Protocol
  import opened Deadlock
  import opened ListenRequests

  ghost predicate Reachable(s: State) {
    exists s0, run :: Init(s0) && ValidRun(s0, run) && After(s0, run) == s
  }

  lemma {:induction false} RunSnoc(s: State, run: seq<Move>, m: Move)
    requires ValidRun(s, run) && Can(After(s, run), m.who, m.x)
    ensures ValidRun(s, run + [m]) && After(s, run + [m]) == Step(After(s, run), m.who, m.x)
    decreases |run|
  {
    if run == [] {
      assert [m][1..] == [];
    } else {
      assert (run + [m])[1..] == run[1..] + [m];
      RunSnoc(Step(s, run[0].who, run[0].x), run[1..], m);
    }
  }

  /** A move that any data allow: no section with peers to gain or lose, and no
      buffer for a peer there may not be. */
  predicate Modest(s: State, who: Thread, x: Choice) {
    && (who.Listen? && s.l.LMain? && !(x.ok && s.l.work > 0) ==> s.peers == 0 && !x.gain && !x.lose)
    && (who.User? && who.u in s.u && s.u[who.u] == UData(SendData) ==> !x.ok)
  }

  /** A set of states no modest step leads out of.  The runs below are followed
      inside an arbitrary such set. */
  ghost predicate Closed(r: iset<State>) {
    forall s, who, x :: s in r && Can(s, who, x) && Modest(s, who, x) ==> Step(s, who, x) in r
  }

  lemma ReachableIsClosed()
    ensures Closed(iset s: State | Reachable(s)) && Reachable(Fresh(true))
  {
    var fresh0 := Fresh(true);
    assert Init(fresh0) && ValidRun(fresh0, []) && After(fresh0, []) == fresh0;
    forall s, who, x | Reachable(s) && Can(s, who, x) ensures Reachable(Step(s, who, x)) {
      StepStaysReachable(s, who, x);
    }
  }

  lemma StepStaysReachable(s: State, who: Thread, x: Choice)
    requires Reachable(s) && Can(s, who, x)
    ensures Reachable(Step(s, who, x))
  {
    var s0, run :| Init(s0) && ValidRun(s0, run) && After(s0, run) == s;
    RunSnoc(s0, run, Move(who, x));
  }

  const GOAL := Target(4242, ANY)
  const YES := Choice(true, true, false, false, 0, CallStopListening, GOAL)
  const NO := Choice(false, false, false, false, 0, CallStopListening, GOAL)

  function Calls(op: DataCall): Choice {
    YES.(call := CallData(op))
  }

  function Fresh(relock: bool): State {
    State(relock, None, None, LUnstarted, KUnstarted, SUnstarted, map[0 := UIdle], Flags(false, false, false, false, false),
          false, false, false, false, 0, 0, 0, None, None, None, GOAL, GOAL)
  }

  lemma ListenGoes(r: iset<State>, s: State, x: Choice)
    requires Closed(r) && s in r && ListenCan(s, x) && Modest(s, Listen, x)
    ensures ListenStep(s, x) in r
  {
    assert Can(s, Listen, x) && Step(s, Listen, x) == ListenStep(s, x);
  }

  lemma UserGoes(r: iset<State>, s: State, x: Choice)
    requires Closed(r) && s in r && 0 in s.u && UserCan(s, 0, x) && Modest(s, User(0), x)
    ensures UserStep(s, 0, x) in r
  {
    assert Can(s, User(0), x) && Step(s, User(0), x) == UserStep(s, 0, x);
  }

  /** One user, number 0, who is at `pc`. */
  predicate UserIs(s: State, pc: UserPC) {
    s.u == map[0 := pc]
  }

  function Put(s: State, pc: UserPC): State {
    s.(u := map[0 := pc])
  }

  /** doListen up to holding the data mutex ... */
  lemma ListenCallLocks(r: iset<State>, s: State)
    requires Closed(r) && s in r && UserIs(s, UIdle) && s.d.None? && s.starter.None? && !s.quit
    ensures Put(s, UData(DoListen)).(starter := Some(0), d := Some(User(0))) in r
  {
    var s1 := Put(s, UWant(DoListen)).(starter := Some(0));
    UserGoes(r, s, Calls(DoListen));
    assert UserStep(s, 0, Calls(DoListen)) == s1;
    UserGoes(r, s1, YES);
    assert UserStep(s1, 0, YES) == Put(s1, UData(DoListen)).(d := Some(User(0)));
  }

  /** ... and its three writes under it. */
  lemma ListenCallEnables(r: iset<State>, s: State)
    requires s.target == GOAL && s.openedAs == GOAL
    requires Closed(r) && s in r && UserIs(s, UData(DoListen)) && s.d == Some(User(0))
    ensures Put(s, UListenChange).(f := s.f.(enabled := true), enabledAt := Some(s.l)) in r
  {
    UserGoes(r, s, YES);
    assert UserStep(s, 0, YES) == Put(s, UListenChange).(f := s.f.(enabled := true), enabledAt := Some(s.l));
  }

  lemma ListenCallChanges(r: iset<State>, s: State)
    requires s.target == GOAL && s.openedAs == GOAL
    requires Closed(r) && s in r && UserIs(s, UListenChange) && !s.f.available
    ensures Put(s, UListenWake) in r
  {
    UserGoes(r, s, YES);
    assert UserStep(s, 0, YES) == Put(s, UListenWake);
  }

  lemma ListenCallWakes(r: iset<State>, s: State)
    requires s.target == GOAL && s.openedAs == GOAL
    requires Closed(r) && s in r && UserIs(s, UListenWake)
    ensures Put(s, UStart).(d := None, f := s.f.(wakeup := true), wokenAt := Some(s.l)) in r
  {
    UserGoes(r, s, YES);
    assert UserStep(s, 0, YES) == Put(s, UStart).(d := None, f := s.f.(wakeup := true), wokenAt := Some(s.l));
  }

  lemma ListenCallWrites(r: iset<State>, s: State)
    requires s.target == GOAL && s.openedAs == GOAL
    requires Closed(r) && s in r && UserIs(s, UData(DoListen)) && s.d == Some(User(0)) && !s.f.available
    ensures Put(s, UStart).(d := None, f := s.f.(enabled := true, wakeup := true),
                            enabledAt := Some(s.l), wokenAt := Some(s.l)) in r
  {
    ListenCallEnables(r, s);
    var s1 := Put(s, UListenChange).(f := s.f.(enabled := true), enabledAt := Some(s.l));
    ListenCallChanges(r, s1);
    ListenCallWakes(r, Put(s1, UListenWake));
  }

  lemma ListenThreadIsWanted(r: iset<State>, s: State)
    requires Closed(r) && s in r && UserIs(s, UStart) && s.d.None? && !s.listenRun
    ensures Put(s, UStarting).(listenRun := true, d := Some(User(0))) in r
  {
    var s1 := Put(s, UStartWant).(listenRun := true);
    UserGoes(r, s, YES);
    assert UserStep(s, 0, YES) == s1;
    UserGoes(r, s1, YES);
    assert UserStep(s1, 0, YES) == Put(s1, UStarting).(d := Some(User(0)));
  }

  lemma ListenThreadStarts(r: iset<State>, s: State)
    requires Closed(r) && s in r && UserIs(s, UStart) && s.d.None? && !s.listenRun
    ensures Put(s, UIdle).(listenRun := true, starter := None, l := LTop) in r
  {
    ListenThreadIsWanted(r, s);
    var s2 := Put(s, UStarting).(listenRun := true, d := Some(User(0)));
    UserGoes(r, s2, YES);
    assert UserStep(s2, 0, YES) == Put(s2, UIdle).(d := None, starter := None, l := LTop);
  }

  lemma ListenerOpens(r: iset<State>, s: State)
    requires s.target == GOAL && s.openedAs == GOAL
    requires Closed(r) && s in r && s.l == LTest && s.d.None? && s.f.enabled && !s.f.available
    ensures s.(l := LOpenOk(Want), d := Some(Listen), f := s.f.(available := true, listening := true),
                         enabledAt := None, wokenAt := None) in r
  {
    var s1 := s.(l := LOpenWant, enabledAt := None, wokenAt := None);
    ListenGoes(r, s, YES);
    var s2 := s1.(l := LOpening, d := Some(Listen));
    ListenGoes(r, s1, YES);
    ListenGoes(r, s2, YES);
  }

  lemma OpeningIsTold(r: iset<State>, s: State)
    requires Closed(r) && s in r && s.l == LOpenOk(Want) && s.d == Some(Listen) && s.c.None?
    ensures s.(l := LClear, d := None, f := s.f.(changing := false)) in r
  {
    TellIsSkipped(r, s);
    ListenGoes(r, s.(l := LOpenOk(Held), c := Some(Listen)), NO);
    ListenGoes(r, s.(l := LOpenDone), NO);
  }

  lemma TellIsSkipped(r: iset<State>, s: State)
    requires Closed(r) && s in r && s.l == LOpenOk(Want) && s.d == Some(Listen) && s.c.None?
    ensures s.(l := LOpenOk(Held), c := Some(Listen)) in r
  {
    ListenGoes(r, s, NO);
    ListenGoes(r, s.(l := LOpenOk(Hold), c := Some(Listen)), NO);
  }

  lemma PauseIsEntered(r: iset<State>, s: State)
    requires Closed(r) && s in r && s.l == LClear && s.d.None?
    ensures s.(l := LPause, d := Some(Listen), f := s.f.(wakeup := false)) in r
  {
    ListenGoes(r, s, NO);
    ListenGoes(r, s.(l := LPauseWant, f := s.f.(wakeup := false)), NO);
  }

  lemma PauseIsPassed(r: iset<State>, s: State)
    requires Closed(r) && s in r && s.l == LClear && s.d.None? && s.f.available && !s.quit
    ensures s.(l := LMainWant, f := s.f.(wakeup := false)) in r
  {
    PauseIsEntered(r, s);
    var f := s.f.(wakeup := false);
    ListenGoes(r, s.(l := LPause, f := f, d := Some(Listen)), NO);
    ListenGoes(r, s.(l := LCheckQuit, f := f), NO);
  }

  lemma SectionRuns(r: iset<State>, s: State)
    requires Closed(r) && s in r && s.l == LMainWant && s.d.None? && s.listenRun && s.peers == 0
    ensures s.(l := LTest) in r
  {
    ListenGoes(r, s, NO);
    ListenGoes(r, s.(l := LMain(0), d := Some(Listen)), NO);
    ListenGoes(r, s.(l := LTop), NO);
  }

  lemma UserStops(r: iset<State>, s: State)
    requires Closed(r) && s in r && UserIs(s, UIdle) && s.listenRun && !s.quit
    ensures s.(f := s.f.(enabled := false, wakeup := true)) in r
  {
    UserStopsFirst(r, s);
    var s1 := Put(s, UStopWake).(f := s.f.(enabled := false));
    UserGoes(r, s1, YES);
    assert UserStep(s1, 0, YES) == Put(s1, UIdle).(f := s1.f.(wakeup := true));
  }

  lemma UserStopsFirst(r: iset<State>, s: State)
    requires Closed(r) && s in r && UserIs(s, UIdle) && s.listenRun && !s.quit
    ensures Put(s, UStopWake).(f := s.f.(enabled := false)) in r
  {
    UserGoes(r, s, YES);
    assert UserStep(s, 0, YES) == Put(s, UStopWake).(f := s.f.(enabled := false));
  }

  lemma TestsFindNothing(r: iset<State>, s: State)
    requires Closed(r) && s in r && s.l == LTest && !s.f.enabled && !s.f.changing
    ensures s.(l := LTestStop, enabledAt := None, wokenAt := None) in r
  {
    ListenGoes(r, s, NO);
    ListenGoes(r, s.(l := LTestChanging, enabledAt := None, wokenAt := None), NO);
  }

  lemma ListenerCloses(r: iset<State>, s: State)
    requires Closed(r) && s in r && s.l == LTestStop && s.d.None? && !s.f.enabled && s.f.available
    ensures s.(l := LClosedWant, d := Some(Listen), f := s.f.(available := false, listening := false)) in r
  {
    ListenGoes(r, s, NO);
    ListenGoes(r, s.(l := LCloseWant), NO);
    ListenGoes(r, s.(l := LClosing, d := Some(Listen)), NO);
  }

  lemma ClosingIsTold(r: iset<State>, s: State)
    requires Closed(r) && s in r && s.l == LClosedWant && s.d == Some(Listen) && s.c.None? && s.relock
    ensures s.(l := LRelock, d := None, c := Some(Listen)) in r
  {
    ListenGoes(r, s, YES);
    ListenGoes(r, s.(l := LClosed, c := Some(Listen)), YES);
    ListenGoes(r, s.(l := LClosedCallback, d := None, c := Some(Listen)), YES);
  }

  lemma SendDataLocks(r: iset<State>, s: State)
    requires Closed(r) && s in r && UserIs(s, UIdle) && s.d.None? && !s.quit
    ensures Put(s, UData(SendData)).(d := Some(User(0))) in r
  {
    var s1 := Put(s, UWant(SendData));
    UserGoes(r, s, Calls(SendData));
    assert UserStep(s, 0, Calls(SendData)) == s1;
    UserGoes(r, s1, NO);
    assert UserStep(s1, 0, NO) == Put(s1, UData(SendData)).(d := Some(User(0)));
  }

  lemma SendDataFails(r: iset<State>, s: State)
    requires Closed(r) && s in r && UserIs(s, UIdle) && s.d.None? && !s.quit
    ensures Put(s, USendWant).(d := Some(User(0))) in r
  {
    SendDataLocks(r, s);
    var s2 := Put(s, UData(SendData)).(d := Some(User(0)));
    UserGoes(r, s2, NO);
    assert UserStep(s2, 0, NO) == Put(s2, USendWant);
  }

  lemma RelockIsTaken(r: iset<State>, s: State)
    requires Closed(r) && s in r && s.l == LRelock && s.d.None? && s.c == Some(Listen)
    ensures s.(l := LClear, c := None) in r
  {
    ListenGoes(r, s, NO);
    ListenGoes(r, s.(l := LClosedEnd, d := Some(Listen)), NO);
    ListenGoes(r, s.(l := LClosedEnd2, d := Some(Listen), c := None), NO);
  }

  /** A node that listens: doListen was called and its pass is done. */
  lemma NodeListens(r: iset<State>) returns (s: State)
    requires Closed(r) && Fresh(true) in r
    ensures s in r && s.l == LMainWant && s.d.None? && s.c.None? && UserIs(s, UIdle) && s.starter.None? && s.peers == 0
    ensures s.relock && s.listenRun && !s.quit && s.f == Flags(true, true, false, false, true)
    ensures s.target == GOAL && s.openedAs == GOAL
  {
    s := Fresh(true);
    ListenCallLocks(r, s);
    s := Put(s, UData(DoListen)).(starter := Some(0), d := Some(User(0)));
    ListenCallWrites(r, s);
    s := Put(s, UStart).(d := None, f := s.f.(enabled := true, wakeup := true), enabledAt := Some(s.l), wokenAt := Some(s.l));
    ListenThreadStarts(r, s);
    s := Put(s, UIdle).(listenRun := true, starter := None, l := LTop);
    ListenGoes(r, s, NO);
    s := s.(l := LTest);
    ListenerOpens(r, s);
    s := s.(l := LOpenOk(Want), d := Some(Listen), f := s.f.(available := true, listening := true), enabledAt := None, wokenAt := None);
    OpeningIsTold(r, s);
    s := s.(l := LClear, d := None, f := s.f.(changing := false));
    PauseIsPassed(r, s);
    s := s.(l := LMainWant, f := s.f.(wakeup := false));
  }

  /** Then stopListening was called, and the pass is about to take D again. */
  lemma NodeStops(r: iset<State>) returns (s: State)
    requires Closed(r) && Fresh(true) in r
    ensures s in r && s.l == LRelock && s.d.None? && s.c == Some(Listen) && UserIs(s, UIdle) && s.starter.None?
    ensures s.peers == 0 && !s.quit && s.f == Flags(false, false, false, true, false)
    ensures s.target == GOAL && s.openedAs == GOAL
  {
    s := NodeListens(r);
    UserStops(r, s);
    s := s.(f := s.f.(enabled := false, wakeup := true));
    SectionRuns(r, s);
    s := s.(l := LTest);
    TestsFindNothing(r, s);
    s := s.(l := LTestStop, enabledAt := None, wokenAt := None);
    ListenerCloses(r, s);
    s := s.(l := LClosedWant, d := Some(Listen), f := s.f.(available := false, listening := false));
    ClosingIsTold(r, s);
    s := s.(l := LRelock, d := None, c := Some(Listen));
  }

  /** The deadlock happens: listen, stop listening, and send to a peer that does
      not exist while the stopped-listening callback runs. */
  lemma DeadlockHappens() returns (s: State)
    ensures Reachable(s) && Stuck(s)
  {
    ReachableIsClosed();
    s := NodeSticks(iset t: State | Reachable(t));
  }

  lemma NodeSticks(r: iset<State>) returns (s: State)
    requires Closed(r) && Fresh(true) in r
    ensures s in r && Stuck(s)
  {
    s := NodeStops(r);
    SendDataFails(r, s);
    s := Put(s, USendWant).(d := Some(User(0)));
  }

  /** And so does a missed doListen: one that runs while the stopped-listening
      callback does. */
  lemma MissedDoListenHappens() returns (s: State)
    ensures Reachable(s) && Asleep(s) && s.f.enabled && !s.f.available
  {
    ReachableIsClosed();
    s := NodeMisses(iset t: State | Reachable(t));
  }

  lemma NodeMisses(r: iset<State>) returns (s: State)
    requires Closed(r) && Fresh(true) in r
    ensures s in r && Asleep(s) && s.f.enabled && !s.f.available
  {
    s := NodeStops(r);
    ListenCallLocks(r, s);
    s := Put(s, UData(DoListen)).(starter := Some(0), d := Some(User(0)));
    ListenCallWrites(r, s);
    s := Put(s, UStart).(d := None, f := s.f.(enabled := true, wakeup := true), enabledAt := Some(s.l), wokenAt := Some(s.l));
    RelockIsTaken(r, s);
    s := s.(l := LClear, c := None);
    s := ThreadFallsAsleep(r, s);
  }

  lemma ThreadFallsAsleep(r: iset<State>, s: State) returns (t: State)
    requires Closed(r) && s in r && s.l.LClear? && s.d.None? && Missing(s.f) && s.peers == 0 && !s.quit
    ensures t in r && Asleep(t) && t.f.enabled && !t.f.available
  {
    LateRequestIsMissed(s, NO);
    ListenGoes(r, s, NO);
    ListenGoes(r, ListenStep(s, NO), NO);
    ListenGoes(r, ListenStep(ListenStep(s, NO), NO), NO);
    t := ListenStep(ListenStep(ListenStep(s, NO), NO), NO);
  }
}
