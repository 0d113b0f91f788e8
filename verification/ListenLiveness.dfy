/**
 Under fair scheduling, with no destructor and no deadlock, the listen thread runs
 its section again and again as long as a peer remains.
 */
module ListenLiveness {
  import opened Common
  import opened Protocol
  import opened Deadlock
  import opened Shutdown
  import opened Fairness
  import opened Liveness

  // ---- a node with peers has a listen thread ------------------------------

  predicate Starting(pc: UserPC) {
    pc.UStart? || pc.UStartWant? || pc.UStarting?
  }

  /** Some user is about to start the listen thread. */
  ghost predicate InProgress(s: State) {
    s.starter.Some? && s.starter.value in s.u && Starting(s.u[s.starter.value])
  }

  ghost predicate Listened(s: State) {
    !s.quit ==>
      && !s.l.LExited?
      && (s.peers != 0 ==> s.connectRun || !s.l.LUnstarted?)
      && (s.l.LUnstarted? && s.connectRun ==> InProgress(s))
  }

  lemma WorkersKeepListened(s: State, who: Thread, x: Choice)
    requires Inv(s) && Listened(s) && Can(s, who, x) && !who.User?
    ensures Listened(Step(s, who, x))
  {
  }

  lemma UserKeepsListened(s: State, u: nat, x: Choice)
    requires Inv(s) && Started(s) && Listened(s) && u in s.u && UserCan(s, u, x)
    ensures Listened(UserStep(s, u, x))
  {
  }

  lemma {:induction false} ListenedAt(e: Execution, n: nat)
    requires IsExecution(e)
    ensures Inv(e.at(n)) && Started(e.at(n)) && BatchFits(e.at(n).k) && Listened(e.at(n))
  {
    InvAt(e, n);
    if n > 0 {
      ListenedAt(e, n - 1);
      assert Goes(e, n - 1);
      if e.turn(n - 1).Some? {
        var who, x := e.turn(n - 1).value.who, e.turn(n - 1).value.x;
        StepKeepsStarted(e.at(n - 1), who, x);
        if who.User? { UserKeepsListened(e.at(n - 1), who.u, x); } else { WorkersKeepListened(e.at(n - 1), who, x); }
      }
    }
  }

  // ---- sections -----------------------------------------------------------

  /** Does the listen thread end its section with this move? */
  predicate Ends(s: State, x: Choice) {
    s.l.LMain? && !(x.ok && s.l.work > 0)
  }

  predicate SectionEnds(e: Execution, n: nat) {
    Moved(e, n, Listen) && Ends(e.at(n), e.turn(n).value.x)
  }

  /** Sections ended from n on, before j. */
  function Sections(e: Execution, n: nat, j: nat): nat
    decreases j
  {
    if j <= n then 0 else Sections(e, n, j - 1) + if SectionEnds(e, j - 1) then 1 else 0
  }

  lemma {:induction false} SectionsJoin(e: Execution, n: nat, i: nat, j: nat)
    requires n <= i <= j
    ensures Sections(e, n, j) == Sections(e, n, i) + Sections(e, i, j)
    decreases j - i
  {
    if i < j { SectionsJoin(e, n, i, j - 1); }
  }

  lemma {:induction false} NoSections(e: Execution, n: nat, j: nat)
    requires n <= j && Rests(e, Listen, n, j)
    ensures Sections(e, n, j) == 0
    decreases j - n
  {
    if n < j {
      assert !Moved(e, j - 1, Listen);
      NoSections(e, n, j - 1);
    }
  }

  lemma OthersLeavePeers(s: State, who: Thread, x: Choice)
    requires Can(s, who, x) && who != Listen
    ensures Step(s, who, x).peers >= s.peers
  {
  }

  lemma {:induction false} PeersStay(e: Execution, n: nat, j: nat)
    requires IsExecution(e) && n <= j && Rests(e, Listen, n, j)
    ensures e.at(j).peers >= e.at(n).peers
    decreases j - n
  {
    if n < j {
      assert Goes(e, n) && !Moved(e, n, Listen);
      if e.turn(n).Some? { OthersLeavePeers(e.at(n), e.turn(n).value.who, e.turn(n).value.x); }
      PeersStay(e, n + 1, j);
    }
  }

  // ---- the listen thread gets started -------------------------------------

  function ToStart(pc: UserPC): nat {
    if pc.UStart? then 3 else if pc.UStartWant? then 2 else if pc.UStarting? then 1 else 0
  }

  lemma StarterMoves(e: Execution, u: nat, n: nat)
    requires IsExecution(e) && Fair(e) && NeverStuck(e) && u in e.at(n).u && Starting(e.at(n).u[u])
    ensures MovesLater(e, User(u), n)
  {
    if e.at(n).u[u].UStartWant? {
      OwnersMove(e, D, n);
      FreeForEver(e, D, n);
      WaiterMoves(e, User(u), n);
    } else if !MovesLater(e, User(u), n) {
      RestingStarterIsAble(e, u, n);
    }
  }

  lemma RestingStarterIsAble(e: Execution, u: nat, n: nat)
    requires IsExecution(e) && u in e.at(n).u && (e.at(n).u[u].UStart? || e.at(n).u[u].UStarting?)
    requires !MovesLater(e, User(u), n)
    ensures AlwaysAbleLater(e, User(u), n)
  {
    forall k: nat | k >= n ensures AbleLater(e, User(u), k) {
      StaysPut(e, User(u), n, k);
      assert Can(e.at(k), User(u), SOME_CHOICE);
      assert CanMove(e.at(k), User(u)) && Owes(e.at(k), User(u));
    }
  }

  lemma StarterStep(s: State, u: nat, x: Choice)
    requires Inv(s) && Started(s) && Listened(s) && !s.quit && s.l.LUnstarted? && s.starter == Some(u)
    requires u in s.u && Starting(s.u[u]) && UserCan(s, u, x)
    ensures var t := UserStep(s, u, x);
      !t.l.LUnstarted? || (t.starter == Some(u) && Starting(t.u[u]) && ToStart(t.u[u]) < ToStart(s.u[u]))
  {
  }

  /** Until the listen thread is started it does not move. */
  lemma {:induction false} UnstartedRests(e: Execution, n: nat, j: nat)
    requires IsExecution(e) && n <= j && e.at(j).l.LUnstarted?
    ensures Rests(e, Listen, n, j) && e.at(n).l.LUnstarted?
    decreases j - n
  {
    if n < j {
      StaysStarted(e, j - 1);
      UnstartedRests(e, n, j - 1);
    }
  }

  lemma ListenKeepsStarted(s: State, x: Choice)
    requires ListenCan(s, x)
    ensures !s.l.LUnstarted? && !ListenStep(s, x).l.LUnstarted?
  {
  }

  /** Once started, the listen thread does not become unstarted. */
  lemma StepKeepsRunning(s: State, who: Thread, x: Choice)
    requires Can(s, who, x)
    ensures Step(s, who, x).l.LUnstarted? ==> s.l.LUnstarted? && who != Listen
  {
    if who == Listen { ListenKeepsStarted(s, x); }
  }

  lemma StaysStarted(e: Execution, n: nat)
    requires IsExecution(e)
    ensures e.at(n + 1).l.LUnstarted? ==> e.at(n).l.LUnstarted? && !Moved(e, n, Listen)
  {
    assert Goes(e, n);
    if e.turn(n).Some? { StepKeepsRunning(e.at(n), e.turn(n).value.who, e.turn(n).value.x); }
  }

  lemma {:induction false} GetsStarted(e: Execution, u: nat, n: nat) returns (j: nat)
    requires IsExecution(e) && Fair(e) && NeverStuck(e) && NeverQuits(e)
    requires e.at(n).starter == Some(u) && u in e.at(n).u && Starting(e.at(n).u[u])
    ensures j >= n && !e.at(j).l.LUnstarted?
    decreases ToStart(e.at(n).u[u])
  {
    StarterMoves(e, u, n);
    var k: nat :| k >= n && Moved(e, k, User(u));
    k := FirstMove(e, User(u), User(u), n, k);
    StaysPut(e, User(u), n, k);
    ListenedAt(e, k);
    assert Goes(e, k);
    if !e.at(k).l.LUnstarted? {
      j := k;
    } else {
      StarterStep(e.at(k), u, e.turn(k).value.x);
      if !e.at(k + 1).l.LUnstarted? { j := k + 1; } else { j := GetsStarted(e, u, k + 1); }
    }
  }

  /** The first moment at which it is started. */
  lemma {:induction false} FirstStarted(e: Execution, n: nat, j: nat) returns (i: nat)
    requires IsExecution(e) && n <= j && !e.at(j).l.LUnstarted?
    ensures n <= i <= j && !e.at(i).l.LUnstarted? && Rests(e, Listen, n, i)
    decreases j - n
  {
    if n == j || !e.at(n).l.LUnstarted? {
      i := n;
    } else {
      i := FirstStarted(e, n + 1, j);
      if i > n {
        UnstartedMovesNot(e, n);
      }
    }
  }

  lemma UnstartedMovesNot(e: Execution, n: nat)
    requires IsExecution(e) && e.at(n).l.LUnstarted?
    ensures !Moved(e, n, Listen)
  {
    assert Goes(e, n);
  }

  lemma ListenStarts(e: Execution, n: nat) returns (i: nat)
    requires IsExecution(e) && Fair(e) && NeverStuck(e) && NeverQuits(e) && e.at(n).peers != 0
    ensures i >= n && !e.at(i).l.LUnstarted? && e.at(i).peers != 0 && Sections(e, n, i) == 0
  {
    ListenedAt(e, n);
    var j := n;
    if e.at(n).l.LUnstarted? {
      j := GetsStarted(e, e.at(n).starter.value, n);
    }
    i := FirstStarted(e, n, j);
    PeersStay(e, n, i);
    NoSections(e, n, i);
  }

  // ---- it heads for the end of its section --------------------------------

  predicate Awake(s: State) {
    !s.l.LUnstarted? && !s.l.LExited?
  }

  lemma UnblockedListens(s: State)
    requires Awake(s) && ListenWants(s.l).None?
    ensures Can(s, Listen, SOME_CHOICE)
  {
  }

  lemma ListenerMoves(e: Execution, n: nat)
    requires IsExecution(e) && Fair(e) && NeverStuck(e) && Awake(e.at(n)) && e.at(n).peers != 0
    ensures MovesLater(e, Listen, n)
  {
    if Wants(e.at(n), Listen).Some? {
      OwnersMove(e, Wants(e.at(n), Listen).value, n);
      FreeForEver(e, Wants(e.at(n), Listen).value, n);
      WaiterMoves(e, Listen, n);
    } else if !MovesLater(e, Listen, n) {
      RestingListenerIsAble(e, n);
    }
  }

  lemma RestingListenerIsAble(e: Execution, n: nat)
    requires IsExecution(e) && Awake(e.at(n)) && e.at(n).peers != 0
    requires ListenWants(e.at(n).l).None? && !MovesLater(e, Listen, n)
    ensures AlwaysAbleLater(e, Listen, n)
  {
    forall k: nat | k >= n ensures AbleLater(e, Listen, k) {
      StaysPut(e, Listen, n, k);
      PeersStay(e, n, k);
      UnblockedListens(e.at(k));
      assert CanMove(e.at(k), Listen) && Owes(e.at(k), Listen);
    }
  }

  function Stretch(pc: ListenPC): nat {
    if pc.LMain? || pc.LMainTell? then 0 else 1
  }

  lemma HeadsForEnd(s: State, x: Choice)
    requires ListenCan(s, x) && !s.quit && s.listenRun && s.peers != 0 && !Ends(s, x)
    ensures var t := ListenStep(s, x);
      Sooner(Stretch(s.l), ListenLeft(s.l), Stretch(t.l), ListenLeft(t.l)) && t.peers == s.peers
  {
  }

  lemma ListenerSteps(e: Execution, k: nat)
    requires IsExecution(e) && NeverQuits(e) && Moved(e, k, Listen) && e.at(k).peers != 0 && !SectionEnds(e, k)
    ensures var s, t := e.at(k), e.at(k + 1);
      Sooner(Stretch(s.l), ListenLeft(s.l), Stretch(t.l), ListenLeft(t.l)) && t.peers == s.peers
  {
    ListenedAt(e, k);
    assert Goes(e, k);
    HeadsForEnd(e.at(k), e.turn(k).value.x);
  }

  lemma {:induction false} NextEnd(e: Execution, n: nat) returns (j: nat)
    requires IsExecution(e) && Fair(e) && NeverStuck(e) && NeverQuits(e) && e.at(n).peers != 0 && !e.at(n).l.LUnstarted?
    ensures j > n && Sections(e, n, j) == 1
    decreases Stretch(e.at(n).l), ListenLeft(e.at(n).l)
  {
    var k := NextListenMove(e, n);
    if SectionEnds(e, k) {
      j := k + 1;
    } else {
      ListenerSteps(e, k);
      StaysStarted(e, k);
      j := NextEnd(e, k + 1);
      SectionsJoin(e, n, k + 1, j);
    }
  }

  lemma NextListenMove(e: Execution, n: nat) returns (k: nat)
    requires IsExecution(e) && Fair(e) && NeverStuck(e) && NeverQuits(e) && e.at(n).peers != 0 && !e.at(n).l.LUnstarted?
    ensures k >= n && Moved(e, k, Listen) && e.at(k).l == e.at(n).l && e.at(k).peers != 0 && Sections(e, n, k) == 0
  {
    ListenedAt(e, n);
    ListenerMoves(e, n);
    k :| k >= n && Moved(e, k, Listen);
    k := FirstMove(e, Listen, Listen, n, k);
    StaysPut(e, Listen, n, k);
    PeersStay(e, n, k);
    NoSections(e, n, k);
  }

  lemma NextSection(e: Execution, n: nat) returns (j: nat)
    requires IsExecution(e) && Fair(e) && NeverStuck(e) && NeverQuits(e) && e.at(n).peers != 0
    ensures j > n && Sections(e, n, j) == 1
  {
    var i := ListenStarts(e, n);
    j := NextEnd(e, i);
    SectionsJoin(e, n, i, j);
  }

  /** Sections follow one another as long as a peer remains: in every fair execution
      from construction without destructor and deadlock, for every m, there are m
      more sections unless there is a moment without peers first. */
  lemma {:induction false} SectionsGoOn(e: Execution, n: nat, m: nat) returns (j: nat)
    requires IsExecution(e) && Fair(e) && NeverStuck(e) && NeverQuits(e)
    ensures j >= n && Sections(e, n, j) <= m
    ensures Sections(e, n, j) == m || e.at(j).peers == 0
    decreases m
  {
    if m == 0 || e.at(n).peers == 0 {
      j := n;
    } else {
      var k := NextSection(e, n);
      j := SectionsGoOn(e, k, m - 1);
      SectionsJoin(e, n, k, j);
    }
  }
}
