/** What becomes of doListen and stopListening: which requests the listen thread
    can miss, and how the listener settles when there are no more. */
module ListenRequests {
  import opened Common
  import opened ListenerFlags
  import opened Protocol
  import opened Deadlock

  // ---- the missed request -------------------------------------------------

  /** A doListen is between its writes of `enabled` and `wakeup`. */
  predicate InDoListen(s: State) {
    && s.d.Some? && s.d.value.User? && s.d.value.u in s.u
    && (s.u[s.d.value.u].UListenChange? || s.u[s.d.value.u].UListenWake?)
  }

  predicate InChange(s: State) {
    InDoListen(s) && s.u[s.d.value.u].UListenChange?
  }

  /** After the pass has tested `enabled` for the first time and before it
      clears `wakeup`, with the data mutex free. */
  predicate Late(pc: ListenPC) {
    pc.LTestChanging? || pc.LTestStop? || pc.LClosedCallback? || pc.LRelock? || pc.LClear?
  }

  predicate InPass(pc: ListenPC) {
    Late(pc) || pc.LOpenWant? || pc.LCloseWant?
  }

  predicate LateAt(at: Option<ListenPC>) {
    at.Some? && Late(at.value)
  }

  /** Between the first test of a pass and line 340, where nothing was opened. */
  predicate Testing(pc: ListenPC) {
    || Late(pc) || pc.LCloseWant? || pc.LClosing? || pc.LClosedWant? || pc.LClosed? || pc.LClosedEnd? || pc.LClosedEnd2?
  }

  predicate Pausing(pc: ListenPC) {
    pc.LPauseWant? || pc.LPause? || pc.LBlocked?
  }

  predicate Opened(pc: ListenPC) {
    pc.LOpenWant? || pc.LOpening? || pc.LOpenFailed? || pc.LOpenOk? || pc.LOpenDone?
  }

  predicate Missing(f: Flags) {
    f.enabled && !f.available && !f.changing
  }

  predicate EnabledLate(s: State) {
    (Testing(s.l) && Missing(s.f) ==> LateAt(s.enabledAt)) && Paths(s)
  }

  predicate Paths(s: State) {
    ClosePath(s) && OpenPath(s)
  }

  predicate ClosePath(s: State) {
    && (s.l.LCloseWant? ==> s.f.available && (s.f.enabled && !InChange(s) ==> s.f.changing))
    && (s.l.LClosing? ==> s.f.available && (s.f.enabled ==> s.f.changing))
  }

  predicate OpenPath(s: State) {
    && (s.l.LOpenOk? ==> s.f.available)
    && (s.l.LOpenDone? ==> s.f.available || !s.f.enabled)
  }

  predicate AsleepLate(s: State) {
    Pausing(s.l) && Missing(s.f) && !s.f.wakeup && !InDoListen(s) ==> LateAt(s.enabledAt)
  }

  predicate WokenLate(s: State) {
    && (Testing(s.l) || Opened(s.l) || Pausing(s.l) ==> (s.enabledAt.Some? && !InDoListen(s) ==> s.wokenAt.Some?))
    && (Testing(s.l) || Opened(s.l) ==> (s.wokenAt.Some? ==> InPass(s.wokenAt.value)))
    && (Pausing(s.l) ==> (s.wokenAt.Some? ==> InPass(s.wokenAt.value) || s.f.wakeup))
  }

  predicate Account(s: State) {
    EnabledLate(s) && AsleepLate(s) && WokenLate(s)
  }

  lemma ListenKeepsPaths(s: State, x: Choice)
    requires Locks(s) && Paths(s) && ListenCan(s, x)
    ensures Paths(ListenStep(s, x))
  {
    HolderIsOwner(s, Listen, D);
    ListenKeepsOpenPath(s, x);
    ListenKeepsClosePath(s, x);
  }

  lemma ListenKeepsOpenPath(s: State, x: Choice)
    requires OpenPath(s) && ListenCan(s, x)
    ensures OpenPath(ListenStep(s, x))
  {
  }

  lemma ListenKeepsClosePath(s: State, x: Choice)
    requires Locks(s) && ClosePath(s) && ListenCan(s, x)
    ensures ClosePath(ListenStep(s, x))
  {
    HolderIsOwner(s, Listen, D);
  }

  lemma ListenKeepsEnabledLate(s: State, x: Choice)
    requires EnabledLate(s) && ListenCan(s, x)
    ensures Testing(ListenNext(s, x)) && Missing(ListenFlags(s, x)) ==> LateAt(ListenStep(s, x).enabledAt)
  {
  }

  lemma ListenKeepsAsleepLate(s: State, x: Choice)
    requires Locks(s) && EnabledLate(s) && AsleepLate(s) && ListenCan(s, x)
    ensures AsleepLate(ListenStep(s, x))
  {
    HolderIsOwner(s, Listen, D);
  }

  lemma ListenKeepsWokenLate(s: State, x: Choice)
    requires Locks(s) && WokenLate(s) && ListenCan(s, x)
    ensures WokenLate(ListenStep(s, x))
  {
    HolderIsOwner(s, Listen, D);
  }

  lemma WorkersKeepAccount(s: State, who: Thread, x: Choice)
    requires Locks(s) && Account(s) && (who.Connect? || who.Send?) && Can(s, who, x)
    ensures Account(Step(s, who, x))
  {
    HolderIsOwner(s, who, D);
  }

  lemma UserKeepsEnabledLate(s: State, u: nat, x: Choice)
    requires Inv(s) && EnabledLate(s) && u in s.u && UserCan(s, u, x)
    ensures EnabledLate(UserStep(s, u, x))
  {
    HolderIsOwner(s, User(u), D);
    HolderIsOwner(s, Listen, D);
  }

  lemma UserKeepsAsleepLate(s: State, u: nat, x: Choice)
    requires Inv(s) && AsleepLate(s) && u in s.u && UserCan(s, u, x)
    ensures AsleepLate(UserStep(s, u, x))
  {
    HolderIsOwner(s, User(u), D);
    HolderIsOwner(s, Listen, D);
  }

  lemma UserKeepsWokenLate(s: State, u: nat, x: Choice)
    requires Inv(s) && WokenLate(s) && u in s.u && UserCan(s, u, x)
    ensures WokenLate(UserStep(s, u, x))
  {
    HolderIsOwner(s, User(u), D);
    HolderIsOwner(s, Listen, D);
  }

  lemma StepKeepsAccount(s: State, who: Thread, x: Choice)
    requires Inv(s) && Account(s) && Can(s, who, x)
    ensures Account(Step(s, who, x))
  {
    match who
    case Listen =>
      ListenKeepsPaths(s, x);
      ListenKeepsEnabledLate(s, x);
      ListenKeepsAsleepLate(s, x);
      ListenKeepsWokenLate(s, x);
    case Connect => WorkersKeepAccount(s, who, x);
    case Send => WorkersKeepAccount(s, who, x);
    case User(u) =>
      UserKeepsEnabledLate(s, u, x);
      UserKeepsAsleepLate(s, u, x);
      UserKeepsWokenLate(s, u, x);
  }

  /** The listen thread sleeps on its condition variable with nothing to wake it
      for, and no doListen is about to. */
  predicate Asleep(s: State) {
    s.l.LBlocked? && !ListenWakes(s) && !InDoListen(s)
  }

  /** Asleep while listening is enabled without a listener: the request that
      enabled it ran after its pass had tested `enabled`, and wrote its wake-up
      before line 340 wiped it out.  A request that found a listener, or one that
      stops listening, is never slept through: then there would be a listener or
      a change pending. */
  lemma MissedRequest(s: State)
    requires Inv(s) && Account(s) && Asleep(s)
    ensures !s.f.available && !s.f.changing
    ensures s.f.enabled ==> LateAt(s.enabledAt) && s.wokenAt.Some? && InPass(s.wokenAt.value)
  {
  }

  /** A change that is pending stays pending until a pass has opened the
      listener again. */
  lemma ChangeIsServed(s: State, who: Thread, x: Choice)
    requires Inv(s) && Can(s, who, x) && s.f.changing && !Step(s, who, x).f.changing
    ensures who == Listen && s.l.LOpenDone?
  {
    if who.User? {
      UserKeepsChange(s, who.u, x);
    } else if who == Listen {
      ListenKeepsChange(s, x);
    }
  }

  lemma ListenKeepsChange(s: State, x: Choice)
    requires s.f.changing && !ListenFlags(s, x).changing
    ensures s.l.LOpenDone?
  {
  }

  lemma UserKeepsChange(s: State, u: nat, x: Choice)
    requires u in s.u && UserCan(s, u, x) && s.f.changing
    ensures UserStep(s, u, x).f.changing
  {
  }

  lemma {:induction false} RunKeepsAccount(s: State, run: seq<Move>)
    requires Inv(s) && Account(s) && ValidRun(s, run)
    ensures Inv(After(s, run)) && Account(After(s, run))
    decreases |run|
  {
    if run != [] {
      StepKeepsLocks(s, run[0].who, run[0].x);
      StepKeepsStarts(s, run[0].who, run[0].x);
      StepKeepsAccount(s, run[0].who, run[0].x);
      RunKeepsAccount(Step(s, run[0].who, run[0].x), run[1..]);
    }
  }

  /** The account of missed requests, over every run. */
  lemma EveryMissedRequest(s: State, run: seq<Move>)
    requires Init(s) && ValidRun(s, run) && Asleep(After(s, run))
    ensures var t := After(s, run);
      && !t.f.available && !t.f.changing
      && (t.f.enabled ==> LateAt(t.enabledAt) && t.wokenAt.Some? && InPass(t.wokenAt.value))
  {
    InitHasInv(s);
    RunKeepsAccount(s, run);
    MissedRequest(After(s, run));
  }

  /** And such a request is missed: from line 340 the thread goes to sleep, if
      nothing else happens. */
  lemma LateRequestIsMissed(s: State, x: Choice)
    requires s.l.LClear? && s.d.None? && Missing(s.f) && s.peers == 0 && !s.quit
    ensures ListenCan(s, x) && ListenCan(ListenStep(s, x), x) && ListenCan(ListenStep(ListenStep(s, x), x), x)
    ensures var t := ListenStep(ListenStep(ListenStep(s, x), x), x); Asleep(t) && t.f.enabled && !t.f.available
  {
  }

  // ---- settling -----------------------------------------------------------

  /** The flags fit the listener, except while a request or a pass is at work. */
  predicate Fits(s: State) {
    && (s.f.listening ==> s.f.available)
    && (s.f.available && !s.f.listening ==> s.f.changing || !s.f.enabled || InChange(s) || s.l.LOpenFailed?)
    && Opens(s)
  }

  predicate Opens(s: State) {
    && (s.l.LOpenOk? ==> s.f.available && s.f.listening)
    && (s.l.LOpenFailed? ==> !s.f.listening)
    && (s.l.LOpenDone? ==> s.f.available == s.f.listening)
  }

  lemma ListenKeepsOpens(s: State, x: Choice)
    requires Opens(s) && ListenCan(s, x)
    ensures Opens(ListenStep(s, x))
  {
  }

  lemma ListenKeepsFits(s: State, x: Choice)
    requires Locks(s) && Fits(s) && ListenCan(s, x)
    ensures Fits(ListenStep(s, x))
  {
    ListenKeepsOpens(s, x);
    HolderIsOwner(s, Listen, D);
  }

  lemma WorkersKeepFits(s: State, who: Thread, x: Choice)
    requires Locks(s) && Fits(s) && (who.Connect? || who.Send?) && Can(s, who, x)
    ensures Fits(Step(s, who, x))
  {
    HolderIsOwner(s, who, D);
  }

  lemma UserKeepsFits(s: State, u: nat, x: Choice)
    requires Inv(s) && Fits(s) && u in s.u && UserCan(s, u, x)
    ensures Fits(UserStep(s, u, x))
  {
    HolderIsOwner(s, User(u), D);
    HolderIsOwner(s, Listen, D);
  }

  /** The parts of calls that ask something of the listener. */
  predicate Requests(pc: UserPC, x: Choice) {
    || (pc.UData? && (pc.op.DoListen? || pc.op.SetListener?)) || pc.UListenChange? || pc.UListenWake? || pc.UStopWake?
    || (pc.UIdle? && x.call.CallStopListening?)
  }

  ghost predicate QuietMove(s: State, who: Thread, x: Choice) {
    Can(s, who, x) && (who.User? ==> !Requests(s.u[who.u], x))
  }

  predicate Closing(pc: ListenPC) {
    pc.LClosedWant? || pc.LClosed? || pc.LClosedCallback? || pc.LRelock? || pc.LClosedEnd? || pc.LClosedEnd2?
  }

  /** Between passes the only thing left to do is to close the listener, and
      that keeps the thread awake. */
  predicate SettledOrClosing(f: Flags) {
    Settled(f) || (!f.enabled && f.available && !f.changing)
  }

  /** What is known of the flags along the way when at most n more passes, the
      present one included, are needed. */
  predicate Due(pc: ListenPC, f: Flags, n: nat) {
    if pc.LTestChanging? then !(f.enabled && !f.available) && PassesNeeded(f) <= n
    else if pc.LTestStop? then !f.changing && !(f.enabled && !f.available) && PassesNeeded(f) <= n
    else if pc.LOpenWant? || pc.LOpening? then ((f.enabled && !f.available) || f.changing) && PassesNeeded(f) <= n && n >= 1
    else if pc.LOpenOk? then n >= if f.enabled then 1 else 2
    else if pc.LOpenFailed? then n >= 1
    else if pc.LOpenDone? then (f.available || !f.enabled) && n >= if f.enabled == f.available then 1 else 2
    else if pc.LCloseWant? || pc.LClosing? then !f.enabled && !f.changing && n >= 1
    else if Closing(pc) then Settled(f) && n >= 1
    else if pc.LClear? then SettledOrClosing(f) && (PassesNeeded(f) < n || Settled(f))
    else if Pausing(pc) then SettledOrClosing(f) && PassesNeeded(f) <= n
    else PassesNeeded(f) <= n
  }

  predicate SettlesIn(s: State, n: nat) {
    Fits(s) && !InChange(s) && Due(s.l, s.f, n)
  }

  function Less(n: nat, k: nat): nat { if n < k then 0 else n - k }

  function EndsPass(s: State, who: Thread): nat { if who == Listen && s.l.LClear? then 1 else 0 }

  lemma OpeningIsDue(s: State, x: Choice, n: nat)
    requires Fits(s) && Due(s.l, s.f, n) && ListenCan(s, x) && Opened(s.l)
    ensures Due(ListenNext(s, x), ListenFlags(s, x), n)
  {
  }

  lemma TestsAreDue(s: State, x: Choice, n: nat)
    requires Fits(s) && !InChange(s) && Due(s.l, s.f, n) && ListenCan(s, x) && Testing(s.l)
    ensures Due(ListenNext(s, x), ListenFlags(s, x), Less(n, EndsPass(s, Listen)))
  {
    if Closing(s.l) || s.l.LClear? { EndOfPassIsDue(s, x, n); } else { FirstTestsAreDue(s, x, n); }
  }

  lemma EndOfPassIsDue(s: State, x: Choice, n: nat)
    requires Fits(s) && !InChange(s) && Due(s.l, s.f, n) && (Closing(s.l) || s.l.LClear?)
    ensures Due(ListenNext(s, x), ListenFlags(s, x), Less(n, EndsPass(s, Listen)))
  {
  }

  lemma FirstTestsAreDue(s: State, x: Choice, n: nat)
    requires Fits(s) && !InChange(s) && Due(s.l, s.f, n)
    requires s.l.LTestChanging? || s.l.LTestStop? || s.l.LCloseWant? || s.l.LClosing?
    ensures Due(ListenNext(s, x), ListenFlags(s, x), Less(n, EndsPass(s, Listen)))
  {
  }

  lemma RestIsDue(s: State, x: Choice, n: nat)
    requires Fits(s) && !InChange(s) && Due(s.l, s.f, n) && ListenCan(s, x) && !Opened(s.l) && !Testing(s.l)
    ensures Due(ListenNext(s, x), ListenFlags(s, x), n)
  {
  }

  lemma ListenSettles(s: State, x: Choice, n: nat)
    requires Locks(s) && SettlesIn(s, n) && ListenCan(s, x)
    ensures SettlesIn(ListenStep(s, x), Less(n, EndsPass(s, Listen)))
  {
    ListenKeepsFits(s, x);
    HolderIsOwner(s, Listen, D);
    if Opened(s.l) {
      OpeningIsDue(s, x, n);
    } else if Testing(s.l) {
      TestsAreDue(s, x, n);
    } else {
      RestIsDue(s, x, n);
    }
  }

  lemma OthersSettle(s: State, who: Thread, x: Choice, n: nat)
    requires Inv(s) && SettlesIn(s, n) && who != Listen && QuietMove(s, who, x)
    ensures SettlesIn(Step(s, who, x), n)
  {
    if who.User? {
      UserKeepsFits(s, who.u, x);
      HolderIsOwner(s, who, D);
    } else {
      WorkersKeepFits(s, who, x);
      HolderIsOwner(s, who, D);
    }
  }

  ghost predicate QuietRun(s: State, run: seq<Move>)
    requires ValidRun(s, run)
    decreases |run|
  {
    run == [] || (QuietMove(s, run[0].who, run[0].x) && QuietRun(Step(s, run[0].who, run[0].x), run[1..]))
  }

  /** Passes of the listen thread that a run completes. */
  ghost function PassesEnded(s: State, run: seq<Move>): nat
    requires ValidRun(s, run)
    decreases |run|
  {
    if run == [] then 0
    else EndsPass(s, run[0].who) + PassesEnded(Step(s, run[0].who, run[0].x), run[1..])
  }

  lemma {:induction false} QuietRunSettles(s: State, run: seq<Move>, n: nat)
    requires Inv(s) && SettlesIn(s, n) && ValidRun(s, run) && QuietRun(s, run)
    ensures SettlesIn(After(s, run), Less(n, PassesEnded(s, run)))
    decreases |run|
  {
    if run != [] {
      var who, x := run[0].who, run[0].x;
      if who == Listen { ListenSettles(s, x, n); } else { OthersSettle(s, who, x, n); }
      StepKeepsLocks(s, who, x);
      StepKeepsStarts(s, who, x);
      QuietRunSettles(Step(s, who, x), run[1..], Less(n, EndsPass(s, who)));
    }
  }

  lemma SettledWhenNothingIsDue(s: State)
    requires SettlesIn(s, 0)
    ensures Settled(s.f)
  {
  }

  lemma NotBlockedBefore(s: State, n: nat)
    requires SettlesIn(s, n) && s.l.LPause? && !Settled(s.f)
    ensures ListenWakes(s)
  {
  }

  lemma StepKeepsFits(s: State, who: Thread, x: Choice)
    requires Inv(s) && Fits(s) && Can(s, who, x)
    ensures Fits(Step(s, who, x))
  {
    match who
    case Listen => ListenKeepsFits(s, x);
    case Connect => WorkersKeepFits(s, who, x);
    case Send => WorkersKeepFits(s, who, x);
    case User(u) => UserKeepsFits(s, u, x);
  }

  lemma {:induction false} RunKeepsFits(s: State, run: seq<Move>)
    requires Inv(s) && Fits(s) && ValidRun(s, run)
    ensures Inv(After(s, run)) && Fits(After(s, run))
    decreases |run|
  {
    if run != [] {
      StepKeepsFits(s, run[0].who, run[0].x);
      StepKeepsLocks(s, run[0].who, run[0].x);
      StepKeepsStarts(s, run[0].who, run[0].x);
      RunKeepsFits(Step(s, run[0].who, run[0].x), run[1..]);
    }
  }

  /** Two passes settle the listener: take any reachable state in which the
      listen thread is at the top of its loop and no doListen is half-way
      through, and any continuation without listener requests.  After two
      completed passes the listener is what was asked for, and it stays so;
      before that the thread does not go to sleep unsettled. */
  lemma ListenerSettles(s0: State, before: seq<Move>, run: seq<Move>)
    requires Init(s0) && ValidRun(s0, before)
    requires var s := After(s0, before);
      && (s.l.LTop? || s.l.LTest?) && !InChange(s)
      && ValidRun(s, run) && QuietRun(s, run)
    ensures var s := After(s0, before); var t := After(s, run);
      && (PassesEnded(s, run) >= 2 ==> Settled(t.f))
      && (t.l.LPause? && !Settled(t.f) ==> ListenWakes(t))
  {
    InitHasInv(s0);
    RunKeepsFits(s0, before);
    var s := After(s0, before);
    QuietRunSettles(s, run, 2);
    var t := After(s, run);
    var n := Less(2, PassesEnded(s, run));
    if PassesEnded(s, run) >= 2 { SettledWhenNothingIsDue(t); }
    if t.l.LPause? && !Settled(t.f) { NotBlockedBefore(t, n); }
  }

  // ---- one undisturbed pass -----------------------------------------------

  /** What the flags will be at the end of the pass, if nobody interferes. */
  function AtPassEnd(pc: ListenPC, f: Flags, ok: bool): Flags {
    if pc.LTest? then Pass(f, ok)
    else if pc.LOpenWant? || pc.LOpening? || (pc.LTestChanging? && f.changing) then Flags(f.enabled && ok, ok, false, false, ok)
    else if pc.LOpenFailed? then Flags(false, false, false, false, f.listening)
    else if pc.LOpenOk? || pc.LOpenDone? then f.(changing := false, wakeup := false)
    else if (pc.LTestChanging? || pc.LTestStop?) && (f.enabled || !f.available) then f.(wakeup := false)
    else if pc.LTestChanging? || pc.LTestStop? || pc.LCloseWant? || pc.LClosing? then
      f.(available := false, listening := false, wakeup := false)
    else if Closing(pc) || pc.LClear? then f.(wakeup := false)
    else f
  }

  predicate Passing(pc: ListenPC) {
    pc.LTest? || Testing(pc) || Opened(pc)
  }

  /** Every step of a pass stays on course for `Pass`: the lock-by-lock thread
      does to the flags what the pass does in one go. */
  lemma PassIsOnCourse(s: State, x: Choice)
    requires Passing(s.l) && ListenCan(s, x)
    requires s.l.LTestChanging? ==> s.f.changing || !(s.f.enabled && !s.f.available)
    ensures var t := ListenStep(s, x);
      && (Passing(t.l) || t.l.LPauseWant?)
      && AtPassEnd(t.l, t.f, x.ok) == AtPassEnd(s.l, s.f, x.ok)
  {
    if Opened(s.l) {
      OpeningIsOnCourse(s, x);
    } else if Closing(s.l) {
      ClosingIsOnCourse(s, x);
    } else {
      TestIsOnCourse(s, x);
    }
  }

  lemma OpeningIsOnCourse(s: State, x: Choice)
    requires Opened(s.l)
    ensures var pc, f := ListenNext(s, x), ListenFlags(s, x);
      Passing(pc) && AtPassEnd(pc, f, x.ok) == AtPassEnd(s.l, s.f, x.ok)
  {
  }

  lemma ClosingIsOnCourse(s: State, x: Choice)
    requires Closing(s.l)
    ensures var pc := ListenNext(s, x);
      Passing(pc) && ListenFlags(s, x) == s.f && AtPassEnd(pc, s.f, x.ok) == AtPassEnd(s.l, s.f, x.ok)
  {
  }

  lemma TestIsOnCourse(s: State, x: Choice)
    requires s.l.LTest? || s.l.LTestChanging? || s.l.LTestStop? || s.l.LCloseWant? || s.l.LClosing? || s.l.LClear?
    requires s.l.LTestChanging? ==> s.f.changing || !(s.f.enabled && !s.f.available)
    ensures var pc, f := ListenNext(s, x), ListenFlags(s, x);
      (Passing(pc) || pc.LPauseWant?) && AtPassEnd(pc, f, x.ok) == AtPassEnd(s.l, s.f, x.ok)
  {
  }

  // ---- while there are peers ----------------------------------------------

  ghost predicate PeersRemain(s: State, run: seq<Move>)
    requires ValidRun(s, run)
    decreases |run|
  {
    s.peers != 0 && (run == [] || PeersRemain(Step(s, run[0].who, run[0].x), run[1..]))
  }

  /** The listen thread does not go to sleep as long as a peer remains. */
  lemma {:induction false} PeersKeepItAwake(s: State, run: seq<Move>)
    requires Inv(s) && ValidRun(s, run) && PeersRemain(s, run) && !s.l.LBlocked?
    ensures !After(s, run).l.LBlocked?
    decreases |run|
  {
    if run != [] {
      var who, x := run[0].who, run[0].x;
      StaysAwake(s, who, x);
      StepKeepsLocks(s, who, x);
      StepKeepsStarts(s, who, x);
      PeersKeepItAwake(Step(s, who, x), run[1..]);
    }
  }

  lemma StaysAwake(s: State, who: Thread, x: Choice)
    requires Can(s, who, x) && s.peers != 0 && !s.l.LBlocked?
    ensures !Step(s, who, x).l.LBlocked?
  {
  }
}
