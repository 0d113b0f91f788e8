/** A listener that is open and needs no change is open with the port and the IP
    version of the last doListen. */
module ListenTarget {
  import opened Common
  import opened ListenerFlags
  import opened Protocol
  import opened Deadlock
  import opened ListenRequests

  /** The listener is open with what was asked for, unless a change is pending or
      a doListen is half-way through. */
  predicate OnTarget(s: State) {
    && (s.f.listening && !s.f.changing && !InChange(s) ==> s.openedAs == s.target)
    && (s.f.listening && (s.l.LOpenOk? || s.l.LOpenDone?) ==> s.openedAs == s.target)
  }

  lemma ListenKeepsTarget(s: State, x: Choice)
    requires Locks(s) && Fits(s) && OnTarget(s) && ListenCan(s, x)
    ensures OnTarget(ListenStep(s, x))
  {
    HolderIsOwner(s, Listen, D);
    if Opened(s.l) {
      OpeningKeepsTarget(s, x);
    } else {
      OtherwiseKeepsTarget(s, x);
    }
  }

  lemma OtherwiseKeepsTarget(s: State, x: Choice)
    requires OnTarget(s) && ListenCan(s, x) && !Opened(s.l) && (s.d == Some(Listen) <==> ListenHoldsD(s.l))
    ensures OnTarget(ListenStep(s, x))
  {
  }

  lemma OpeningKeepsTarget(s: State, x: Choice)
    requires Fits(s) && OnTarget(s) && ListenCan(s, x) && Opened(s.l)
    requires s.l.LOpenWant? || s.d == Some(Listen)
    ensures OnTarget(ListenStep(s, x))
  {
  }

  lemma WorkersKeepTarget(s: State, who: Thread, x: Choice)
    requires Locks(s) && OnTarget(s) && (who.Connect? || who.Send?) && Can(s, who, x)
    ensures OnTarget(Step(s, who, x))
  {
    HolderIsOwner(s, who, D);
  }

  /** doListen writes under the data mutex, so not during an opening; and it asks
      for a change if there is a listener, which there is if one listens. */
  lemma UserKeepsTarget(s: State, u: nat, x: Choice)
    requires Inv(s) && Fits(s) && OnTarget(s) && u in s.u && UserCan(s, u, x)
    ensures OnTarget(UserStep(s, u, x))
  {
    HolderIsOwner(s, User(u), D);
    HolderIsOwner(s, Listen, D);
  }

  lemma {:induction false} RunKeepsTarget(s: State, run: seq<Move>)
    requires Inv(s) && Fits(s) && OnTarget(s) && ValidRun(s, run)
    ensures OnTarget(After(s, run))
    decreases |run|
  {
    if run != [] {
      var who, x := run[0].who, run[0].x;
      StepKeepsFits(s, who, x);
      StepKeepsLocks(s, who, x);
      StepKeepsStarts(s, who, x);
      match who {
        case Listen => ListenKeepsTarget(s, x);
        case Connect => WorkersKeepTarget(s, who, x);
        case Send => WorkersKeepTarget(s, who, x);
        case User(u) => UserKeepsTarget(s, u, x);
      }
      RunKeepsTarget(Step(s, who, x), run[1..]);
    }
  }

  // ---- what was asked for -------------------------------------------------

  /** The port the last doListen of a run carries to its first write, and the version
      it carries to its second; before any, what there was. */
  ghost function LastAsked(s: State, run: seq<Move>, before: Target): Target
    requires ValidRun(s, run)
    decreases |run|
  {
    if run == [] then before else LastAsked(Step(s, run[0].who, run[0].x), run[1..], AskedBy(s, run[0], before))
  }

  function AskedBy(s: State, m: Move, before: Target): Target {
    if m.who.User? && m.who.u in s.u && s.u[m.who.u] == UData(DoListen) then Target(m.x.target.port, before.version)
    else if m.who.User? && m.who.u in s.u && s.u[m.who.u].UListenChange? then Target(before.port, m.x.target.version)
    else before
  }

  lemma TargetIsAskedByOne(s: State, m: Move)
    requires Can(s, m.who, m.x)
    ensures Step(s, m.who, m.x).target == AskedBy(s, m, s.target)
  {
    match m.who {
      case Listen => ListenAsksNothing(s, m.x);
      case User(u) => assert Step(s, m.who, m.x) == UserStep(s, u, m.x);
      case _ => WorkersAskNothing(s, m.who, m.x);
    }
  }

  lemma ListenAsksNothing(s: State, x: Choice)
    requires ListenCan(s, x)
    ensures ListenStep(s, x).target == s.target
  {
  }

  lemma WorkersAskNothing(s: State, who: Thread, x: Choice)
    requires (who.Connect? || who.Send?) && Can(s, who, x)
    ensures Step(s, who, x).target == s.target
  {
  }

  lemma {:induction false} TargetIsLastAsked(s: State, run: seq<Move>)
    requires ValidRun(s, run)
    ensures After(s, run).target == LastAsked(s, run, s.target)
    decreases |run|
  {
    if run != [] {
      TargetIsAskedByOne(s, run[0]);
      TargetIsLastAsked(Step(s, run[0].who, run[0].x), run[1..]);
    }
  }

  /** A doListen that runs alone, from the call to its return, is the last request:
      the node is enabled, woken, asked to change if it has a listener, and set to
      the call's port and version. */
  lemma DoListenIsAsked(s: State, u: nat, x: Choice) returns (run: seq<Move>)
    requires u in s.u && s.u[u].UIdle? && !s.quit && s.starter.None? && s.d.None?
    requires x.call == CallData(DoListen)
    ensures ValidRun(s, run) && LastAsked(s, run, s.target) == x.target
    ensures var t := After(s, run);
      && t.target == x.target && t.u == s.u[u := UStart] && t.d.None?
      && t.f == s.f.(enabled := true, wakeup := true, changing := s.f.changing || s.f.available)
  {
    var m := Move(User(u), x);
    var s1 := Step(s, User(u), x);
    var s2 := Step(s1, User(u), x);
    assert s2.target == s.target && s2.f == s.f && s2.u == s.u[u := UData(DoListen)];
    var rest := DoListenWrites(s2, u, x);
    var run1 := OneMoveFirst(s1, m, rest);
    run := OneMoveFirst(s, m, run1);
    TargetIsLastAsked(s, run);
  }

  lemma DoListenWrites(s: State, u: nat, x: Choice) returns (run: seq<Move>)
    requires u in s.u && s.u[u] == UData(DoListen) && s.d == Some(User(u))
    ensures ValidRun(s, run)
    ensures var t := After(s, run);
      && t.target == x.target && t.u == s.u[u := UStart] && t.d.None?
      && t.f == s.f.(enabled := true, wakeup := true, changing := s.f.changing || s.f.available)
  {
    var m := Move(User(u), x);
    var s1 := Step(s, User(u), x);
    assert s1.target.port == x.target.port && s1.f == s.f.(enabled := true);
    var s2 := Step(s1, User(u), x);
    assert s2.target == x.target;
    var run1 := OneMoveFirst(s2, m, []);
    var run2 := OneMoveFirst(s1, m, run1);
    run := OneMoveFirst(s, m, run2);
  }

  lemma OneMoveFirst(s: State, m: Move, rest: seq<Move>) returns (run: seq<Move>)
    requires Can(s, m.who, m.x) && ValidRun(Step(s, m.who, m.x), rest)
    ensures ValidRun(s, run) && After(s, run) == After(Step(s, m.who, m.x), rest)
  {
    run := [m] + rest;
    assert run[1..] == rest;
  }

  /** Over every run from construction: whenever the listener is settled and
      listening, and no doListen is half-way through, it was opened with the port
      and the IP version the last doListen of the run was called with. */
  lemma SettledOnTarget(s0: State, run: seq<Move>)
    requires Init(s0) && ValidRun(s0, run)
    ensures var s := After(s0, run);
      Settled(s.f) && s.f.listening && !InChange(s) ==> s.openedAs == LastAsked(s0, run, s0.target)
  {
    InitHasInv(s0);
    RunKeepsTarget(s0, run);
    TargetIsLastAsked(s0, run);
  }

  /** So without further requests two passes open the listener that was asked for
      last, if they open one. */
  lemma ListenerReachesTarget(s0: State, before: seq<Move>, run: seq<Move>)
    requires Init(s0) && ValidRun(s0, before)
    requires var s := After(s0, before);
      && (s.l.LTop? || s.l.LTest?) && !InChange(s)
      && ValidRun(s, run) && QuietRun(s, run) && PassesEnded(s, run) >= 2
    ensures var t := After(After(s0, before), run);
      Settled(t.f) && (t.f.listening ==> t.openedAs == LastAsked(s0, before, s0.target))
  {
    var s := After(s0, before);
    ListenerSettles(s0, before, run);
    InitHasInv(s0);
    RunKeepsFits(s0, before);
    RunKeepsTarget(s0, before);
    RunKeepsTarget(s, run);
    QuietKeepsRequest(s, run);
    TargetIsLastAsked(s0, before);
  }

  lemma {:induction false} QuietKeepsRequest(s: State, run: seq<Move>)
    requires Inv(s) && ValidRun(s, run) && QuietRun(s, run) && !InChange(s)
    ensures After(s, run).target == s.target && !InChange(After(s, run))
    decreases |run|
  {
    if run != [] {
      var who, x := run[0].who, run[0].x;
      QuietMoveKeepsRequest(s, who, x);
      StepKeepsLocks(s, who, x);
      StepKeepsStarts(s, who, x);
      QuietKeepsRequest(Step(s, who, x), run[1..]);
    }
  }

  lemma QuietMoveKeepsRequest(s: State, who: Thread, x: Choice)
    requires Inv(s) && QuietMove(s, who, x) && !InChange(s)
    ensures Step(s, who, x).target == s.target && !InChange(Step(s, who, x))
  {
    HolderIsOwner(s, who, D);
  }
}
