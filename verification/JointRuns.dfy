/**
 Runs of the threads together with the data: every such run is a run of either
 model, and a critical section may be taken as one action.
 */
module JointRuns {
  import opened Common
  import opened Coupling
  import P = Protocol
  import N = NodeState
  import D = Deadlock
  import NodeRuns
  import ConnectQueue

  ghost predicate ValidRun(j: Joint, run: seq<Move>)
    decreases |run|
  {
    run == [] || (Can(j, run[0]) && ValidRun(Next(j, run[0]), run[1..]))
  }

  ghost function After(j: Joint, run: seq<Move>): Joint
    requires ValidRun(j, run)
    decreases |run|
  {
    if run == [] then j else After(Next(j, run[0]), run[1..])
  }

  function Moves(run: seq<Move>): seq<P.Move> {
    if run == [] then []
    else (if run[0].By? then [P.Move(run[0].who, run[0].x)] else []) + Moves(run[1..])
  }

  function ActionsOf(m: Move): seq<N.Action> {
    if m.Elsewhere? then [N.OtherNode] else if m.a.Some? then [m.a.value] else []
  }

  function Actions(run: seq<Move>): seq<N.Action> {
    if run == [] then [] else ActionsOf(run[0]) + Actions(run[1..])
  }

  lemma {:induction false} RunsProject(j: Joint, run: seq<Move>)
    requires ValidRun(j, run)
    ensures P.ValidRun(j.p, Moves(run)) && P.After(j.p, Moves(run)) == After(j, run).p
    ensures N.ValidRun(j.n, Actions(run)) && N.After(j.n, Actions(run)) == After(j, run).n
    decreases |run|
  {
    if run != [] {
      var m, rest := run[0], run[1..];
      RunsProject(Next(j, m), rest);
      if m.By? { assert Moves(run)[1..] == Moves(rest); } else { assert Moves(run) == Moves(rest); }
      if ActionsOf(m) != [] { assert Actions(run)[1..] == Actions(rest); } else { assert Actions(run) == Actions(rest); }
    }
  }

  lemma {:induction false} RunKeepsSound(j: Joint, run: seq<Move>)
    requires Sound(j) && ValidRun(j, run)
    ensures Sound(After(j, run))
    decreases |run|
  {
    if run != [] {
      StepKeepsSound(j, run[0]);
      RunKeepsSound(Next(j, run[0]), run[1..]);
    }
  }

  ghost predicate Init(j: Joint) {
    P.Init(j.p) && N.Init(j.n)
  }

  lemma InitIsSound(j: Joint)
    requires Init(j)
    ensures Sound(j)
  {
    D.InitHasInv(j.p);
    NodeRuns.InitHasInv(j.n);
  }

  /** Every run of the pair is a run of the threads and a run of the data, and at
      its end both agree: everything proved of either model holds of the pair. */
  lemma EveryJointRun(j: Joint, run: seq<Move>)
    requires Init(j) && ValidRun(j, run)
    ensures P.ValidRun(j.p, Moves(run)) && P.After(j.p, Moves(run)) == After(j, run).p
    ensures N.ValidRun(j.n, Actions(run)) && N.After(j.n, Actions(run)) == After(j, run).n
    ensures Sound(After(j, run))
  {
    RunsProject(j, run);
    InitIsSound(j);
    RunKeepsSound(j, run);
  }

  // ---- critical sections --------------------------------------------------

  /** Every action on what the mutex protects is made by a thread that holds it. */
  lemma ChangesNeedMutex(j: Joint, m: Move)
    requires D.Inv(j.p) && Can(j, m) && !SameData(j.n, Next(j, m).n)
    ensures m.By? && j.p.d == Some(m.who)
  {
    if m.By? {
      D.HolderIsOwner(j.p, m.who, P.D);
      if !D.Holds(j.p, m.who, P.D) { OutsideLeavesData(j, m); }
    }
  }

  lemma OutsideLeavesData(j: Joint, m: Move)
    requires Can(j, m) && m.By? && D.IsThread(j.p, m.who) && !D.Holds(j.p, m.who, P.D)
    ensures SameData(j.n, Next(j, m).n)
  {
  }

  /** As long as its holder does not move, the mutex stays with it and the data
      stay as they are, whatever everybody else does. */
  lemma {:induction false} HeldDataStay(j: Joint, run: seq<Move>, who: P.Thread)
    requires D.Inv(j.p) && ValidRun(j, run) && j.p.d == Some(who)
    requires forall m :: m in run && m.By? ==> m.who != who
    ensures After(j, run).p.d == Some(who) && SameData(j.n, After(j, run).n)
    decreases |run|
  {
    if run != [] {
      var m := run[0];
      assert run == [m] + run[1..];
      if m.By? {
        D.StepKeepsLocks(j.p, m.who, m.x);
        D.StepKeepsStarts(j.p, m.who, m.x);
        OthersLeaveMutex(j.p, m.who, m.x);
      }
      if !SameData(j.n, Next(j, m).n) { ChangesNeedMutex(j, m); }
      HeldDataStay(Next(j, m), run[1..], who);
    }
  }

  lemma OthersLeaveMutex(p: P.State, who: P.Thread, x: P.Choice)
    requires D.Inv(p) && P.Can(p, who, x) && p.d.Some? && p.d != Some(who)
    ensures P.Step(p, who, x).d == p.d
  {
    D.HolderIsOwner(p, who, P.D);
  }

  /** Each worker falls asleep only when the data give it nothing to do: no peer,
      no request, no buffer. */
  lemma SleepsOnlyWithoutWork(j: Joint, m: Move)
    requires Sound(j) && Can(j, m)
    ensures var t := Next(j, m);
      && (t.p.l.LBlocked? && !j.p.l.LBlocked? ==> t.n.peers == map[])
      && (t.p.k.KBlocked? && !j.p.k.KBlocked? ==> t.n.requests == [])
      && (t.p.s.SBlocked? && !j.p.s.SBlocked? ==> t.n.outbox == [])
  {
    StepKeepsSound(j, m);
    if m.By? { FallsAsleepOnZero(j.p, m.who, m.x); }
  }

  lemma FallsAsleepOnZero(p: P.State, who: P.Thread, x: P.Choice)
    requires D.Inv(p) && P.Can(p, who, x)
    ensures var t := P.Step(p, who, x);
      && (t.l.LBlocked? && !p.l.LBlocked? ==> t.peers == 0)
      && (t.k.KBlocked? && !p.k.KBlocked? ==> t.queue == 0)
      && (t.s.SBlocked? && !p.s.SBlocked? ==> t.outbox == 0)
  {
  }

  // ---- the lock model leaves nothing out ----------------------------------

  /** Where the connect thread acts, the data allow exactly the action its program
      counter says, whatever the environment answers; the two never disagree on
      where it is. */
  lemma ConnectIsInStep(j: Joint, x: P.Choice, a: N.Action)
    requires Agree(j) && ConnectQueue.Queue(j.n) && P.ConnectCan(j.p) && ConnectDoes(j.p, x, Some(a))
    ensures (a.ConnectCreate? ==> a.created !in j.n.h.made) ==> Can(j, By(P.Connect, x, Some(a)))
    ensures a.ConnectFront? || a.ConnectPop? ==> j.n.requests != []
  {
  }

  /** Whatever a section meets, the lock model has that section. */
  lemma SectionIsAllowed(j: Joint, a: N.Action)
    requires j.p.l.LMain? && a.ListenSection? && N.Enabled(j.n, a)
    ensures Can(j, By(P.Listen, Choose(j.n, a), Some(a)))
  {
    var x := Choose(j.n, a);
    assert P.ListenCan(j.p, x);
    assert ListenDoes(j.p, j.n, x, Some(a));
  }

  /** The choice that fits what a section accepts and erases. */
  function Choose(n: N.State, a: N.Action): P.Choice
    requires a.ListenSection?
  {
    P.Choice(false, false, a.acc.Incoming?, Loses(n, a).Some?, 0, P.CallSetCallback, P.Target(0, ANY))
  }
}
