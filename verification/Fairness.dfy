/**
 Endless executions of the threads, and what fair scheduling gives: every mutex
 becomes free again and again, and every thread that waits for one moves, unless
 the threads are stuck at line 336.
 */
module Fairness {
  import opened Common
  import opened Protocol
  import opened Deadlock
  import opened Shutdown

  // ---- executions ---------------------------------------------------------

  /** An endless run; at each moment one thread moves, or none. */
  datatype Execution = Execution(at: nat -> State, turn: nat -> Option<Move>)

  ghost predicate Goes(e: Execution, n: nat) {
    match e.turn(n)
    case None => e.at(n + 1) == e.at(n)
    case Some(m) => Can(e.at(n), m.who, m.x) && e.at(n + 1) == Step(e.at(n), m.who, m.x)
  }

  ghost predicate IsExecution(e: Execution) {
    Init(e.at(0)) && forall n: nat :: Goes(e, n)
  }

  ghost predicate CanMove(s: State, who: Thread) {
    exists x :: Can(s, who, x)
  }

  predicate Moved(e: Execution, n: nat, who: Thread) {
    e.turn(n).Some? && e.turn(n).value.who == who
  }

  /** A thread that owes a move: not a user between calls, and not a worker asleep
      with nothing to wake it for. */
  predicate Due(s: State, who: Thread) {
    match who
    case Listen => s.l.LBlocked? ==> ListenWakes(s)
    case Connect => s.k.KBlocked? ==> ConnectWakes(s)
    case Send => s.s.SBlocked? ==> SendWakes(s)
    case User(u) => u in s.u && !s.u[u].UIdle?
  }

  ghost predicate Owes(s: State, who: Thread) {
    Due(s, who) && CanMove(s, who)
  }

  ghost predicate AbleLater(e: Execution, who: Thread, n: nat) {
    exists j: nat :: j >= n && Owes(e.at(j), who)
  }

  ghost predicate MovesLater(e: Execution, who: Thread, n: nat) {
    exists j: nat :: j >= n && Moved(e, j, who)
  }

  ghost predicate AlwaysAbleLater(e: Execution, who: Thread, n: nat) {
    forall k: nat :: k >= n ==> AbleLater(e, who, k)
  }

  /** A thread that again and again owes a move it can make does move: so no mutex
      is handed past a waiting thread for ever, and a sleeping thread is woken when
      there is something to wake it for.  Nobody has to call the node, and nobody
      has to be woken for nothing. */
  ghost predicate Fair(e: Execution) {
    forall who, n: nat :: AlwaysAbleLater(e, who, n) ==> MovesLater(e, who, n)
  }

  lemma {:induction false} InvAt(e: Execution, n: nat)
    requires IsExecution(e)
    ensures Inv(e.at(n))
  {
    if n == 0 {
      InitHasInv(e.at(0));
    } else {
      InvAt(e, n - 1);
      assert Goes(e, n - 1);
      if e.turn(n - 1).Some? {
        StepKeepsLocks(e.at(n - 1), e.turn(n - 1).value.who, e.turn(n - 1).value.x);
        StepKeepsStarts(e.at(n - 1), e.turn(n - 1).value.who, e.turn(n - 1).value.x);
      }
    }
  }

  // ---- a thread that does not move ----------------------------------------

  predicate SamePC(s: State, t: State, who: Thread) {
    match who
    case Listen => s.l == t.l
    case Connect => s.k == t.k
    case Send => s.s == t.s
    case User(u) => u in s.u && u in t.u && s.u[u] == t.u[u]
  }

  /** A worker that was started, or a user. */
  predicate Running(s: State, who: Thread) {
    match who
    case Listen => !s.l.LUnstarted?
    case Connect => !s.k.KUnstarted?
    case Send => !s.s.SUnstarted?
    case User(u) => u in s.u
  }

  lemma OthersLeavePC(s: State, who: Thread, x: Choice, other: Thread)
    requires Inv(s) && Can(s, who, x) && who != other && Running(s, other)
    ensures SamePC(s, Step(s, who, x), other)
  {
    if who.User? { StartsSpawnIdle(s, who.u, x); }
  }

  /** Between n and j, `who` does not move. */
  ghost predicate Rests(e: Execution, who: Thread, n: nat, j: nat) {
    forall i: nat :: n <= i < j ==> !Moved(e, i, who)
  }

  lemma {:induction false} StaysPut(e: Execution, who: Thread, n: nat, j: nat)
    requires IsExecution(e) && n <= j && Running(e.at(n), who) && Rests(e, who, n, j)
    ensures SamePC(e.at(n), e.at(j), who) && Running(e.at(j), who)
    decreases j - n
  {
    if n < j {
      InvAt(e, n);
      assert Goes(e, n) && !Moved(e, n, who);
      if e.turn(n).Some? {
        OthersLeavePC(e.at(n), e.turn(n).value.who, e.turn(n).value.x, who);
      }
      StaysPut(e, who, n + 1, j);
    }
  }

  lemma HoldersRun(s: State, who: Thread, m: Mutex)
    requires IsThread(s, who) && (Holds(s, who, m) || Wants(s, who).Some?)
    ensures Running(s, who)
  {
  }

  lemma StillOwns(e: Execution, m: Mutex, who: Thread, n: nat, j: nat)
    requires IsExecution(e) && n <= j && Owner(e.at(n), m) == Some(who) && Rests(e, who, n, j)
    ensures Running(e.at(n), who) && SamePC(e.at(n), e.at(j), who) && IsThread(e.at(n), who) && IsThread(e.at(j), who)
    ensures Owner(e.at(j), m) == Some(who) && Wants(e.at(j), who) == Wants(e.at(n), who)
  {
    InvAt(e, n);
    InvAt(e, j);
    assert Holding(e.at(n), m);
    HolderIsOwner(e.at(n), who, m);
    HoldersRun(e.at(n), who, m);
    StaysPut(e, who, n, j);
    HolderIsOwner(e.at(j), who, m);
  }

  /** The first move of either of two threads. */
  lemma {:induction false} FirstMove(e: Execution, a: Thread, b: Thread, n: nat, j: nat) returns (i: nat)
    requires n <= j && (Moved(e, j, a) || Moved(e, j, b))
    ensures n <= i <= j && (Moved(e, i, a) || Moved(e, i, b)) && Rests(e, a, n, i) && Rests(e, b, n, i)
    decreases j - n
  {
    if Moved(e, n, a) || Moved(e, n, b) {
      i := n;
    } else {
      i := FirstMove(e, a, b, n + 1, j);
    }
  }

  // ---- mutexes become free ------------------------------------------------

  /** Whoever owns the mutex from n on moves again. */
  ghost predicate Restless(e: Execution, m: Mutex, n: nat) {
    forall k: nat :: k >= n && Owner(e.at(k), m).Some? ==> MovesLater(e, Owner(e.at(k), m).value, k)
  }

  function LetGoStage(s: State, who: Thread): nat {
    if who.Listen? then ListenStage(s.l) else 0
  }

  function LetGoLeft(s: State, who: Thread): nat
    requires IsThread(s, who)
  {
    match who
    case Listen => ListenLeft(s.l)
    case Connect => 0
    case Send => SendLeft(s.s)
    case User(u) => UserLeft(s.u[u])
  }

  /** A step of the owner frees the mutex or brings it nearer to that. */
  lemma OwnerStep(s: State, who: Thread, x: Choice, m: Mutex)
    requires Inv(s) && Can(s, who, x) && Owner(s, m) == Some(who)
    ensures IsThread(s, who) && IsThread(Step(s, who, x), who)
    ensures var t := Step(s, who, x);
      || Owner(t, m).None?
      || (Owner(t, m) == Some(who) && Sooner(LetGoStage(s, who), LetGoLeft(s, who), LetGoStage(t, who), LetGoLeft(t, who)))
  {
    var t := Step(s, who, x);
    HolderIsOwner(s, who, m);
    StepKeepsLocks(s, who, x);
    HolderIsOwner(t, who, m);
    if Owner(t, m).Some? {
      OnlyOwnerGives(s, who, x, m);
      if who.Listen? { ListenLetsGo(s, x, m); } else { OthersLetGo(s, who, x, m); }
    }
  }

  lemma OnlyOwnerGives(s: State, who: Thread, x: Choice, m: Mutex)
    requires Can(s, who, x) && Owner(s, m) == Some(who)
    ensures Owner(Step(s, who, x), m) in {Some(who), None}
  {
  }

  lemma {:induction false} LetsGo(e: Execution, m: Mutex, n: nat) returns (j: nat)
    requires IsExecution(e) && Restless(e, m, n)
    ensures j >= n && Owner(e.at(j), m).None?
    decreases
      if Owner(e.at(n), m).Some? then 1 + LetGoStage(e.at(n), Owner(e.at(n), m).value) else 0,
      if Owner(e.at(n), m).Some? && IsThread(e.at(n), Owner(e.at(n), m).value) then LetGoLeft(e.at(n), Owner(e.at(n), m).value) else 0
  {
    if Owner(e.at(n), m).None? {
      j := n;
    } else {
      var i := OwnerMovesOnce(e, m, n);
      j := LetsGo(e, m, i);
    }
  }

  lemma OwnerMovesOnce(e: Execution, m: Mutex, n: nat) returns (i: nat)
    requires IsExecution(e) && Restless(e, m, n) && Owner(e.at(n), m).Some?
    ensures i > n && Restless(e, m, i)
    ensures var who := Owner(e.at(n), m).value;
      && IsThread(e.at(n), who) && IsThread(e.at(i), who)
      && (Owner(e.at(i), m).None?
          || (Owner(e.at(i), m) == Some(who)
              && Sooner(LetGoStage(e.at(n), who), LetGoLeft(e.at(n), who), LetGoStage(e.at(i), who), LetGoLeft(e.at(i), who))))
  {
    var who := Owner(e.at(n), m).value;
    var k: nat :| k >= n && Moved(e, k, who);
    k := FirstMove(e, who, who, n, k);
    StillOwns(e, m, who, n, k);
    InvAt(e, k);
    assert Goes(e, k);
    var x := e.turn(k).value.x;
    OwnerStep(e.at(k), who, x, m);
    i := k + 1;
  }

  /** Nobody who owns the mutex from n on wants another. */
  ghost predicate Ready(e: Execution, m: Mutex, n: nat) {
    forall k: nat :: k >= n && Owner(e.at(k), m).Some? ==>
      var o := Owner(e.at(k), m).value; IsThread(e.at(k), o) && Wants(e.at(k), o).None?
  }

  lemma ReadyOwnersMove(e: Execution, m: Mutex, n: nat)
    requires IsExecution(e) && Fair(e) && Ready(e, m, n)
    ensures Restless(e, m, n)
  {
    forall k: nat | k >= n && Owner(e.at(k), m).Some? ensures MovesLater(e, Owner(e.at(k), m).value, k) {
      IdleOwnerMoves(e, m, Owner(e.at(k), m).value, k);
    }
  }

  ghost predicate NeverStuck(e: Execution) {
    forall n: nat :: !Stuck(e.at(n))
  }

  /** While one mutex is owned by a thread that waits for the other, the owner of
      the other waits for none. */
  lemma NoCycleOfTwo(s: State, o: Thread, m: Mutex, p: Thread)
    requires Locks(s) && !Stuck(s) && IsThread(s, o) && Owner(s, m) == Some(o) && Wants(s, o).Some?
    requires Owner(s, Wants(s, o).value) == Some(p)
    ensures IsThread(s, p) && Wants(s, p).None?
  {
    var m2 := Wants(s, o).value;
    assert Holding(s, m2);
    HolderIsOwner(s, o, m);
    HolderIsOwner(s, p, m2);
    LockOrder(s, o);
    LockOrder(s, p);
  }

  /** A thread that waits for a mutex that becomes free again and again moves. */
  lemma WaiterMoves(e: Execution, who: Thread, n: nat)
    requires IsExecution(e) && Fair(e) && IsThread(e.at(n), who) && Wants(e.at(n), who).Some?
    requires forall k: nat :: k >= n ==> FreeLater(e, Wants(e.at(n), who).value, k)
    ensures MovesLater(e, who, n)
  {
    if !MovesLater(e, who, n) {
      RestingWaiterIsAble(e, who, n);
    }
  }

  lemma RestingWaiterIsAble(e: Execution, who: Thread, n: nat)
    requires IsExecution(e) && IsThread(e.at(n), who) && Wants(e.at(n), who).Some?
    requires !MovesLater(e, who, n)
    requires forall k: nat :: k >= n ==> FreeLater(e, Wants(e.at(n), who).value, k)
    ensures AlwaysAbleLater(e, who, n)
  {
    var m := Wants(e.at(n), who).value;
    forall k: nat | k >= n ensures AbleLater(e, who, k) {
      assert FreeLater(e, m, k);
      var j: nat :| j >= k && Owner(e.at(j), m).None?;
      StaysPut(e, who, n, j);
      FreeMutexIsTaken(e.at(j), who);
      assert CanMove(e.at(j), who) && Owes(e.at(j), who);
    }
  }

  ghost predicate FreeLater(e: Execution, m: Mutex, n: nat) {
    exists j: nat :: j >= n && Owner(e.at(j), m).None?
  }

  lemma OwnersMove(e: Execution, m: Mutex, n: nat)
    requires IsExecution(e) && Fair(e) && NeverStuck(e)
    ensures Restless(e, m, n)
  {
    forall k: nat | k >= n && Owner(e.at(k), m).Some? ensures MovesLater(e, Owner(e.at(k), m).value, k) {
      var o := Owner(e.at(k), m).value;
      InvAt(e, k);
      assert Holding(e.at(k), m);
      if !MovesLater(e, o, k) {
        if Wants(e.at(k), o).None? {
          IdleOwnerMoves(e, m, o, k);
        } else {
          WaitingOwnerMoves(e, m, o, k);
        }
      }
    }
  }

  lemma IdleOwnerMoves(e: Execution, m: Mutex, o: Thread, k: nat)
    requires IsExecution(e) && Fair(e) && Owner(e.at(k), m) == Some(o)
    requires IsThread(e.at(k), o) && Wants(e.at(k), o).None?
    ensures MovesLater(e, o, k)
  {
    if !MovesLater(e, o, k) {
      RestingOwnerIsAble(e, m, o, k);
    }
  }

  lemma RestingOwnerIsAble(e: Execution, m: Mutex, o: Thread, k: nat)
    requires IsExecution(e) && Owner(e.at(k), m) == Some(o)
    requires IsThread(e.at(k), o) && Wants(e.at(k), o).None? && !MovesLater(e, o, k)
    ensures AlwaysAbleLater(e, o, k)
  {
    forall j: nat | j >= k ensures AbleLater(e, o, j) {
      StillOwns(e, m, o, k, j);
      InvAt(e, j);
      OwnerMoves(e.at(j), o, m);
      assert CanMove(e.at(j), o) && Owes(e.at(j), o);
    }
  }

  lemma WaitingOwnerMoves(e: Execution, m: Mutex, o: Thread, k: nat)
    requires IsExecution(e) && Fair(e) && NeverStuck(e) && Owner(e.at(k), m) == Some(o)
    requires IsThread(e.at(k), o) && Wants(e.at(k), o).Some?
    ensures MovesLater(e, o, k)
  {
    if !MovesLater(e, o, k) {
      var m2 := Wants(e.at(k), o).value;
      RestingOwnerLeavesReady(e, m, o, k);
      ReadyOwnersMove(e, m2, k);
      FreeForEver(e, m2, k);
      WaiterMoves(e, o, k);
    }
  }

  lemma RestingOwnerLeavesReady(e: Execution, m: Mutex, o: Thread, k: nat)
    requires IsExecution(e) && NeverStuck(e) && Owner(e.at(k), m) == Some(o)
    requires IsThread(e.at(k), o) && Wants(e.at(k), o).Some? && !MovesLater(e, o, k)
    ensures Ready(e, Wants(e.at(k), o).value, k)
  {
    var m2 := Wants(e.at(k), o).value;
    forall j: nat | j >= k && Owner(e.at(j), m2).Some?
      ensures var p := Owner(e.at(j), m2).value; IsThread(e.at(j), p) && Wants(e.at(j), p).None?
    {
      StillOwns(e, m, o, k, j);
      InvAt(e, j);
      NoCycleOfTwo(e.at(j), o, m, Owner(e.at(j), m2).value);
    }
  }

  lemma FreeForEver(e: Execution, m: Mutex, n: nat)
    requires IsExecution(e) && Restless(e, m, n)
    ensures forall k: nat :: k >= n ==> FreeLater(e, m, k)
  {
    forall k: nat | k >= n ensures FreeLater(e, m, k) {
      var j := LetsGo(e, m, k);
    }
  }

  // ---- fair executions exist ----------------------------------------------

  ghost function Along(s: State, run: seq<Move>, n: nat): State
    decreases n
  {
    if n == 0 || run == [] || !Can(s, run[0].who, run[0].x) then s
    else Along(Step(s, run[0].who, run[0].x), run[1..], n - 1)
  }

  /** Make the moves of a run, then rest for ever. */
  ghost function ThenRest(s: State, run: seq<Move>): Execution {
    Execution((n: nat) => Along(s, run, n), (n: nat) => if n < |run| then Some(run[n]) else None)
  }

  lemma {:induction false} AlongGoes(s: State, run: seq<Move>, n: nat)
    requires ValidRun(s, run)
    ensures n < |run| ==>
      Can(Along(s, run, n), run[n].who, run[n].x) && Along(s, run, n + 1) == Step(Along(s, run, n), run[n].who, run[n].x)
    ensures n >= |run| ==> Along(s, run, n) == After(s, run)
    decreases n
  {
    if n > 0 && run != [] {
      AlongGoes(Step(s, run[0].who, run[0].x), run[1..], n - 1);
    }
  }

  lemma RestingGoes(s: State, run: seq<Move>, n: nat)
    requires ValidRun(s, run)
    ensures Goes(ThenRest(s, run), n)
  {
    AlongGoes(s, run, n);
    AlongGoes(s, run, n + 1);
  }

  lemma RestingIsExecution(s: State, run: seq<Move>)
    requires Init(s) && ValidRun(s, run)
    ensures IsExecution(ThenRest(s, run))
  {
    forall n: nat ensures Goes(ThenRest(s, run), n) {
      RestingGoes(s, run, n);
    }
    assert ThenRest(s, run).at(0) == s;
  }

  /** A run after which no thread owes a move it can make, followed by rest, is a
      fair execution. */
  lemma RestIsFair(s: State, run: seq<Move>)
    requires Init(s) && ValidRun(s, run) && forall who :: !Owes(After(s, run), who)
    ensures IsExecution(ThenRest(s, run)) && Fair(ThenRest(s, run))
  {
    RestingIsExecution(s, run);
    forall who, n: nat ensures !AlwaysAbleLater(ThenRest(s, run), who, n) {
      NobodyIsAbleLater(s, run, who, if n < |run| then |run| else n);
    }
  }

  lemma NobodyIsAbleLater(s: State, run: seq<Move>, who: Thread, k: nat)
    requires ValidRun(s, run) && k >= |run| && !Owes(After(s, run), who)
    ensures !AbleLater(ThenRest(s, run), who, k)
  {
    forall j: nat | j >= k ensures !Owes(ThenRest(s, run).at(j), who) {
      AlongGoes(s, run, j);
    }
  }
}
