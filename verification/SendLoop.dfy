/**
 The send thread counts its queue in eight bits.  A queue of 256 buffers counts
 as empty, so the thread gives up the mutex, asks whether to pause and comes
 back.  This is shown to do what a loop with the exact count does.
 */
module SendLoop {

  datatype Where =
    | Top
    | Asking(idle: bool)     // the count was zero; `idle`: the queue was really empty
    | Asleep(idle: bool)
    | Relocking(idle: bool)
    | Holding                // data mutex held, about to handle the front

  datatype Loop<T> = Loop(at: Where, queue: seq<T>, handled: seq<T>, accepted: seq<T>, quit: bool)

  datatype Act<T> =
    | Arrive(item: T)    // sendData
    | Quit               // destructor
    | Look               // lock and count
    | Check              // the predicate of the pause
    | Wake
    | Lock
    | Handle

  /** Does a queue of this length count as empty? */
  predicate Short(n: nat, exact: bool) {
    if exact then n == 0 else n % 256 == 0
  }

  predicate Can<T>(s: Loop<T>, a: Act<T>) {
    match a
    case Arrive(_) => !s.at.Holding?
    case Quit => true
    case Look => s.at.Top?
    case Check => s.at.Asking?
    case Wake => s.at.Asleep?
    case Lock => s.at.Relocking?
    case Handle => s.at.Holding?
  }

  function Do<T>(s: Loop<T>, a: Act<T>, exact: bool): Loop<T>
    requires Can(s, a)
  {
    match a
    case Arrive(x) => s.(queue := s.queue + [x], accepted := s.accepted + [x])
    case Quit => s.(quit := true)
    case Look => s.(at := if Short(|s.queue|, exact) then Asking(|s.queue| == 0) else Holding)
    case Check => s.(at := if |s.queue| != 0 || s.quit then Relocking(s.at.idle) else Asleep(s.at.idle))
    case Wake => s.(at := Asking(s.at.idle))
    case Lock => s.(at := Holding)
    case Handle =>
      if |s.queue| > 0 then s.(at := Top, queue := s.queue[1..], handled := s.handled + [s.queue[0]])
      else s.(at := Top)
  }

  ghost predicate Start<T>(s: Loop<T>) {
    s.at.Top? && s.queue == [] && s.handled == [] && s.accepted == []
  }

  ghost predicate ValidRun<T>(s: Loop<T>, run: seq<Act<T>>, exact: bool)
    decreases |run|
  {
    run == [] || (Can(s, run[0]) && ValidRun(Do(s, run[0], exact), run[1..], exact))
  }

  ghost function After<T>(s: Loop<T>, run: seq<Act<T>>, exact: bool): Loop<T>
    requires ValidRun(s, run, exact)
    decreases |run|
  {
    if run == [] then s else After(Do(s, run[0], exact), run[1..], exact)
  }

  /** First in, first out, and a detour only with work waiting. */
  ghost predicate Fits<T>(s: Loop<T>) {
    && s.accepted == s.handled + s.queue
    && ((s.at.Asking? || s.at.Relocking?) && !s.at.idle ==> s.queue != [])
    && (s.at.Asleep? ==> s.at.idle)
  }

  lemma FitsKept<T>(s: Loop<T>, a: Act<T>, exact: bool)
    requires Fits(s) && Can(s, a)
    ensures Fits(Do(s, a, exact))
  {
  }

  /** The exact loop's view: a detour with a full queue has not begun. */
  function Seen<T>(s: Loop<T>): Loop<T> {
    if (s.at.Asking? || s.at.Asleep? || s.at.Relocking?) && !s.at.idle then s.(at := Top) else s
  }

  /** The same step in the exact loop, or none. */
  function Matching<T>(s: Loop<T>, a: Act<T>): seq<Act<T>> {
    if Seen(s).at == s.at then
      if a.Look? && |s.queue| != 0 && |s.queue| % 256 == 0 then [] else [a]
    else if a.Lock? then [Look]
    else if a.Arrive? || a.Quit? then [a]
    else []
  }

  /** One step of the eight-bit loop is one step of the exact loop, or none. */
  lemma StepMatches<T>(s: Loop<T>, a: Act<T>)
    requires Fits(s) && Can(s, a)
    ensures var t := Do(s, a, false);
      && ValidRun(Seen(s), Matching(s, a), true)
      && After(Seen(s), Matching(s, a), true) == Seen(t)
  {
    var m := Matching(s, a);
    if m != [] {
      assert m[1..] == [];
      assert Can(Seen(s), m[0]);
      assert Do(Seen(s), m[0], true) == Seen(Do(s, a, false));
    }
  }

  lemma {:induction false} RunsJoin<T>(s: Loop<T>, xs: seq<Act<T>>, ys: seq<Act<T>>)
    requires ValidRun(s, xs, true) && ValidRun(After(s, xs, true), ys, true)
    ensures ValidRun(s, xs + ys, true) && After(s, xs + ys, true) == After(After(s, xs, true), ys, true)
    decreases |xs|
  {
    if xs == [] {
      assert xs + ys == ys;
    } else {
      assert (xs + ys)[1..] == xs[1..] + ys;
      RunsJoin(Do(s, xs[0], true), xs[1..], ys);
    }
  }

  /** Every run of the eight-bit loop, with any arrivals, is matched by a run of
      the exact loop that ends with the same queue and the same buffers handled
      in the same order. */
  lemma {:induction false} EightBitsRefineExact<T>(s: Loop<T>, run: seq<Act<T>>) returns (exactRun: seq<Act<T>>)
    requires Fits(s) && ValidRun(s, run, false)
    ensures ValidRun(Seen(s), exactRun, true)
    ensures After(Seen(s), exactRun, true) == Seen(After(s, run, false))
    ensures Fits(After(s, run, false))
    decreases |run|
  {
    if run == [] {
      exactRun := [];
    } else {
      var t := Do(s, run[0], false);
      FitsKept(s, run[0], false);
      StepMatches(s, run[0]);
      var rest := EightBitsRefineExact(t, run[1..]);
      exactRun := Matching(s, run[0]) + rest;
      RunsJoin(Seen(s), Matching(s, run[0]), rest);
    }
  }

  /** Nothing is skipped or reordered, and the thread falls asleep only with an
      empty queue, whatever its length was before. */
  lemma NeverStallsWithWork<T>(s: Loop<T>, run: seq<Act<T>>, a: Act<T>)
    requires Start(s) && ValidRun(s, run, false)
    requires var t := After(s, run, false); Can(t, a) && !t.at.Asleep? && Do(t, a, false).at.Asleep?
    ensures After(s, run, false).queue == []
    ensures After(s, run, false).accepted == After(s, run, false).handled
  {
    var exactRun := EightBitsRefineExact(s, run);
  }
}
