/** The connect queue and its batches, over all runs. */
module ConnectQueue {
  import opened Common
  import opened NodeState

  function Repeat(k: nat, n: nat): seq<nat> {
    seq(n, _ => k)
  }

  /** Request k worked on lengths[k] times, one request after the other. */
  function Schedule(lengths: seq<nat>): seq<nat> {
    if lengths == [] then []
    else
      var k := |lengths| - 1;
      Schedule(lengths[..k]) + Repeat(k, lengths[k])
  }

  function BatchLength(c: ConnectStep): nat
    requires !c.AtTop?
  {
    c.q
  }

  /** How often the front was attempted in this batch. */
  function Attempted(c: ConnectStep): nat
    requires !c.AtTop?
  {
    if c.Cycle? || c.Created? then c.i else c.i + 1
  }

  ghost predicate Queue(s: State) {
    && s.h.popped <= |s.h.arrived| && s.requests == s.h.arrived[s.h.popped..]
    && (forall k :: 0 <= k < |s.h.lengths| ==> 1 <= s.h.lengths[k] <= |s.h.arrived| - k)
    && if s.conn.AtTop? then
         |s.h.lengths| == s.h.popped && s.h.cycles == Schedule(s.h.lengths)
       else
         && |s.h.lengths| == s.h.popped + 1
         && BatchLength(s.conn) == s.h.lengths[s.h.popped]
         && 1 <= BatchLength(s.conn) <= |s.requests|
         && Attempted(s.conn) <= BatchLength(s.conn)
         && (s.conn.Created? ==> s.conn.i < s.conn.q)
         && s.h.cycles == Schedule(s.h.lengths[..s.h.popped]) + Repeat(s.h.popped, Attempted(s.conn))
         && (s.conn.Trying? || s.conn.Lost? || s.conn.Won? ==> s.conn.to == s.requests[0])
  }

  lemma QueueIsKept(s: State, a: Action)
    requires Queue(s) && Enabled(s, a)
    ensures Queue(Apply(s, a))
  {
    match a
    case ConnectTo(to) => ArrivalKeepsQueue(s, to);
    case ConnectRead => ReadKeepsQueue(s);
    case ConnectFront => FrontKeepsQueue(s);
    case ConnectPop => PopKeepsQueue(s);
    case ListenSection(order, acc, recv, told) =>
      SectionLeavesQueue(s, order, acc, recv, told);
      QueueStays(s, DoListenSection(s, order, acc, recv, told));
    case SendOne(o) =>
      SendLeavesQueue(s, o);
      QueueStays(s, DoSendOne(s, o));
    case _ => OthersKeepQueue(s, a);
  }

  lemma OthersKeepQueue(s: State, a: Action)
    requires Queue(s) && Enabled(s, a)
    requires !a.ConnectTo? && !a.ConnectRead? && !a.ConnectFront? && !a.ConnectPop? && !a.ListenSection? && !a.SendOne?
    ensures Queue(Apply(s, a))
  {
    if FromOutside(a) {
      OutsideLeavesQueue(s, a);
      QueueStays(s, Apply(s, a));
    } else if StartsCycle(a) {
      StartsKeepQueue(s, a);
    } else {
      EndsKeepQueue(s, a);
    }
  }

  ghost predicate SameQueue(s: State, t: State) {
    && t.requests == s.requests && t.conn == s.conn && t.h.arrived == s.h.arrived
    && t.h.popped == s.h.popped && t.h.lengths == s.h.lengths && t.h.cycles == s.h.cycles
    && t.h.origins == s.h.origins
  }

  lemma SectionLeavesQueue(s: State, order: seq<nat>, acc: AcceptAnswer, recv: nat -> ReceiveAnswer, told: bool)
    ensures SameQueue(s, DoListenSection(s, order, acc, recv, told))
  {
    var s1 := DoAccept(s, acc);
    var s2 := DoSweep(s1, order, recv);
    assert SameQueue(s, s1);
    assert SameQueue(s1, s2);
    assert SameQueue(s2, DoDelete(s2, order, told));
  }

  lemma SendLeavesQueue(s: State, o: SendAnswer)
    requires Enabled(s, SendOne(o))
    ensures SameQueue(s, DoSendOne(s, o))
  {
  }

  /** Steps of the other threads. */
  lemma QueueStays(s: State, t: State)
    requires Queue(s) && SameQueue(s, t)
    ensures Queue(t)
  {
  }

  lemma ArrivalKeepsQueue(s: State, to: Address)
    requires Queue(s)
    ensures Queue(DoConnectTo(s, to))
  {
  }

  lemma ReadKeepsQueue(s: State)
    requires Queue(s) && s.conn.AtTop?
    ensures Queue(DoConnectRead(s))
  {
    var t := DoConnectRead(s);
    if s.requests != [] {
      assert t.h.lengths[..s.h.popped] == s.h.lengths;
    }
  }

  lemma FrontKeepsQueue(s: State)
    requires Queue(s) && s.conn.Created?
    ensures Queue(DoConnectFront(s))
  {
    var k := s.h.popped;
    assert Repeat(k, s.conn.i + 1) == Repeat(k, s.conn.i) + [k];
  }

  lemma PopKeepsQueue(s: State)
    requires Queue(s) && s.conn.Cycle? && s.conn.i >= s.conn.q
    ensures Queue(DoConnectPop(s))
  {
    var k := s.h.popped;
    assert s.h.lengths == s.h.lengths[..k] + [s.h.lengths[k]];
    assert s.conn.i == s.conn.q;
  }

  lemma OutsideLeavesQueue(s: State, a: Action)
    requires Enabled(s, a) && FromOutside(a) && !a.ConnectTo?
    ensures SameQueue(s, Apply(s, a))
  {
  }

  lemma StartsKeepQueue(s: State, a: Action)
    requires Queue(s) && Enabled(s, a) && (a.ConnectCreate? || a.ConnectAttempt?)
    ensures Queue(Apply(s, a))
  {
  }

  lemma EndsKeepQueue(s: State, a: Action)
    requires Queue(s) && Enabled(s, a) && EndsCycle(a) && !a.ConnectPop?
    ensures Queue(Apply(s, a))
  {
  }

  /** In a batch the deque is never empty, so front() and pop_front() are
      defined, and the front is the request the whole batch works on, whatever
      arrives meanwhile. */
  lemma FrontIsDefinedAndFixed(s: State, a: Action)
    requires Queue(s) && Enabled(s, a) && !s.conn.AtTop?
    ensures s.requests != [] && s.requests[0] == s.h.arrived[s.h.popped]
    ensures !a.ConnectPop? ==> !Apply(s, a).conn.AtTop? && Apply(s, a).h.popped == s.h.popped
    ensures a.ConnectPop? ==> Apply(s, a).requests == s.requests[1..]
  {
    if !a.ConnectPop? && !a.ListenSection? && !a.SendOne? {
      OtherStepsStayInBatch(s, a);
    }
  }

  lemma OtherStepsStayInBatch(s: State, a: Action)
    requires Queue(s) && Enabled(s, a) && !s.conn.AtTop?
    requires !a.ConnectPop? && !a.ListenSection? && !a.SendOne?
    ensures !Apply(s, a).conn.AtTop? && Apply(s, a).h.popped == s.h.popped
  {
  }

  // ---- the order of attempts ----------------------------------------------

  lemma {:induction false} ScheduleIsFifo(lengths: seq<nat>)
    requires forall k :: 0 <= k < |lengths| ==> lengths[k] >= 1
    ensures forall x :: x in Schedule(lengths) ==> x < |lengths|
    ensures forall i, j :: 0 <= i < j < |Schedule(lengths)| ==> Schedule(lengths)[i] <= Schedule(lengths)[j]
    ensures forall k :: 0 <= k < |lengths| ==> k in Schedule(lengths)
  {
    if lengths == [] {
    } else {
      var n := |lengths| - 1;
      ScheduleIsFifo(lengths[..n]);
      var a, b := Schedule(lengths[..n]), Repeat(n, lengths[n]);
      assert b[0] == n;
      forall k | 0 <= k <= n ensures k in a + b {
        if k == n { assert (a + b)[|a|] == n; }
      }
      forall i | 0 <= i < |a| ensures a[i] < n { assert a[i] in a; }
    }
  }

  /** Requests are first attempted in the order they arrived, and each at least
      once before it is popped. */
  lemma FirstAttemptsAreFifo(s: State)
    requires Queue(s)
    ensures forall i, j :: 0 <= i < j < |s.h.cycles| ==> s.h.cycles[i] <= s.h.cycles[j]
    ensures forall k :: 0 <= k < s.h.popped ==> k in s.h.cycles
  {
    var done := s.h.lengths[..s.h.popped];
    ScheduleIsFifo(done);
    var a := Schedule(done);
    if s.conn.AtTop? {
      assert done == s.h.lengths;
    } else {
      forall i | 0 <= i < |a| ensures a[i] < s.h.popped { assert a[i] in a; }
    }
  }

  // ---- how often each request is attempted --------------------------------

  function Count(xs: seq<nat>, k: nat): nat {
    if xs == [] then 0 else Count(xs[..|xs| - 1], k) + if xs[|xs| - 1] == k then 1 else 0
  }

  lemma {:induction false} CountAppend(xs: seq<nat>, ys: seq<nat>, k: nat)
    ensures Count(xs + ys, k) == Count(xs, k) + Count(ys, k)
  {
    if ys == [] {
      assert xs + ys == xs;
    } else {
      assert (xs + ys)[..|xs + ys| - 1] == xs + ys[..|ys| - 1];
      CountAppend(xs, ys[..|ys| - 1], k);
    }
  }

  lemma {:induction false} CountRepeat(x: nat, n: nat, k: nat)
    ensures Count(Repeat(x, n), k) == if x == k then n else 0
  {
    if n > 0 {
      assert Repeat(x, n)[..n - 1] == Repeat(x, n - 1);
      CountRepeat(x, n - 1, k);
    }
  }

  lemma {:induction false} CountSchedule(lengths: seq<nat>, k: nat)
    ensures Count(Schedule(lengths), k) == if k < |lengths| then lengths[k] else 0
  {
    if lengths == [] {
    } else {
      var n := |lengths| - 1;
      CountSchedule(lengths[..n], k);
      CountAppend(Schedule(lengths[..n]), Repeat(n, lengths[n]), k);
      CountRepeat(n, lengths[n], k);
    }
  }

  /** A popped request ran as many cycles as the queue was long when its batch
      began, not one. */
  lemma PoppedRanQueueLength(s: State, k: nat)
    requires Queue(s) && k < s.h.popped
    ensures Count(s.h.cycles, k) == s.h.lengths[k] >= 1
  {
    var done := s.h.lengths[..s.h.popped];
    CountSchedule(done, k);
    if s.conn.AtTop? {
      assert done == s.h.lengths;
    } else {
      CountAppend(Schedule(done), Repeat(s.h.popped, Attempted(s.conn)), k);
      CountRepeat(s.h.popped, Attempted(s.conn), k);
    }
  }

  // ---- draining without arrivals ------------------------------------------

  /** From a point on at which `popped` requests were gone and n were queued,
      no request has arrived. */
  ghost predicate Draining(s: State, popped: nat, n: nat) {
    && |s.h.arrived| == popped + n
    && popped <= |s.h.lengths|
    && forall k :: popped <= k < |s.h.lengths| ==> s.h.lengths[k] == popped + n - k
  }

  lemma DrainingIsKept(s: State, a: Action, popped: nat, n: nat)
    requires Queue(s) && Draining(s, popped, n) && Enabled(s, a) && !a.ConnectTo?
    ensures Draining(Apply(s, a), popped, n)
    ensures s.h.lengths <= Apply(s, a).h.lengths
  {
    match a
    case ListenSection(order, acc, recv, told) => SectionLeavesQueue(s, order, acc, recv, told);
    case SendOne(o) => SendLeavesQueue(s, o);
    case ConnectRead =>
    case _ => OnlyReadBegins(s, a);
  }

  lemma OnlyReadBegins(s: State, a: Action)
    requires Enabled(s, a)
    requires !a.ConnectTo? && !a.ListenSection? && !a.SendOne? && !a.ConnectRead?
    ensures Apply(s, a).h.lengths == s.h.lengths && Apply(s, a).h.arrived == s.h.arrived
  {
    if FromOutside(a) { OutsideLeavesQueue(s, a); }
  }

  lemma {:induction false} RunKeepsDraining(s: State, run: seq<Action>, popped: nat, n: nat)
    requires Queue(s) && Draining(s, popped, n) && ValidRun(s, run)
    requires forall a :: a in run ==> !a.ConnectTo?
    ensures Queue(After(s, run)) && Draining(After(s, run), popped, n)
    ensures s.h.lengths <= After(s, run).h.lengths
    decreases |run|
  {
    if run != [] {
      assert run[0] in run;
      QueueIsKept(s, run[0]);
      DrainingIsKept(s, run[0], popped, n);
      RunKeepsDraining(Apply(s, run[0]), run[1..], popped, n);
    }
  }

  lemma {:induction false} StaircaseSize(lengths: seq<nat>, popped: nat, n: nat)
    requires popped <= |lengths| <= popped + n
    requires forall k :: popped <= k < |lengths| ==> lengths[k] == popped + n - k
    ensures var m := |lengths| - popped;
      2 * (|Schedule(lengths)| - |Schedule(lengths[..popped])|) == m * (2 * n - m + 1)
    decreases |lengths|
  {
    if |lengths| == popped {
      assert lengths[..popped] == lengths;
    } else {
      var m := |lengths| - 1 - popped;
      assert lengths[..popped + m][..popped] == lengths[..popped];
      StaircaseSize(lengths[..popped + m], popped, n);
      OneStepDown(m, n);
    }
  }

  lemma OneStepDown(m: int, n: int)
    ensures (m + 1) * (2 * n - (m + 1) + 1) == m * (2 * n - m + 1) + 2 * (n - m)
  {
    var a := 2 * n - m;
    assert (m + 1) * a == m * a + a;
    assert m * (a + 1) == m * a + m;
  }

  /** Whatever the node did before: once the connect thread is at the top of its
      loop with n requests queued, and none arrives, draining them runs the
      request at position k - popped exactly popped + n - k cycles, n(n+1)/2 in
      all. */
  lemma EveryDrain(s: State, run: seq<Action>)
    requires Queue(s) && s.conn.AtTop? && ValidRun(s, run)
    requires forall a :: a in run ==> !a.ConnectTo?
    requires After(s, run).conn.AtTop? && After(s, run).requests == []
    ensures var p, n, t := s.h.popped, |s.requests|, After(s, run);
      && t.h.popped == p + n
      && (forall k :: p <= k < p + n ==> Count(t.h.cycles, k) == p + n - k)
      && |t.h.cycles| - |s.h.cycles| == n * (n + 1) / 2
  {
    RunKeepsDraining(s, run, s.h.popped, |s.requests|);
    DrainedCounts(s, After(s, run));
  }

  lemma DrainedCounts(s: State, t: State)
    requires Queue(s) && Queue(t) && s.conn.AtTop? && t.conn.AtTop? && t.requests == []
    requires Draining(t, s.h.popped, |s.requests|) && s.h.lengths <= t.h.lengths
    ensures var p, n := s.h.popped, |s.requests|;
      && t.h.popped == p + n
      && (forall k :: p <= k < p + n ==> Count(t.h.cycles, k) == p + n - k)
      && |t.h.cycles| - |s.h.cycles| == n * (n + 1) / 2
  {
    var p, n := s.h.popped, |s.requests|;
    assert t.h.lengths[..p] == s.h.lengths;
    forall k | p <= k < p + n ensures Count(t.h.cycles, k) == p + n - k {
      PoppedRanQueueLength(t, k);
    }
    StaircaseSize(t.h.lengths, p, n);
  }

  /** The first drain of a node: every cycle ever run belongs to it. */
  lemma FirstDrain(s: State, run: seq<Action>)
    requires Queue(s) && s.h.lengths == [] && ValidRun(s, run)
    requires forall a :: a in run ==> !a.ConnectTo?
    requires After(s, run).conn.AtTop? && After(s, run).requests == []
    ensures var n, t := |s.h.arrived|, After(s, run);
      && t.h.popped == n
      && (forall k :: 0 <= k < n ==> Count(t.h.cycles, k) == n - k)
      && |t.h.cycles| == n * (n + 1) / 2
  {
    EveryDrain(s, run);
  }
}
