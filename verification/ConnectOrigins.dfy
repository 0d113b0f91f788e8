/** How many connections one request makes. */
module ConnectOrigins {
  import opened NodeState
  import opened ConnectQueue
  import opened NodeRuns
  import opened NodeScenarios

  /** The connections made for request k. */
  function Made(s: State, k: nat): nat {
    Count(s.h.origins, k)
  }

  /** The cycle under way has not been decided against a connection. */
  function Pending(s: State, k: nat): nat {
    if (s.conn.Trying? || s.conn.Won?) && k == s.h.popped then 1 else 0
  }

  ghost predicate Origins(s: State) {
    forall k: nat :: Made(s, k) + Pending(s, k) <= Count(s.h.cycles, k)
  }

  lemma CountSnoc(xs: seq<nat>, x: nat, k: nat)
    ensures Count(xs + [x], k) == Count(xs, k) + if x == k then 1 else 0
  {
    assert (xs + [x])[..|xs|] == xs;
  }

  lemma FrontKeepsOrigins(s: State)
    requires Origins(s) && s.conn.Created?
    ensures Origins(DoConnectFront(s))
  {
    forall k: nat ensures Made(DoConnectFront(s), k) + Pending(DoConnectFront(s), k) <= Count(DoConnectFront(s).h.cycles, k) {
      CountSnoc(s.h.cycles, s.h.popped, k);
      assert Made(s, k) <= Count(s.h.cycles, k);
    }
  }

  lemma WonKeepsOrigins(s: State, ip: string, port: nat, host: string)
    requires Origins(s) && s.conn.Won?
    ensures Origins(DoConnectWon(s, ip, port, host))
  {
    var t := DoConnectWon(s, ip, port, host);
    forall k: nat ensures Made(t, k) + Pending(t, k) <= Count(t.h.cycles, k) {
      CountSnoc(s.h.origins, s.h.popped, k);
      assert Made(s, k) + Pending(s, k) <= Count(s.h.cycles, k);
    }
  }

  lemma OriginsStay(s: State, t: State)
    requires Origins(s) && t.h.origins == s.h.origins && t.h.cycles == s.h.cycles
    requires forall k: nat :: Pending(t, k) <= Pending(s, k)
    ensures Origins(t)
  {
    forall k: nat ensures Made(t, k) + Pending(t, k) <= Count(t.h.cycles, k) {
      assert Made(s, k) + Pending(s, k) <= Count(s.h.cycles, k);
    }
  }

  lemma OtherStartsKeepOrigins(s: State, a: Action)
    requires Origins(s) && Enabled(s, a) && StartsCycle(a) && !a.ConnectFront?
    ensures Origins(Apply(s, a))
  {
    OriginsStay(s, Apply(s, a));
  }

  lemma OtherEndsKeepOrigins(s: State, a: Action)
    requires Origins(s) && Enabled(s, a) && EndsCycle(a) && !a.ConnectWon?
    ensures Origins(Apply(s, a))
  {
    OriginsStay(s, Apply(s, a));
  }

  lemma OutsideKeepsOrigins(s: State, a: Action)
    requires Origins(s) && Enabled(s, a) && FromOutside(a)
    ensures Origins(Apply(s, a))
  {
    if !a.ConnectTo? { OutsideLeavesQueue(s, a); }
    OriginsStay(s, Apply(s, a));
  }

  lemma OriginsAreKept(s: State, a: Action)
    requires Origins(s) && Enabled(s, a)
    ensures Origins(Apply(s, a))
  {
    if a.ListenSection? {
      SectionLeavesQueue(s, a.order, a.acc, a.recv, a.endTold);
      OriginsStay(s, DoListenSection(s, a.order, a.acc, a.recv, a.endTold));
    } else if a.SendOne? {
      SendLeavesQueue(s, a.answer);
      OriginsStay(s, DoSendOne(s, a.answer));
    } else if a.ConnectFront? {
      FrontKeepsOrigins(s);
    } else if a.ConnectWon? {
      WonKeepsOrigins(s, a.ip, a.port, a.host);
    } else if FromOutside(a) {
      OutsideKeepsOrigins(s, a);
    } else if StartsCycle(a) {
      OtherStartsKeepOrigins(s, a);
    } else {
      OtherEndsKeepOrigins(s, a);
    }
  }

  /** The length of the batch that worked on request k, or 0 if none did yet. */
  function BatchOf(s: State, k: nat): nat {
    if k < |s.h.lengths| then s.h.lengths[k] else 0
  }

  lemma CyclesOf(s: State, k: nat)
    requires Queue(s)
    ensures Count(s.h.cycles, k) <= BatchOf(s, k)
    ensures !s.conn.AtTop? && k == s.h.popped ==> Count(s.h.cycles, k) == Attempted(s.conn)
  {
    var done := s.h.lengths[..s.h.popped];
    CountSchedule(done, k);
    if s.conn.AtTop? {
      assert done == s.h.lengths;
    } else {
      CountAppend(Schedule(done), Repeat(s.h.popped, Attempted(s.conn)), k);
      CountRepeat(s.h.popped, Attempted(s.conn), k);
    }
  }

  // ---- over runs ----------------------------------------------------------

  lemma ReadGrowsLengths(s: State, a: Action)
    requires Enabled(s, a)
    ensures s.h.lengths <= Apply(s, a).h.lengths
  {
    if a.ListenSection? {
      SectionLeavesQueue(s, a.order, a.acc, a.recv, a.endTold);
    } else if a.SendOne? {
      SendLeavesQueue(s, a.answer);
    } else if !a.ConnectTo? && !a.ConnectRead? {
      OnlyReadBegins(s, a);
    }
  }

  lemma {:induction false} RunKeepsOrigins(s: State, run: seq<Action>)
    requires Queue(s) && Origins(s) && ValidRun(s, run)
    ensures Queue(After(s, run)) && Origins(After(s, run)) && s.h.lengths <= After(s, run).h.lengths
    decreases |run|
  {
    if run != [] {
      QueueIsKept(s, run[0]);
      OriginsAreKept(s, run[0]);
      ReadGrowsLengths(s, run[0]);
      RunKeepsOrigins(Apply(s, run[0]), run[1..]);
    }
  }

  /** In every run a request makes at most as many connections as the queue was
      long when its batch began. */
  lemma EveryRequest(s: State, run: seq<Action>, k: nat)
    requires Init(s) && ValidRun(s, run)
    ensures Made(After(s, run), k) <= BatchOf(After(s, run), k)
  {
    InitHasInv(s);
    RunKeepsOrigins(s, run);
    var t := After(s, run);
    CyclesOf(t, k);
    assert Made(t, k) + Pending(t, k) <= Count(t.h.cycles, k);
  }

  // ---- and it can make any number up to that ------------------------------

  /** The run ends with the batch over and its request popped. */
  ghost predicate FinishesBatch(s: State, run: seq<Action>) {
    ValidRun(s, run) && After(s, run).conn.AtTop? && After(s, run).h.popped == s.h.popped + 1
  }

  /** In the batch under way, w cycles win and then l lose. */
  lemma {:induction false} SomeCycles(s: State, w: nat, l: nat) returns (run: seq<Action>, t: State)
    requires s.conn.Cycle? && s.requests != [] && s.conn.i + w + l <= s.conn.q
    ensures Reaches(s, run, t)
    ensures t.conn == Cycle(s.conn.i + w + l, s.conn.q) && t.requests == s.requests
    ensures t.h.popped == s.h.popped && t.h.arrived == s.h.arrived
    ensures Made(t, s.h.popped) == Made(s, s.h.popped) + w
    decreases w + l
  {
    if w + l == 0 {
      run, t := [], s;
    } else {
      var first, u;
      if w > 0 {
        first, u := WinsCycle(s);
        CountSnoc(s.h.origins, s.h.popped, s.h.popped);
      } else {
        first, u := LosesCycle(s);
      }
      var rest;
      rest, t := SomeCycles(u, if w > 0 then w - 1 else 0, if w > 0 then l else l - 1);
      RunsJoin(s, first, u, rest, t);
      run := first + rest;
    }
  }

  lemma MakesExactly(s: State, m: nat) returns (run: seq<Action>)
    requires s.conn.Cycle? && s.conn.i == 0 && m <= s.conn.q && s.requests != []
    ensures FinishesBatch(s, run) && Made(After(s, run), s.h.popped) == Made(s, s.h.popped) + m
    ensures After(s, run).h.arrived == s.h.arrived
  {
    var cycles, t := SomeCycles(s, m, s.conn.q - m);
    ThenOne(s, cycles, t, ConnectPop);
    run := cycles + [ConnectPop];
  }

  /** A batch of q that has just begun: some run to its end, with whatever the
      environment, users and other threads do, makes exactly m connections for its
      one request, if and only if m is at most q. */
  lemma ConnectionsIff(s: State, m: nat)
    requires Queue(s) && Origins(s) && s.conn.Cycle? && s.conn.i == 0
    ensures (exists run :: FinishesBatch(s, run) && Made(After(s, run), s.h.popped) == m) <==> m <= s.conn.q
  {
    var p := s.h.popped;
    CyclesOf(s, p);
    assert Made(s, p) + Pending(s, p) <= Count(s.h.cycles, p);
    if m <= s.conn.q {
      var run := MakesExactly(s, m);
    }
    forall run | FinishesBatch(s, run) && Made(After(s, run), p) == m ensures m <= s.conn.q {
      RunKeepsOrigins(s, run);
      var t := After(s, run);
      CyclesOf(t, p);
      assert Made(t, p) + Pending(t, p) <= Count(t.h.cycles, p);
    }
  }

  /** So from every new node two requests can leave the first one with two
      connections. */
  lemma OneRequestTwoConnections(s: State) returns (run: seq<Action>)
    requires Init(s)
    ensures ValidRun(s, run)
    ensures var t := After(s, run); t.h.arrived == [HOST, HOST] && t.h.popped == 1 && Made(t, 0) == 2
  {
    var first, u := BatchOfTwo(s);
    var rest := MakesExactly(u, 2);
    RunsJoin(s, first, u, rest, After(u, rest));
    run := first + rest;
  }
}
