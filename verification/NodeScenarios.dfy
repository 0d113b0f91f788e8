/** Runs of the node put together step by step. */
module NodeScenarios {
  import opened Common
  import opened NodeState

  ghost predicate Reaches(s: State, run: seq<Action>, t: State) {
    ValidRun(s, run) && After(s, run) == t
  }

  lemma OneStepMore(s: State, a: Action, run: seq<Action>, t: State)
    requires Enabled(s, a) && Reaches(Apply(s, a), run, t)
    ensures Reaches(s, [a] + run, t)
  {
    assert ([a] + run)[1..] == run;
  }

  lemma {:induction false} RunsJoin(s: State, xs: seq<Action>, u: State, ys: seq<Action>, t: State)
    requires Reaches(s, xs, u) && Reaches(u, ys, t)
    ensures Reaches(s, xs + ys, t)
    decreases |xs|
  {
    if xs == [] {
      assert xs + ys == ys;
    } else {
      assert (xs + ys)[1..] == xs[1..] + ys;
      RunsJoin(Apply(s, xs[0]), xs[1..], u, ys, t);
    }
  }

  lemma ThenOne(s: State, run: seq<Action>, t: State, a: Action)
    requires Reaches(s, run, t) && Enabled(t, a)
    ensures Reaches(s, run + [a], Apply(t, a))
  {
    OneStepMore(t, a, [], Apply(t, a));
    assert [a] + [] == [a];
    RunsJoin(s, run, t, [a], Apply(t, a));
  }

  /** There is always a socket that was never made. */
  lemma {:induction false} FreshHandle(made: set<Handle>) returns (h: Handle)
    ensures forall x :: x in made ==> x < h
    decreases |made|
  {
    if made == {} {
      h := 0;
    } else {
      var a :| a in made;
      var rest := made - {a};
      var b := FreshHandle(rest);
      h := if a < b then b else a + 1;
      forall x | x in made ensures x < h {
        assert x == a || x in rest;
      }
    }
  }

  // ---- connect cycles -----------------------------------------------------

  /** What a cycle that wins leaves behind. */
  ghost predicate WonBy(s: State, t: State) {
    && s.conn.Cycle? && t.conn == Cycle(s.conn.i + 1, s.conn.q)
    && t.requests == s.requests && t.h.arrived == s.h.arrived && t.h.popped == s.h.popped
    && t.h.origins == s.h.origins + [s.h.popped] && t.h.issued == s.h.issued + [t.counter]
    && t.counter == s.counter + 1 && t.counter in t.peers && t.peers[t.counter].socket.Some?
    && !t.peers[t.counter].toBeDeleted && t.peers[t.counter].valid
    && t.outbox == s.outbox && t.h.accepted == s.h.accepted && t.h.handled == s.h.handled && t.h.wire == s.h.wire
  }

  /** And one that loses. */
  ghost predicate LostBy(s: State, t: State) {
    && s.conn.Cycle? && t.conn == Cycle(s.conn.i + 1, s.conn.q)
    && t.requests == s.requests && t.h.arrived == s.h.arrived && t.h.popped == s.h.popped
    && t.h.origins == s.h.origins
  }

  lemma BeginsCycle(s: State) returns (run: seq<Action>, t: State)
    requires s.conn.Cycle? && s.conn.i < s.conn.q && s.requests != []
    ensures Reaches(s, run, t)
    ensures t.conn.Trying? && t.conn.i == s.conn.i && t.conn.q == s.conn.q
    ensures t == s.(conn := t.conn, h := s.h.(made := t.h.made, cycles := t.h.cycles))
  {
    var h := FreshHandle(s.h.made);
    var s1 := DoConnectCreate(s, h);
    t := DoConnectFront(s1);
    OneStepMore(s1, ConnectFront, [], t);
    OneStepMore(s, ConnectCreate(h), [ConnectFront] + [], t);
    run := [ConnectCreate(h)] + ([ConnectFront] + []);
  }

  lemma WinsCycle(s: State) returns (run: seq<Action>, t: State)
    requires s.conn.Cycle? && s.conn.i < s.conn.q && s.requests != []
    ensures Reaches(s, run, t) && WonBy(s, t)
  {
    var first, u := BeginsCycle(s);
    var rest := Wins(u);
    t := Welcomed(u);
    RunsJoin(s, first, u, rest, t);
    run := first + rest;
  }

  ghost function Welcomed(u: State): State
    requires u.conn.Trying?
  {
    DoConnectAnnounce(DoConnectWon(DoConnectAttempt(u, true, 0, false), "", 0, ""), false)
  }

  lemma Wins(u: State) returns (run: seq<Action>)
    requires u.conn.Trying?
    ensures Reaches(u, run, Welcomed(u))
  {
    var t := Welcomed(u);
    var u1 := DoConnectAttempt(u, true, 0, false);
    var u2 := DoConnectWon(u1, "", 0, "");
    OneStepMore(u2, ConnectAnnounce(false), [], t);
    OneStepMore(u1, ConnectWon("", 0, ""), [ConnectAnnounce(false)] + [], t);
    OneStepMore(u, ConnectAttempt(true, 0, false), [ConnectWon("", 0, "")] + ([ConnectAnnounce(false)] + []), t);
    run := [ConnectAttempt(true, 0, false)] + ([ConnectWon("", 0, "")] + ([ConnectAnnounce(false)] + []));
  }

  lemma LosesCycle(s: State) returns (run: seq<Action>, t: State)
    requires s.conn.Cycle? && s.conn.i < s.conn.q && s.requests != []
    ensures Reaches(s, run, t) && LostBy(s, t)
  {
    var first, u := BeginsCycle(s);
    var u1 := DoConnectAttempt(u, false, 1, false);
    var probe := ErrnoProbe(0, "");
    t := DoConnectLost(u1, probe, false);
    OneStepMore(u1, ConnectLost(probe, false), [], t);
    OneStepMore(u, ConnectAttempt(false, 1, false), [ConnectLost(probe, false)] + [], t);
    var rest := [ConnectAttempt(false, 1, false)] + ([ConnectLost(probe, false)] + []);
    RunsJoin(s, first, u, rest, t);
    run := first + rest;
  }

  // ---- a peer to talk to --------------------------------------------------

  const HOST := Address("::1", 4242)

  /** From a new node: two requests to the same address, and the batch begun. */
  lemma BatchOfTwo(s: State) returns (run: seq<Action>, t: State)
    requires Init(s)
    ensures Reaches(s, run, t)
    ensures t == s.(requests := [HOST, HOST], conn := Cycle(0, 2), h := t.h)
    ensures t.h == s.h.(arrived := [HOST, HOST], lengths := [2])
  {
    var s1 := DoConnectTo(s, HOST);
    var s2 := DoConnectTo(s1, HOST);
    t := DoConnectRead(s2);
    OneStepMore(s2, ConnectRead, [], t);
    OneStepMore(s1, ConnectTo(HOST), [ConnectRead] + [], t);
    OneStepMore(s, ConnectTo(HOST), [ConnectTo(HOST)] + ([ConnectRead] + []), t);
    run := [ConnectTo(HOST)] + ([ConnectTo(HOST)] + ([ConnectRead] + []));
  }
}
