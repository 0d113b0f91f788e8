/** What the order of a peer's life means for the log of events, and which peer
    `latestPeer` finds. */
module PeerStories {
  import opened Common
  import opened NodeState
  import opened ReceiveSweep
  import opened PeerLife

  function Rank(ph: Phase): nat {
    match ph
    case Absent => 0
    case Open => 1
    case Doomed(_) => 2
    case Over => 3
    case Broken => 4
  }

  lemma {:induction false} BrokenStays(es: seq<Event>)
    ensures Feed(Broken, es) == Broken
    decreases |es|
  {
    if es != [] {
      assert Advance(Broken, es[0]) == Broken;
      BrokenStays(es[1..]);
    }
  }

  lemma PrefixIsFine(log: seq<Event>, k: nat, id: nat)
    requires k <= |log| && PhaseOf(log, id) != Broken
    ensures PhaseOf(log[..k], id) != Broken
  {
    assert log == log[..k] + log[k..];
    OfAppend(log[..k], log[k..], id);
    FeedAppend(Absent, Of(log[..k], id), Of(log[k..], id));
    BrokenStays(Of(log[k..], id));
  }

  lemma OneMore(log: seq<Event>, k: nat, id: nat)
    requires k < |log|
    ensures PhaseOf(log[..k + 1], id) ==
            if About(log[k]) == Some(id) then Advance(PhaseOf(log[..k], id), log[k]) else PhaseOf(log[..k], id)
  {
    assert log[..k + 1] == log[..k] + [log[k]];
    OfAppend(log[..k], [log[k]], id);
    FeedAppend(Absent, Of(log[..k], id), Of([log[k]], id));
    OneEvent(log[k], id, PhaseOf(log[..k], id));
  }

  /** Along a log nothing goes wrong in, a peer's life only moves forward. */
  lemma {:induction false} LifeMovesOn(log: seq<Event>, i: nat, j: nat, id: nat)
    requires i <= j <= |log| && PhaseOf(log, id) != Broken
    ensures Rank(PhaseOf(log[..i], id)) <= Rank(PhaseOf(log[..j], id)) <= 3
    decreases j - i
  {
    PrefixIsFine(log, j, id);
    if i < j {
      LifeMovesOn(log, i, j - 1, id);
      OneMore(log, j - 1, id);
    }
  }

  /** Nothing is told of an accepted peer before its Accepted event. */
  lemma AcceptedComesFirst(log: seq<Event>, i: nat, j: nat, id: nat)
    requires PhaseOf(log, id) != Broken && i < j < |log|
    requires log[j].Accepted? && log[j].id == id
    ensures About(log[i]) != Some(id)
  {
    LifeMovesOn(log, i + 1, j, id);
    LifeMovesOn(log, j + 1, |log|, id);
    LifeMovesOn(log, i + 1, |log|, id);
    LifeMovesOn(log, i, i + 1, id);
    OneMore(log, i, id);
    OneMore(log, j, id);
  }

  /** Once a peer is marked, no Received and no Sent of it follows. */
  lemma NoDataAfterMark(log: seq<Event>, i: nat, j: nat, id: nat)
    requires PhaseOf(log, id) != Broken && i < j < |log|
    requires log[i].Marked? && log[i].id == id
    ensures !(log[j].Received? && log[j].id == id) && !(log[j].Sent? && log[j].id == id)
  {
    LifeMovesOn(log, i + 1, j, id);
    LifeMovesOn(log, j + 1, |log|, id);
    OneMore(log, i, id);
    OneMore(log, j, id);
  }

  /** A peer ends at most once, and nothing is told of it afterwards. */
  lemma TheEndIsTheEnd(log: seq<Event>, i: nat, j: nat, id: nat)
    requires PhaseOf(log, id) != Broken && i < j < |log|
    requires log[i].Ended? && log[i].id == id
    ensures About(log[j]) != Some(id)
  {
    LifeMovesOn(log, i + 1, j, id);
    LifeMovesOn(log, j + 1, |log|, id);
    OneMore(log, i, id);
    OneMore(log, j, id);
  }

  ghost predicate LastMarkAt(log: seq<Event>, k: nat, i: nat, id: nat, why: DisconnectType)
    requires k <= |log|
  {
    && i < k && log[i] == Marked(id, why)
    && forall m :: i < m < k ==> !(log[m].Marked? && log[m].id == id)
  }

  lemma {:induction false} DoomedByLastMark(log: seq<Event>, k: nat, id: nat) returns (i: nat)
    requires k <= |log| && PhaseOf(log, id) != Broken && PhaseOf(log[..k], id).Doomed?
    ensures LastMarkAt(log, k, i, id, PhaseOf(log[..k], id).why)
    decreases k
  {
    assert log[..k] != [];
    OneMore(log, k - 1, id);
    LifeMovesOn(log, k - 1, k, id);
    if log[k - 1].Marked? && log[k - 1].id == id {
      i := k - 1;
    } else {
      i := DoomedByLastMark(log, k - 1, id);
    }
  }

  /** A peer's end carries the kind of the last scheduleDelete. */
  lemma EndHasLastMarkKind(log: seq<Event>, j: nat, id: nat)
    requires PhaseOf(log, id) != Broken && j < |log|
    requires log[j].Ended? && log[j].id == id
    ensures exists i :: LastMarkAt(log, j, i, id, log[j].why)
  {
    LifeMovesOn(log, j + 1, |log|, id);
    OneMore(log, j, id);
    var i := DoomedByLastMark(log, j, id);
  }

  // ---- latestPeer ---------------------------------------------------------

  /** The most recently inserted id that is still in the map. */
  function LastSurvivor(issued: seq<nat>, alive: set<nat>): Option<nat> {
    if issued == [] then None
    else if issued[|issued| - 1] in alive then Some(issued[|issued| - 1])
    else LastSurvivor(issued[..|issued| - 1], alive)
  }

  lemma {:induction false} LastSurvivorIsGreatest(issued: seq<nat>, alive: set<nat>)
    requires forall i, j :: 0 <= i < j < |issued| ==> issued[i] < issued[j]
    requires exists id :: id in issued && id in alive
    ensures LastSurvivor(issued, alive).Some?
    ensures var m := LastSurvivor(issued, alive).value;
      m in alive && m in issued && forall id :: id in issued && id in alive ==> id <= m
  {
    var n := |issued| - 1;
    if issued[n] !in alive {
      assert issued == issued[..n] + [issued[n]];
      LastSurvivorIsGreatest(issued[..n], alive);
    }
  }

  /** The greatest key of a non-empty map is the most recently inserted peer
      that is still there. */
  lemma LatestIsLastInserted(s: State, max: nat)
    requires IdsFit(s) && max in s.peers && forall id :: id in s.peers ==> id <= max
    ensures LastSurvivor(s.h.issued, s.peers.Keys) == Some(max)
  {
    LastSurvivorIsGreatest(s.h.issued, s.peers.Keys);
  }

  /** Looking a peer up and finding it valid is finding it in the map. */
  lemma ExistsIsMembership(s: State, id: nat)
    requires IdsFit(s)
    ensures PeerExists(s, id) <==> id in s.peers
  {
  }
}
