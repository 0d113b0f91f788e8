/** The retry loop of one connect cycle. */
module ConnectRetry {
  import opened NodeState

  /** What one attempt comes to: the answer of `connect`, the error number read
      after it, and how long the sleep took, in milliseconds. */
  datatype Attempt = Attempt(success: bool, errno: int, slept: real)

  function Elapsed(answer: nat -> Attempt, n: nat): real {
    if n == 0 then 0.0 else Elapsed(answer, n - 1) + answer(n - 1).slept
  }

  /** After n attempts the elapsed time, in whole milliseconds, reaches the limit. */
  predicate TimeUp(answer: nat -> Attempt, n: nat, timeout: int) {
    Elapsed(answer, n).Floor >= timeout
  }

  /** max(1, ceil(timeout / sleep)) */
  function MostAttempts(timeout: int, sleep: int): (n: int)
    requires sleep > 0
    ensures n >= 1 && n * sleep >= timeout
    ensures n == 1 || (n - 1) * sleep < timeout
  {
    if timeout <= sleep then 1 else (timeout + sleep - 1) / sleep
  }

  lemma {:induction false} SleepsAddUp(answer: nat -> Attempt, n: nat, sleep: int)
    requires forall k: nat :: answer(k).slept >= sleep as real
    ensures Elapsed(answer, n) >= (n * sleep) as real
  {
    if n > 0 {
      SleepsAddUp(answer, n - 1, sleep);
      assert (n * sleep) as real == ((n - 1) * sleep) as real + sleep as real;
    }
  }

  /** Attempt k failed without an error number and in time, so the loop goes on. */
  predicate InVain(answer: nat -> Attempt, k: nat, timeout: int) {
    !answer(k).success && answer(k).errno == 0 && !TimeUp(answer, k + 1, timeout)
  }

  /** The do-while loop over attempts.  With constant positive sleeps it stops
      within MostAttempts; every attempt but the last failed without an error
      number and in time; and what counts in the end is the last attempt alone,
      whether or not time was up as well. */
  method TryConnect(timeout: int, sleep: int, answer: nat -> Attempt)
    returns (connectSuccess: bool, errornum: int, timeup: bool, attempts: nat)
    requires sleep > 0
    requires forall k: nat :: answer(k).slept >= sleep as real
    ensures 1 <= attempts <= MostAttempts(timeout, sleep)
    ensures forall k: nat :: k < attempts - 1 ==> InVain(answer, k, timeout)
    ensures connectSuccess == answer(attempts - 1).success && errornum == answer(attempts - 1).errno
    ensures timeup == TimeUp(answer, attempts, timeout)
    ensures !connectSuccess ==> errornum != 0 || timeup
  {
    attempts := 0;
    connectSuccess, errornum, timeup := false, 0, false;
    var elapsed := 0.0;
    var again := true;
    while again
      invariant again ==> attempts < MostAttempts(timeout, sleep)
      invariant attempts <= MostAttempts(timeout, sleep)
      invariant elapsed == Elapsed(answer, attempts)
      invariant attempts == 0 ==> again
      invariant attempts > 0 ==>
        && connectSuccess == answer(attempts - 1).success && errornum == answer(attempts - 1).errno
        && timeup == TimeUp(answer, attempts, timeout)
        && again == (!connectSuccess && errornum == 0 && !timeup)
      invariant forall k: nat :: k < attempts - 1 || (k < attempts && again) ==> InVain(answer, k, timeout)
      decreases MostAttempts(timeout, sleep) - attempts, again
    {
      connectSuccess := answer(attempts).success;
      errornum := answer(attempts).errno;
      elapsed := elapsed + answer(attempts).slept;
      attempts := attempts + 1;
      timeup := elapsed.Floor >= timeout;
      again := !connectSuccess && errornum == 0 && !timeup;
      InTimeMeansFew(answer, attempts, timeout, sleep);
    }
  }

  lemma InTimeMeansFew(answer: nat -> Attempt, n: nat, timeout: int, sleep: int)
    requires sleep > 0 && forall k: nat :: answer(k).slept >= sleep as real
    ensures !TimeUp(answer, n, timeout) ==> n < MostAttempts(timeout, sleep) || n == 0
  {
    SleepsAddUp(answer, n, sleep);
    var most := MostAttempts(timeout, sleep);
    if n >= most {
      assert n * sleep >= most * sleep >= timeout;
    }
  }

  /** The loop as steps of the node's state machine, from attempt i to attempt n. */
  function AttemptSteps(answer: nat -> Attempt, i: nat, n: nat, timeout: int): seq<Action>
    requires i <= n
    decreases n - i
  {
    if i == n then []
    else [ConnectAttempt(answer(i).success, answer(i).errno, TimeUp(answer, i + 1, timeout))]
         + AttemptSteps(answer, i + 1, n, timeout)
  }

  /** What TryConnect found out decides the cycle: the connection is won, and a
      peer inserted next, exactly when the last attempt succeeded. */
  lemma {:induction false} LoopEndsCycle(s: State, answer: nat -> Attempt, i: nat, n: nat, timeout: int)
    requires s.conn.Trying? && i < n
    requires forall k: nat :: i <= k < n - 1 ==> InVain(answer, k, timeout)
    requires !answer(n - 1).success ==> answer(n - 1).errno != 0 || TimeUp(answer, n, timeout)
    ensures ValidRun(s, AttemptSteps(answer, i, n, timeout))
    ensures var c := s.conn;
      After(s, AttemptSteps(answer, i, n, timeout))
      == s.(conn := if answer(n - 1).success then Won(c.i, c.q, c.sock, c.to) else Lost(c.i, c.q, c.sock, c.to))
    decreases n - i
  {
    var run := AttemptSteps(answer, i, n, timeout);
    var t := Apply(s, run[0]);
    assert run[1..] == AttemptSteps(answer, i + 1, n, timeout);
    if i < n - 1 {
      assert InVain(answer, i, timeout);
      assert t == s;
      LoopEndsCycle(s, answer, i + 1, n, timeout);
    } else {
      assert run[1..] == [];
    }
  }
}
