/** The default socket: flags, descriptor and error number as a state machine.
    System calls are answers handed in. */
module SocketState {
  import opened Common

  datatype Sock = Sock(
    fd: int,
    isListener: bool,
    isConnected: bool,
    isListening: bool,
    listenPort: nat,
    bufferSize: nat,
    lastErrno: int)

  const IDLE := Sock(-1, false, false, false, 0, 1024, 0)

  /** One address of the list that `listen` walks: what socket() returned,
      whether setsockopt, bind and listen all succeeded, and fcntl. */
  datatype AddressTry = AddressTry(fd: int, ready: bool, nonBlocking: bool)

  datatype ListenAnswer = ListenAnswer(resolved: bool, tries: seq<AddressTry>, errno: int)

  datatype Handshake = Done | InProgress(settled: bool) | Refused

  datatype ConnectAnswer = ConnectAnswer(resolved: bool, fd: int, nonBlocking: bool, shake: Handshake, errno: int)

  datatype AcceptAnswer = AcceptAnswer(fd: int, errno: int)

  /** What recv() comes back with. */
  datatype RecvAnswer = Again | Failure(errno: int) | EndOfStream | Data(bytes: Bytes)

  datatype SendAnswer = SendAnswer(taken: int, errno: int)

  datatype Call =
    | Listen(port: nat, listened: ListenAnswer)
    | Connect(connected: ConnectAnswer)
    | Close
    | Accept(accepted: AcceptAnswer)
    | Receive(received: RecvAnswer)
    | Send(data: Bytes, sent: SendAnswer)
    | GetLastErrno
    | GetLastErrnoString
    | SetReceiveBufferSize(size: nat)

  function Closed(s: Sock): Sock {
    s.(fd := -1, isListener := false, isConnected := false, isListening := false)
  }

  /** How a walk over addresses ends: the descriptor held, whether one address
      worked, and the descriptors opened and closed on the way. */
  datatype Walk = Walk(fd: int, ok: bool, got: seq<int>, closed: seq<int>)

  /** The walk that has `fd` in hand.  An address that binds but cannot be made
      non-blocking leaves its descriptor there, for the next one to overwrite. */
  function WalkAddresses(fd: int, tries: seq<AddressTry>): Walk
    decreases |tries|
  {
    if tries == [] then Walk(fd, false, [], []) else
    var t := tries[0];
    if t.fd == -1 then WalkAddresses(-1, tries[1..])
    else if !t.ready then Before([t.fd], [t.fd], WalkAddresses(-1, tries[1..]))
    else if t.nonBlocking then Walk(t.fd, true, [t.fd], [])
    else Before([t.fd], [], WalkAddresses(t.fd, tries[1..]))
  }

  function Before(got: seq<int>, closed: seq<int>, w: Walk): Walk {
    w.(got := got + w.got, closed := closed + w.closed)
  }

  function ListenOutcome(a: ListenAnswer): Walk {
    if a.resolved then WalkAddresses(-1, a.tries) else Walk(-1, false, [], [])
  }

  function DoListen(s: Sock, port: nat, a: ListenAnswer): (Sock, bool) {
    if port == 0 then (Closed(s), false) else
    var w := ListenOutcome(a);
    if w.ok then
      (Closed(s).(fd := w.fd, isListener := true, isListening := true, listenPort := port, lastErrno := 0), true)
    else
      (Closed(s).(fd := w.fd, lastErrno := a.errno), false)
  }

  /** setNonBlocking answers no without a descriptor. */
  predicate ConnectSucceeds(a: ConnectAnswer) {
    a.resolved && a.fd != -1 && a.nonBlocking && (a.shake.Done? || (a.shake.InProgress? && a.shake.settled))
  }

  function DoConnect(s: Sock, a: ConnectAnswer): (Sock, bool) {
    if ConnectSucceeds(a) then (Closed(s).(fd := a.fd, isConnected := true, lastErrno := 0), true)
    else (Closed(s).(lastErrno := a.errno), false)
  }

  /** The listener's new state and the socket of the connection, if any.  The
      error number of a failed accept is read again before accept returns. */
  function DoAccept(s: Sock, a: AcceptAnswer): (Sock, Option<Sock>) {
    if !s.isListener then (s, None)
    else if a.fd != -1 then (s, Some(IDLE.(fd := a.fd, isConnected := true)))
    else (s.(lastErrno := 0), None)
  }

  function ReceiveOutcome(s: Sock, r: RecvAnswer): (ReceiveResult, Bytes) {
    if s.isListener then (IsListener, [])
    else if !s.isConnected then (NoConnection, [])
    else match r
      case Again => (NothingReceived, [])
      case Failure(_) => (SystemError, [])
      case EndOfStream => (PeerDisconnected, [])
      case Data(bytes) => (OK, bytes)
  }

  function DoReceive(s: Sock, r: RecvAnswer): Sock {
    if !s.isListener && s.isConnected && r.Failure? then Closed(s).(lastErrno := r.errno)
    else s.(lastErrno := 0)
  }

  function SendOutcome(s: Sock, a: SendAnswer): nat {
    if s.isConnected && !s.isListener && a.taken >= 0 then a.taken else 0
  }

  function DoSend(s: Sock, a: SendAnswer): Sock {
    if s.isConnected && !s.isListener then s.(lastErrno := if a.taken >= 0 then 0 else a.errno) else s
  }

  function Apply(s: Sock, c: Call): Sock {
    match c
    case Listen(port, a) => DoListen(s, port, a).0
    case Connect(a) => DoConnect(s, a).0
    case Close => Closed(s)
    case Accept(a) => DoAccept(s, a).0
    case Receive(r) => DoReceive(s, r)
    case Send(_, a) => DoSend(s, a)
    case GetLastErrno => s.(lastErrno := 0)
    case GetLastErrnoString => s.(lastErrno := 0)
    case SetReceiveBufferSize(n) => s.(bufferSize := n)
  }

  function After(s: Sock, calls: seq<Call>): Sock
    decreases |calls|
  {
    if calls == [] then s else After(Apply(s, calls[0]), calls[1..])
  }

  // ---- the flags ----------------------------------------------------------

  predicate Fits(s: Sock) {
    && (s.isListener <==> s.isListening)
    && !(s.isListener && s.isConnected)
    && (s.isListener || s.isConnected ==> s.fd != -1)
  }

  lemma {:induction false} WalkSucceedsWithDescriptor(fd: int, tries: seq<AddressTry>)
    ensures WalkAddresses(fd, tries).ok ==> WalkAddresses(fd, tries).fd != -1
    ensures WalkAddresses(fd, tries).ok <==> exists i :: 0 <= i < |tries| && tries[i].fd != -1 && tries[i].ready && tries[i].nonBlocking
    decreases |tries|
  {
    if tries == [] {
    } else {
      var t := tries[0];
      WalkSucceedsWithDescriptor(if t.fd != -1 && t.ready then t.fd else -1, tries[1..]);
      if exists i :: 0 <= i < |tries| && tries[i].fd != -1 && tries[i].ready && tries[i].nonBlocking {
        var i :| 0 <= i < |tries| && tries[i].fd != -1 && tries[i].ready && tries[i].nonBlocking;
        if i > 0 {
          assert tries[1..][i - 1] == tries[i];
        }
      }
    }
  }

  /** Over every sequence of calls and all answers of the system. */
  lemma {:induction false} FlagsFit(s: Sock, calls: seq<Call>)
    requires Fits(s)
    ensures Fits(After(s, calls))
    decreases |calls|
  {
    if calls != [] {
      if calls[0].Listen? && calls[0].listened.resolved {
        WalkSucceedsWithDescriptor(-1, calls[0].listened.tries);
      }
      FlagsFit(Apply(s, calls[0]), calls[1..]);
    }
  }

  /** close() brings a socket to rest from anywhere; only the last port, the
      buffer size and an unread error number stay. */
  lemma CloseRests(s: Sock, calls: seq<Call>)
    ensures After(s, calls + [Close]) ==
            IDLE.(listenPort := After(s, calls).listenPort, bufferSize := After(s, calls).bufferSize, lastErrno := After(s, calls).lastErrno)
  {
    AfterAppend(s, calls, [Close]);
    assert After(After(s, calls), [Close]) == After(Closed(After(s, calls)), [Close][1..]);
  }

  lemma {:induction false} AfterAppend(s: Sock, xs: seq<Call>, ys: seq<Call>)
    ensures After(s, xs + ys) == After(After(s, xs), ys)
    decreases |xs|
  {
    if xs == [] {
      assert xs + ys == ys;
    } else {
      assert (xs + ys)[1..] == xs[1..] + ys;
      AfterAppend(Apply(s, xs[0]), xs[1..], ys);
    }
  }

  /** A socket that came from accept and is never told to listen is never a
      listener, so receive never says so. */
  lemma {:induction false} NeverListens(s: Sock, calls: seq<Call>, r: RecvAnswer)
    requires !s.isListener && forall c :: c in calls ==> !c.Listen?
    ensures !After(s, calls).isListener
    ensures ReceiveOutcome(After(s, calls), r).0 != IsListener
    decreases |calls|
  {
    if calls != [] {
      assert calls[0] in calls;
      NeverListens(Apply(s, calls[0]), calls[1..], r);
    }
  }

  lemma AcceptedIsConnected(s: Sock, a: AcceptAnswer)
    requires Fits(s)
    ensures DoAccept(s, a).1.Some? ==>
      var p := DoAccept(s, a).1.value; p.isConnected && !p.isListener && !p.isListening && Fits(p)
    ensures DoAccept(s, a).1.Some? <==> s.isListener && a.fd != -1
  {
  }

  // ---- what the calls do --------------------------------------------------

  /** Sockets that carry data. */
  predicate Open(s: Sock) {
    s.isConnected && !s.isListener && !s.isListening && s.fd != -1
  }

  /** A connect that answers true leaves an open socket over the descriptor the
      system gave, and no other does; one that answers false leaves it at rest with
      the system's number. */
  lemma ConnectOpens(s: Sock, a: ConnectAnswer)
    ensures var (t, ok) := DoConnect(s, a);
      && (ok <==> a.resolved && a.fd != -1 && a.nonBlocking && (a.shake == Done || a.shake == InProgress(true)))
      && (ok ==> Open(t) && t.fd == a.fd && t.lastErrno == 0)
      && (!ok ==> t.fd == -1 && !t.isConnected && !t.isListener && !t.isListening && t.lastErrno == a.errno)
      && t.bufferSize == s.bufferSize
  {
  }

  /** accept opens the new socket over the descriptor the system gave, with a buffer
      of its own, and leaves the listener as it is. */
  lemma AcceptOpens(s: Sock, a: AcceptAnswer)
    requires s.isListener && a.fd != -1
    ensures var (l, p) := DoAccept(s, a);
      l == s && p.Some? && Open(p.value) && p.value.fd == a.fd && p.value.bufferSize == 1024 && p.value.lastErrno == 0
  {
  }

  /** listen that answers true listens at the port over the descriptor of the first
      address that works. */
  lemma {:induction false} FirstThatWorks(fd: int, tries: seq<AddressTry>, k: nat)
    requires k < |tries| && Works(tries[k]) && forall i :: 0 <= i < k ==> !Works(tries[i])
    ensures WalkAddresses(fd, tries).ok && WalkAddresses(fd, tries).fd == tries[k].fd
    decreases k
  {
    if k > 0 {
      assert !Works(tries[0]);
      forall i | 0 <= i < k - 1 ensures !Works(tries[1..][i]) {
        assert tries[1..][i] == tries[i + 1];
      }
      FirstThatWorks(if Blocks(tries[0]) then tries[0].fd else -1, tries[1..], k - 1);
    }
  }

  lemma ListenOpens(s: Sock, port: nat, a: ListenAnswer, k: nat)
    requires port != 0 && a.resolved && k < |a.tries| && Works(a.tries[k])
    requires forall i :: 0 <= i < k ==> !Works(a.tries[i])
    ensures var (t, ok) := DoListen(s, port, a);
      && ok && t.isListener && t.isListening && !t.isConnected && t.fd == a.tries[k].fd
      && t.listenPort == port && t.lastErrno == 0 && t.bufferSize == s.bufferSize
  {
    FirstThatWorks(-1, a.tries, k);
  }

  lemma ListenFails(s: Sock, port: nat, a: ListenAnswer)
    requires port == 0 || !a.resolved || forall t :: t in a.tries ==> !Works(t)
    ensures var (t, ok) := DoListen(s, port, a);
      && !ok && !t.isListener && !t.isListening && !t.isConnected && t.bufferSize == s.bufferSize
      && t.lastErrno == (if port == 0 then s.lastErrno else a.errno)
  {
    if port != 0 && a.resolved {
      WalkSucceedsWithDescriptor(-1, a.tries);
      forall i | 0 <= i < |a.tries| ensures !Works(a.tries[i]) { assert a.tries[i] in a.tries; }
    }
  }

  /** What an open socket's receive makes of the kernel's answer. */
  lemma OpenReceives(s: Sock, r: RecvAnswer)
    requires Open(s)
    ensures var (res, data) := ReceiveOutcome(s, r); var t := DoReceive(s, r);
      && (r.Data? ==> res == OK && data == r.bytes && t == s.(lastErrno := 0))
      && (r.Again? ==> res == NothingReceived && data == [] && t == s.(lastErrno := 0))
      && (r.EndOfStream? ==> res == PeerDisconnected && data == [] && t == s.(lastErrno := 0))
      && (r.Failure? ==> res == SystemError && data == [] && t.lastErrno == r.errno
                         && t.fd == -1 && !t.isConnected && !t.isListener && !t.isListening)
  {
  }

  /** And what its send makes of it: the amount the kernel took, or nothing. */
  lemma OpenSends(s: Sock, a: SendAnswer)
    requires Open(s)
    ensures SendOutcome(s, a) == (if a.taken >= 0 then a.taken else 0)
    ensures DoSend(s, a) == s.(lastErrno := if a.taken >= 0 then 0 else a.errno)
  {
  }

  /** Without a connection nothing is received or sent. */
  lemma ClosedDoesNothing(s: Sock, r: RecvAnswer, a: SendAnswer)
    requires !s.isConnected
    ensures ReceiveOutcome(s, r) == (if s.isListener then IsListener else NoConnection, [])
    ensures DoReceive(s, r) == s.(lastErrno := 0) && SendOutcome(s, a) == 0 && DoSend(s, a) == s
  {
  }

  // ---- descriptors --------------------------------------------------------

  function Held(fd: int): seq<int> {
    if fd == -1 then [] else [fd]
  }

  /** The descriptors a call has the system open for this socket. */
  function Opens(s: Sock, c: Call): seq<int> {
    match c
    case Listen(port, a) => if port == 0 then [] else ListenOutcome(a).got
    case Connect(a) => if a.resolved then Held(a.fd) else []
    case _ => []
  }

  /** The descriptors a call has the system close. */
  function Closes(s: Sock, c: Call): seq<int> {
    match c
    case Listen(port, a) => Held(s.fd) + if port == 0 then [] else ListenOutcome(a).closed
    case Connect(a) => Held(s.fd) + if a.resolved && !ConnectSucceeds(a) then Held(a.fd) else []
    case Close => Held(s.fd)
    case Receive(r) => if !s.isListener && s.isConnected && r.Failure? then Held(s.fd) else []
    case _ => []
  }

  function AllOpened(s: Sock, calls: seq<Call>): seq<int>
    decreases |calls|
  {
    if calls == [] then [] else Opens(s, calls[0]) + AllOpened(Apply(s, calls[0]), calls[1..])
  }

  function AllClosed(s: Sock, calls: seq<Call>): seq<int>
    decreases |calls|
  {
    if calls == [] then [] else Closes(s, calls[0]) + AllClosed(Apply(s, calls[0]), calls[1..])
  }

  predicate Works(t: AddressTry) { t.fd != -1 && t.ready && t.nonBlocking }
  predicate Blocks(t: AddressTry) { t.fd != -1 && t.ready && !t.nonBlocking }

  /** The walk comes to an address that opens but blocks, and goes on. */
  predicate GoesOnBlocked(tries: seq<AddressTry>) {
    exists i :: 0 <= i < |tries| - 1 && Blocks(tries[i]) && forall j :: 0 <= j < i ==> !Works(tries[j])
  }

  lemma BlockedAhead(tries: seq<AddressTry>)
    requires tries != [] && !Works(tries[0])
    ensures GoesOnBlocked(tries) <==> (Blocks(tries[0]) && |tries| > 1) || GoesOnBlocked(tries[1..])
  {
    var rest := tries[1..];
    if GoesOnBlocked(rest) {
      var i :| 0 <= i < |rest| - 1 && Blocks(rest[i]) && forall j :: 0 <= j < i ==> !Works(rest[j]);
      assert Blocks(tries[i + 1]);
      forall j | 0 <= j < i + 1 ensures !Works(tries[j]) {
        if j > 0 { assert tries[j] == rest[j - 1]; }
      }
    }
    if GoesOnBlocked(tries) && !Blocks(tries[0]) {
      var i :| 0 <= i < |tries| - 1 && Blocks(tries[i]) && forall j :: 0 <= j < i ==> !Works(tries[j]);
      assert Blocks(rest[i - 1]);
      forall j | 0 <= j < i - 1 ensures !Works(rest[j]) {
        assert rest[j] == tries[j + 1];
      }
    }
  }

  /** Two stretches one after the other: opened, held before, closed, held after. */
  lemma Glue(o1: multiset<int>, h0: multiset<int>, c1: multiset<int>, h1: multiset<int>,
             o2: multiset<int>, c2: multiset<int>, h2: multiset<int>)
    requires c1 + h1 <= o1 + h0 && c2 + h2 <= o2 + h1
    ensures (c1 + c2) + h2 <= (o1 + o2) + h0
    ensures (c1 + c2) + h2 == (o1 + o2) + h0 <==> c1 + h1 == o1 + h0 && c2 + h2 == o2 + h1
  {
    var after, before := (c1 + c2) + h2, (o1 + o2) + h0;
    forall x: int ensures after[x] <= before[x] {
      assert (c1 + h1)[x] <= (o1 + h0)[x] && (c2 + h2)[x] <= (o2 + h1)[x];
    }
    if after == before {
      forall x: int ensures (c1 + h1)[x] == (o1 + h0)[x] && (c2 + h2)[x] == (o2 + h1)[x] {
        assert after[x] == before[x] && (c1 + h1)[x] <= (o1 + h0)[x] && (c2 + h2)[x] <= (o2 + h1)[x];
      }
      assert c1 + h1 == o1 + h0 && c2 + h2 == o2 + h1;
    }
    if c1 + h1 == o1 + h0 && c2 + h2 == o2 + h1 {
      forall x: int ensures after[x] == before[x] {
        assert (c1 + h1)[x] == (o1 + h0)[x] && (c2 + h2)[x] == (o2 + h1)[x];
      }
      assert after == before;
    }
  }

  /** A walk never closes what it did not open, and it loses a descriptor exactly
      if it goes on from one in hand: the one it began with, or one that blocks. */
  lemma {:induction false} WalkLosesIff(fd: int, tries: seq<AddressTry>)
    ensures var w := WalkAddresses(fd, tries);
      && multiset(w.closed) + multiset(Held(w.fd)) <= multiset(w.got) + multiset(Held(fd))
      && (multiset(w.closed) + multiset(Held(w.fd)) == multiset(w.got) + multiset(Held(fd))
          <==> !GoesOnBlocked(tries) && (fd == -1 || tries == []))
    decreases |tries|, 1
  {
    assert fd != -1 ==> multiset(Held(fd))[fd] == 1;
    if tries == [] {
    } else if Works(tries[0]) {
      assert !GoesOnBlocked(tries);
      var w := WalkAddresses(fd, tries);
      assert w == Walk(tries[0].fd, true, Held(tries[0].fd), []);
      assert multiset(w.closed) + multiset(Held(w.fd)) == multiset(w.got);
      assert fd != -1 ==> (multiset(w.got) + multiset(Held(fd)))[fd] == multiset(w.got)[fd] + 1;
    } else {
      GoingOnLosesIff(fd, tries);
    }
  }

  lemma {:induction false} GoingOnLosesIff(fd: int, tries: seq<AddressTry>)
    requires tries != [] && !Works(tries[0])
    ensures var w := WalkAddresses(fd, tries);
      && multiset(w.closed) + multiset(Held(w.fd)) <= multiset(w.got) + multiset(Held(fd))
      && (multiset(w.closed) + multiset(Held(w.fd)) == multiset(w.got) + multiset(Held(fd))
          <==> !GoesOnBlocked(tries) && fd == -1)
    decreases |tries|, 0
  {
    var t, rest := tries[0], tries[1..];
    var next := if Blocks(t) then t.fd else -1;
    var v := WalkAddresses(next, rest);
    var o, c := Held(t.fd), if t.ready then [] else Held(t.fd);
    assert WalkAddresses(fd, tries) == Before(o, c, v);
    assert multiset(c) + multiset(Held(next)) == multiset(o);
    WalkLosesIff(next, rest);
    BlockedAhead(tries);
    Glue(multiset(o), multiset(Held(fd)), multiset(c), multiset(Held(next)),
         multiset(v.got), multiset(v.closed), multiset(Held(v.fd)));
    assert fd != -1 ==> multiset(Held(fd))[fd] == 1;
  }

  /** Does this call lose a descriptor? */
  predicate Loses(c: Call) {
    c.Listen? && c.port != 0 && c.listened.resolved && GoesOnBlocked(c.listened.tries)
  }

  lemma CallLosesIff(s: Sock, c: Call)
    ensures var before, after := multiset(Opens(s, c)) + multiset(Held(s.fd)), multiset(Closes(s, c)) + multiset(Held(Apply(s, c).fd));
      after <= before && (after == before <==> !Loses(c))
  {
    if c.Listen? && c.port != 0 && c.listened.resolved {
      ListenLosesIff(s, c);
    } else if c.Connect? {
      ConnectLosesNothing(s, c.connected);
    } else {
      OthersLoseNothing(s, c);
    }
  }

  lemma ConnectLosesNothing(s: Sock, a: ConnectAnswer)
    ensures multiset(Opens(s, Connect(a))) + multiset(Held(s.fd))
            == multiset(Closes(s, Connect(a))) + multiset(Held(DoConnect(s, a).0.fd))
  {
  }

  lemma ReceiveLosesNothing(s: Sock, r: RecvAnswer)
    ensures multiset(Held(s.fd)) == multiset(Closes(s, Receive(r))) + multiset(Held(DoReceive(s, r).fd))
  {
  }

  lemma NothingIsTried(s: Sock, port: nat, a: ListenAnswer)
    requires port == 0 || !a.resolved
    ensures Opens(s, Listen(port, a)) == [] && Closes(s, Listen(port, a)) == Held(s.fd) && DoListen(s, port, a).0.fd == -1
  {
    assert Held(s.fd) + [] == Held(s.fd);
  }

  lemma OthersLoseNothing(s: Sock, c: Call)
    requires !c.Connect? && !(c.Listen? && c.port != 0 && c.listened.resolved)
    ensures multiset(Opens(s, c)) + multiset(Held(s.fd)) == multiset(Closes(s, c)) + multiset(Held(Apply(s, c).fd))
  {
    if c.Receive? {
      ReceiveLosesNothing(s, c.received);
    } else if c.Listen? {
      NothingIsTried(s, c.port, c.listened);
    } else {
      RestLosesNothing(s, c);
    }
  }

  lemma RestLosesNothing(s: Sock, c: Call)
    requires !c.Connect? && !c.Listen? && !c.Receive?
    ensures Opens(s, c) == [] && Closes(s, c) + Held(Apply(s, c).fd) == Held(s.fd)
    ensures multiset(Closes(s, c)) + multiset(Held(Apply(s, c).fd)) == multiset(Held(s.fd))
  {
    assert multiset(Closes(s, c) + Held(Apply(s, c).fd)) == multiset(Closes(s, c)) + multiset(Held(Apply(s, c).fd));
  }

  lemma ListenLosesIff(s: Sock, c: Call)
    requires c.Listen? && c.port != 0 && c.listened.resolved
    ensures var before, after := multiset(Opens(s, c)) + multiset(Held(s.fd)), multiset(Closes(s, c)) + multiset(Held(Apply(s, c).fd));
      after <= before && (after == before <==> !Loses(c))
  {
    var w := WalkAddresses(-1, c.listened.tries);
    WalkLosesIff(-1, c.listened.tries);
    assert Apply(s, c).fd == w.fd;
    Glue(multiset{}, multiset(Held(s.fd)), multiset(Held(s.fd)), multiset{},
         multiset(w.got), multiset(w.closed), multiset(Held(w.fd)));
  }

  /** The descriptors a sequence of calls begins with or opens. */
  ghost function Had(s: Sock, calls: seq<Call>): multiset<int> {
    multiset(AllOpened(s, calls)) + multiset(Held(s.fd))
  }

  /** Those it closes or ends with. */
  ghost function Has(s: Sock, calls: seq<Call>): multiset<int> {
    multiset(AllClosed(s, calls)) + multiset(Held(After(s, calls).fd))
  }

  /** Over every sequence of calls: descriptors closed and held are among those
      opened and held before, and one is lost exactly if some listen comes to an
      address that opens but cannot be made non-blocking, and to another after
      it before one works. */
  lemma {:induction false} DescriptorsAreLostIff(s: Sock, calls: seq<Call>)
    ensures Has(s, calls) <= Had(s, calls)
    ensures Has(s, calls) == Had(s, calls) <==> forall c :: c in calls ==> !Loses(c)
    decreases |calls|
  {
    if calls == [] {
      assert AllOpened(s, calls) == [] && AllClosed(s, calls) == [];
    } else {
      CallLosesIff(s, calls[0]);
      DescriptorsAreLostIff(Apply(s, calls[0]), calls[1..]);
      CallThenCalls(s, calls);
      NoneLosesAhead(calls);
    }
  }

  lemma NoneLosesAhead(calls: seq<Call>)
    requires calls != []
    ensures (forall c :: c in calls ==> !Loses(c)) <==> !Loses(calls[0]) && forall c :: c in calls[1..] ==> !Loses(c)
  {
    forall c | c in calls ensures c == calls[0] || c in calls[1..] {
      var i :| 0 <= i < |calls| && calls[i] == c;
      if i > 0 { assert calls[1..][i - 1] == c; }
    }
  }

  lemma CallThenCalls(s: Sock, calls: seq<Call>)
    requires calls != []
    requires var c, t := calls[0], Apply(s, calls[0]);
      && multiset(Closes(s, c)) + multiset(Held(t.fd)) <= multiset(Opens(s, c)) + multiset(Held(s.fd))
      && Has(t, calls[1..]) <= Had(t, calls[1..])
    ensures Has(s, calls) <= Had(s, calls)
    ensures var c, t := calls[0], Apply(s, calls[0]);
      Has(s, calls) == Had(s, calls) <==>
        && multiset(Closes(s, c)) + multiset(Held(t.fd)) == multiset(Opens(s, c)) + multiset(Held(s.fd))
        && Has(t, calls[1..]) == Had(t, calls[1..])
  {
    var c, t, rest := calls[0], Apply(s, calls[0]), calls[1..];
    Glue(multiset(Opens(s, c)), multiset(Held(s.fd)), multiset(Closes(s, c)), multiset(Held(t.fd)),
         multiset(AllOpened(t, rest)), multiset(AllClosed(t, rest)), multiset(Held(After(t, rest).fd)));
  }

  /** Two addresses are enough: the first opens and blocks, the second works.
      Even after close the first descriptor stays open. */
  lemma TwoAddressesLoseOne(port: nat, errno: int)
    requires port != 0
    ensures var tries := [AddressTry(3, true, false), AddressTry(4, true, true)];
      var calls := [Listen(port, ListenAnswer(true, tries, errno)), Close];
      && DoListen(IDLE, port, ListenAnswer(true, tries, errno)).1
      && AllOpened(IDLE, calls) == [3, 4] && AllClosed(IDLE, calls) == [4] && After(IDLE, calls).fd == -1
  {
    var tries := [AddressTry(3, true, false), AddressTry(4, true, true)];
    var listen := Listen(port, ListenAnswer(true, tries, errno));
    assert tries[1..] == [AddressTry(4, true, true)];
    assert WalkAddresses(3, tries[1..]) == Walk(4, true, [4], []);
    assert WalkAddresses(-1, tries) == Walk(4, true, [3, 4], []);
    assert [listen, Close][1..] == [Close] && [Close][1..] == [];
    var t := Apply(IDLE, listen);
    assert AllOpened(t, [Close]) == [] && AllClosed(t, [Close]) == [4];
    assert After(t, [Close]) == Closed(t);
  }

  // ---- error numbers ------------------------------------------------------

  datatype ErrnoEvent = Stored(number: int) | Wiped | ReadOut(number: int)

  /** What one call does to the error number.  A failed accept reads it back at
      once; that it then wipes a would-block number again changes nothing. */
  function ErrnoEvents(s: Sock, c: Call): seq<ErrnoEvent> {
    match c
    case Listen(port, a) =>
      if port == 0 then [] else if ListenOutcome(a).ok then [Wiped] else [Stored(a.errno)]
    case Connect(a) => if ConnectSucceeds(a) then [Wiped] else [Stored(a.errno)]
    case Close => []
    case Accept(a) => if s.isListener && a.fd == -1 then [Stored(a.errno), ReadOut(a.errno)] else []
    case Receive(r) => if !s.isListener && s.isConnected && r.Failure? then [Stored(r.errno)] else [Wiped]
    case Send(_, a) =>
      if s.isConnected && !s.isListener then (if a.taken >= 0 then [Wiped] else [Stored(a.errno)]) else []
    case GetLastErrno => [ReadOut(s.lastErrno)]
    case GetLastErrnoString => [ReadOut(s.lastErrno)]
    case SetReceiveBufferSize(_) => []
  }

  function ErrnoTrace(s: Sock, calls: seq<Call>): seq<ErrnoEvent>
    decreases |calls|
  {
    if calls == [] then [] else ErrnoEvents(s, calls[0]) + ErrnoTrace(Apply(s, calls[0]), calls[1..])
  }

  /** The number held after a trace that began with `held`. */
  function HeldAfter(held: int, es: seq<ErrnoEvent>): int
    decreases |es|
  {
    if es == [] then held
    else HeldAfter(if es[0].Stored? then es[0].number else 0, es[1..])
  }

  /** Every read gives what is held at that point. */
  predicate ReadsFit(held: int, es: seq<ErrnoEvent>)
    decreases |es|
  {
    es == [] || ((es[0].ReadOut? ==> es[0].number == held)
                 && ReadsFit(if es[0].Stored? then es[0].number else 0, es[1..]))
  }

  lemma {:induction false} HeldAppend(held: int, xs: seq<ErrnoEvent>, ys: seq<ErrnoEvent>)
    ensures HeldAfter(held, xs + ys) == HeldAfter(HeldAfter(held, xs), ys)
    ensures ReadsFit(held, xs + ys) <==> ReadsFit(held, xs) && ReadsFit(HeldAfter(held, xs), ys)
    decreases |xs|
  {
    if xs == [] {
      assert xs + ys == ys;
    } else {
      assert (xs + ys)[1..] == xs[1..] + ys;
      HeldAppend(if xs[0].Stored? then xs[0].number else 0, xs[1..], ys);
    }
  }

  lemma OneCallsErrno(s: Sock, c: Call)
    ensures HeldAfter(s.lastErrno, ErrnoEvents(s, c)) == Apply(s, c).lastErrno
    ensures ReadsFit(s.lastErrno, ErrnoEvents(s, c))
  {
    var es := ErrnoEvents(s, c);
    if es != [] {
      assert es == [es[0]] + es[1..];
      HeldAppend(s.lastErrno, [es[0]], es[1..]);
      assert [es[0]][1..] == [];
      if |es| == 2 {
        assert es[1..] == [es[1]] && [es[1]][1..] == [];
      } else {
        assert es[1..] == [];
      }
    }
  }

  lemma {:induction false} TraceHoldsErrno(s: Sock, calls: seq<Call>)
    ensures HeldAfter(s.lastErrno, ErrnoTrace(s, calls)) == After(s, calls).lastErrno
    ensures ReadsFit(s.lastErrno, ErrnoTrace(s, calls))
    decreases |calls|
  {
    if calls != [] {
      OneCallsErrno(s, calls[0]);
      TraceHoldsErrno(Apply(s, calls[0]), calls[1..]);
      HeldAppend(s.lastErrno, ErrnoEvents(s, calls[0]), ErrnoTrace(Apply(s, calls[0]), calls[1..]));
    }
  }

  /** Wherever a non-zero number is read, the very last thing before it was its
      being stored: so between two reads of a number it was stored again, and
      no stored number is read twice. */
  lemma ReadNeedsStore(s: Sock, calls: seq<Call>, i: nat)
    requires s.lastErrno == 0 && i < |ErrnoTrace(s, calls)|
    requires ErrnoTrace(s, calls)[i].ReadOut? && ErrnoTrace(s, calls)[i].number != 0
    ensures i > 0 && ErrnoTrace(s, calls)[i - 1] == Stored(ErrnoTrace(s, calls)[i].number)
  {
    var es := ErrnoTrace(s, calls);
    TraceHoldsErrno(s, calls);
    assert es == es[..i] + es[i..];
    HeldAppend(0, es[..i], es[i..]);
    assert ReadsFit(HeldAfter(0, es[..i]), es[i..]);
    assert es[i..][0] == es[i];
    if i > 0 {
      assert es[..i] == es[..i - 1] + [es[i - 1]];
      HeldAppend(0, es[..i - 1], [es[i - 1]]);
      assert [es[i - 1]][1..] == [];
    }
  }

  /** What an error message learns from a default socket: it asks for the number
      and, having consumed it, for a text that is empty by then. */
  function Probe(s: Sock, strerror: int -> string): ErrnoProbe {
    var number := s.lastErrno;
    var t := Apply(s, GetLastErrno);
    ErrnoProbe(number, if t.lastErrno != 0 then strerror(t.lastErrno) else "")
  }

  lemma NumbersComeWithoutText(s: Sock, strerror: int -> string)
    ensures Probe(s, strerror) == ErrnoProbe(s.lastErrno, "")
  {
  }

  /** The message of a failed listen has the number and no text.  On port 0 the
      system is never asked, and the number is one left over from before. */
  lemma ListenErrorMessage(s: Sock, port: nat, a: ListenAnswer, strerror: int -> string, head: string, body: string)
    requires !DoListen(s, port, a).1
    ensures var number := if port == 0 then s.lastErrno else a.errno;
      ErrorMessage(head, body, Some(Probe(DoListen(s, port, a).0, strerror)))
      == Message(head, if number == 0 then body else body + "\nError number " + Decimal(number) + " :")
  {
    var number := if port == 0 then s.lastErrno else a.errno;
    var m := body + "\nError number " + Decimal(number) + " :";
    assert m + "" == m;
  }

  /** The message of a failed connect has neither: its number was read before. */
  lemma ConnectErrorMessage(s: Sock, a: ConnectAnswer, strerror: int -> string, head: string, body: string)
    requires !DoConnect(s, a).1
    ensures ErrorMessage(head, body, Some(Probe(Apply(DoConnect(s, a).0, GetLastErrno), strerror))) == Message(head, body)
  {
  }

  /** A failed accept leaves no number, so the node never takes its accept-error
      branch with a default socket. */
  lemma AcceptLeavesNoErrno(s: Sock, a: AcceptAnswer)
    requires s.isListener && DoAccept(s, a).1.None?
    ensures DoAccept(s, a).0.lastErrno == 0
  {
  }

  // ---- receiving in chunks ------------------------------------------------

  /** The bytes a call delivers with an OK result. */
  function Delivered(s: Sock, c: Call): seq<Bytes> {
    if c.Receive? && ReceiveOutcome(s, c.received).0 == OK then [ReceiveOutcome(s, c.received).1] else []
  }

  function AllDelivered(s: Sock, calls: seq<Call>): seq<Bytes>
    decreases |calls|
  {
    if calls == [] then [] else Delivered(s, calls[0]) + AllDelivered(Apply(s, calls[0]), calls[1..])
  }

  /** The kernel hands out the peer's stream in order, in pieces as it likes, at
      least one byte and at most what the buffer holds (section 2.2 of RFC 9293). */
  ghost predicate KernelFits(s: Sock, calls: seq<Call>, stream: Bytes, pos: nat)
    decreases |calls|
  {
    calls == [] || (
      var c := calls[0];
      && !c.Listen? && !c.Connect?
      && (c.Receive? && c.received.Data? && ReceiveOutcome(s, c.received).0 == OK ==>
            && 1 <= |c.received.bytes| <= s.bufferSize
            && pos + |c.received.bytes| <= |stream|
            && c.received.bytes == stream[pos..pos + |c.received.bytes|])
      && KernelFits(Apply(s, c), calls[1..], stream, pos + |Flatten(Delivered(s, c))|))
  }

  function LargestBuffer(s: Sock, calls: seq<Call>): nat
    decreases |calls|
  {
    if calls == [] then s.bufferSize else
    var rest := LargestBuffer(Apply(s, calls[0]), calls[1..]);
    if s.bufferSize > rest then s.bufferSize else rest
  }

  /** Whatever the splits and whatever else is called meanwhile, the chunks
      delivered are non-empty, fit the buffer and concatenate to the next stretch
      of the peer's stream. */
  lemma ChunksReassemble(s: Sock, calls: seq<Call>, stream: Bytes, pos: nat)
    requires pos <= |stream| && KernelFits(s, calls, stream, pos)
    ensures var whole := Flatten(AllDelivered(s, calls));
      pos + |whole| <= |stream| && whole == stream[pos..pos + |whole|]
    ensures forall chunk :: chunk in AllDelivered(s, calls) ==> 1 <= |chunk| <= LargestBuffer(s, calls)
  {
    ChunksConcatenate(s, calls, stream, pos);
    ChunksFit(s, calls, stream, pos);
  }

  predicate IsStretch(stream: Bytes, pos: nat, xs: Bytes) {
    pos + |xs| <= |stream| && xs == stream[pos..pos + |xs|]
  }

  lemma {:induction false} ChunksConcatenate(s: Sock, calls: seq<Call>, stream: Bytes, pos: nat)
    requires pos <= |stream| && KernelFits(s, calls, stream, pos)
    ensures IsStretch(stream, pos, Flatten(AllDelivered(s, calls)))
    decreases |calls|
  {
    if calls == [] {
      assert Flatten(AllDelivered(s, calls)) == [];
    } else {
      var first, t := Flatten(Delivered(s, calls[0])), Apply(s, calls[0]);
      OneChunk(s, calls, stream, pos);
      ChunksConcatenate(t, calls[1..], stream, pos + |first|);
      JoinStretches(stream, pos, first, Flatten(AllDelivered(t, calls[1..])));
      DeliveredFirst(s, calls);
    }
  }

  lemma {:induction false} ChunksFit(s: Sock, calls: seq<Call>, stream: Bytes, pos: nat)
    requires pos <= |stream| && KernelFits(s, calls, stream, pos)
    ensures forall chunk :: chunk in AllDelivered(s, calls) ==> 1 <= |chunk| <= LargestBuffer(s, calls)
    decreases |calls|
  {
    if calls != [] {
      var first := Delivered(s, calls[0]);
      OneChunk(s, calls, stream, pos);
      ChunksFit(Apply(s, calls[0]), calls[1..], stream, pos + |Flatten(first)|);
    }
  }

  lemma OneChunk(s: Sock, calls: seq<Call>, stream: Bytes, pos: nat)
    requires calls != [] && pos <= |stream| && KernelFits(s, calls, stream, pos)
    ensures IsStretch(stream, pos, Flatten(Delivered(s, calls[0])))
    ensures KernelFits(Apply(s, calls[0]), calls[1..], stream, pos + |Flatten(Delivered(s, calls[0]))|)
    ensures forall chunk :: chunk in Delivered(s, calls[0]) ==> 1 <= |chunk| <= s.bufferSize
  {
    var first := Delivered(s, calls[0]);
    if first != [] {
      assert first == [calls[0].received.bytes] && first[1..] == [];
      assert Flatten(first) == calls[0].received.bytes + Flatten([]);
    }
  }

  lemma DeliveredFirst(s: Sock, calls: seq<Call>)
    requires calls != []
    ensures Flatten(AllDelivered(s, calls)) ==
            Flatten(Delivered(s, calls[0])) + Flatten(AllDelivered(Apply(s, calls[0]), calls[1..]))
  {
    FlattenAppend(Delivered(s, calls[0]), AllDelivered(Apply(s, calls[0]), calls[1..]));
  }

  lemma JoinStretches(stream: Bytes, pos: nat, xs: Bytes, ys: Bytes)
    requires IsStretch(stream, pos, xs) && IsStretch(stream, pos + |xs|, ys)
    ensures IsStretch(stream, pos, xs + ys)
  {
  }
}
