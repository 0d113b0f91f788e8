/** The default socket as an object, against its state machine. */
module SocketObject {
  import opened Common
  import opened SocketState

  class Socket {
    var socketFd: int
    var isListener: bool
    var isConnected: bool
    var isListening: bool
    var listenPort: nat
    var receiveBufferSize: nat
    var lastErrno: int

    ghost var got: seq<int>       // descriptors the system opened for this socket
    ghost var closed: seq<int>    // and closed

    ghost function View(): Sock
      reads this
    {
      Sock(socketFd, isListener, isConnected, isListening, listenPort, receiveBufferSize, lastErrno)
    }

    constructor ()
      ensures View() == IDLE && got == [] && closed == []
    {
      socketFd, isListener, isConnected, isListening := -1, false, false, false;
      listenPort, receiveBufferSize, lastErrno := 0, 1024, 0;
      got, closed := [], [];
    }

    method Close()
      modifies this
      ensures View() == Closed(old(View()))
      ensures got == old(got) && closed == old(closed) + Held(old(socketFd))
    {
      closed := closed + Held(socketFd);
      isConnected := false;
      isListening := false;
      isListener := false;
      socketFd := -1;
    }

    method SetErrno(errno: int)
      modifies `lastErrno
      ensures lastErrno == errno
    {
      lastErrno := errno;
    }

    method ClearErrno()
      modifies `lastErrno
      ensures lastErrno == 0
    {
      lastErrno := 0;
    }

    method Listen(port: nat, a: ListenAnswer) returns (success: bool)
      modifies this
      ensures (View(), success) == DoListen(old(View()), port, a)
      ensures got == old(got) + Opens(old(View()), SocketState.Listen(port, a))
      ensures closed == old(closed) + Closes(old(View()), SocketState.Listen(port, a))
    {
      success := false;
      Close();
      if port == 0 {
        return;
      }
      if a.resolved {
        success := Walk(port, a.tries);
      }
      if !success {
        SetErrno(a.errno);
      } else {
        isListener := true;
        isListening := true;
        ClearErrno();
      }
    }

    /** Lines 165 to 248, with no descriptor in hand: a loop that breaks off at
        the first address that works. */
    method Walk(port: nat, tries: seq<AddressTry>) returns (success: bool)
      requires socketFd == -1 && !isListener
      modifies `socketFd, `isListener, `listenPort, `got, `closed
      ensures var w := WalkAddresses(-1, tries);
        && socketFd == w.fd && success == w.ok
        && got == old(got) + w.got && closed == old(closed) + w.closed
      ensures isListener == success && listenPort == if success then port else old(listenPort)
    {
      success := false;
      ghost var whole := WalkAddresses(-1, tries);
      var i := 0;
      while i < |tries| && !success
        invariant 0 <= i <= |tries|
        invariant isListener == success && listenPort == if success then port else old(listenPort)
        invariant var rest := if success then SocketState.Walk(socketFd, true, [], []) else WalkAddresses(socketFd, tries[i..]);
          && whole.fd == rest.fd && whole.ok == rest.ok
          && old(got) + whole.got == got + rest.got && old(closed) + whole.closed == closed + rest.closed
        decreases |tries| - i, !success
      {
        var t := tries[i];
        assert tries[i..][0] == t && tries[i..][1..] == tries[i + 1..];
        socketFd := t.fd;
        if socketFd != -1 {
          got := got + [socketFd];
          if t.ready {
            if t.nonBlocking {
              success := true;
              isListener := true;
              listenPort := port;
            }
          } else {
            closed := closed + [socketFd];
            socketFd := -1;
          }
        }
        i := i + 1;
      }
    }

    method Connect(a: ConnectAnswer) returns (success: bool)
      modifies this
      ensures (View(), success) == DoConnect(old(View()), a)
      ensures got == old(got) + Opens(old(View()), SocketState.Connect(a))
      ensures closed == old(closed) + Closes(old(View()), SocketState.Connect(a))
    {
      success := false;
      Close();
      if a.resolved {
        socketFd := a.fd;
        got := got + Held(socketFd);
        if socketFd != -1 && a.nonBlocking {
          match a.shake
          case Done => success := true;
          case InProgress(settled) => if settled { success := true; }
          case Refused =>
        }
      }
      if !success {
        Close();
        SetErrno(a.errno);
      } else {
        isConnected := true;
        ClearErrno();
      }
    }

    method Accept(a: AcceptAnswer) returns (result: Socket?)
      modifies this
      ensures View() == DoAccept(old(View()), a).0
      ensures result == null <==> DoAccept(old(View()), a).1.None?
      ensures result != null ==> fresh(result) && Some(result.View()) == DoAccept(old(View()), a).1 && result.got == [a.fd]
      ensures got == old(got) && closed == old(closed)
    {
      result := null;
      if isListener {
        if a.fd != -1 {
          var newSocket := new Socket();
          newSocket.socketFd := a.fd;
          newSocket.got := [a.fd];
          newSocket.isConnected := true;
          result := newSocket;
        } else {
          SetErrno(a.errno);
          var errornum := GetLastErrno();
        }
      }
    }

    method Receive(r: RecvAnswer, old_data: Bytes) returns (result: ReceiveResult, receiveData: Bytes)
      requires r.Data? ==> |r.bytes| <= receiveBufferSize
      modifies this
      ensures View() == DoReceive(old(View()), r)
      ensures result == ReceiveOutcome(old(View()), r).0
      ensures receiveData == if result == OK then ReceiveOutcome(old(View()), r).1 else old_data
      ensures got == old(got) && closed == old(closed) + Closes(old(View()), SocketState.Receive(r))
    {
      receiveData := old_data;
      var recData := new byte[receiveBufferSize];
      if isListener {
        result := IsListener;
      } else if !isConnected {
        result := NoConnection;
      } else {
        match r
        case Again => result := NothingReceived;
        case Failure(_) => result := SystemError;
        case EndOfStream => result := PeerDisconnected;
        case Data(bytes) =>
          result := OK;
          forall i | 0 <= i < |bytes| { recData[i] := bytes[i]; }
          receiveData := recData[..|bytes|];
          assert receiveData == bytes;
      }
      if result == SystemError {
        Close();
        SetErrno(r.errno);
      } else {
        ClearErrno();
      }
    }

    method Send(data: Bytes, a: SendAnswer) returns (result: nat)
      requires a.taken <= |data|
      modifies this
      ensures View() == DoSend(old(View()), a) && result == SendOutcome(old(View()), a)
      ensures result <= |data| && got == old(got) && closed == old(closed)
    {
      result := 0;
      if isConnected && !isListener {
        if a.taken >= 0 {
          result := a.taken;
          ClearErrno();
        } else {
          SetErrno(a.errno);
        }
      }
    }

    method GetLastErrno() returns (number: int)
      modifies `lastErrno
      ensures number == old(lastErrno) && lastErrno == 0
    {
      number := lastErrno;
      lastErrno := 0;
    }

    method GetLastErrnoString(strerror: int -> string) returns (text: string)
      modifies `lastErrno
      ensures text == (if old(lastErrno) != 0 then strerror(old(lastErrno)) else "") && lastErrno == 0
    {
      text := "";
      var number := GetLastErrno();
      if number != 0 {
        text := strerror(number);
      }
    }

    /** What `_createErrorMessage` does with a default socket. */
    method CreateErrorMessage(head: string, body: string, strerror: int -> string) returns (m: Message)
      modifies `lastErrno
      ensures m == ErrorMessage(head, body, Some(Probe(old(View()), strerror)))
      ensures lastErrno == 0
    {
      m := Message(head, body);
      var number := GetLastErrno();
      if number != 0 {
        var text := GetLastErrnoString(strerror);
        m := Message(head, body + "\nError number " + Decimal(number) + " :" + text);
      }
    }
  }
}
