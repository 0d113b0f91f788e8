/** Values shared by the socket, the peer record and the node. */
module Common {

  datatype Option<+T> = None | Some(value: T)

  newtype byte = b: int | 0 <= b < 256
  type Bytes = seq<byte>

  /** A raw `ISocket*`.  Pointers are handles into an explicit set of live
      sockets, because a Dafny reference cannot be freed. */
  type Handle = nat

  /** An address a connection was asked for: text and port. */
  datatype Address = Address(ip: string, port: nat)

  datatype IpVersion = ANY | IPV4 | IPV6

  datatype Message = Message(head: string, body: string)

  datatype DisconnectType =
    | DisconnectedThemself
    | WasDisconnected
    | DisconnectedDueToError

  datatype ReceiveResult =
    | OK
    | NoConnection
    | PeerDisconnected
    | IsListener
    | NothingReceived
    | SystemError

  function Digits(n: nat): string {
    if n < 10 then [('0' as int + n) as char]
    else Digits(n / 10) + [('0' as int + n % 10) as char]
  }

  /** std::to_string of a signed number. */
  function Decimal(n: int): string {
    if n < 0 then "-" + Digits(-n) else Digits(n)
  }

  /** What a socket answers when it is asked for its error number and then,
      if that was not zero, for its error text. */
  datatype ErrnoProbe = ErrnoProbe(number: int, text: string)

  function ErrorMessage(head: string, body: string, sock: Option<ErrnoProbe>): Message {
    if sock.Some? && sock.value.number != 0 then
      Message(head, body + "\nError number " + Decimal(sock.value.number) + " :" + sock.value.text)
    else
      Message(head, body)
  }

  /** An enumeration of a finite set, each element once: what iterating over an
      unordered map yields. */
  ghost predicate Enumerates<T(!new)>(order: seq<T>, keys: set<T>) {
    && (forall i, j :: 0 <= i < j < |order| ==> order[i] != order[j])
    && (forall x :: x in order <==> x in keys)
  }

  /** The concatenation of byte strings. */
  function Flatten(chunks: seq<Bytes>): Bytes {
    if chunks == [] then [] else chunks[0] + Flatten(chunks[1..])
  }

  lemma {:induction false} FlattenAppend(xs: seq<Bytes>, ys: seq<Bytes>)
    ensures Flatten(xs + ys) == Flatten(xs) + Flatten(ys)
  {
    if xs == [] {
      assert xs + ys == ys;
    } else {
      assert (xs + ys)[1..] == xs[1..] + ys;
      FlattenAppend(xs[1..], ys);
    }
  }

  lemma FlattenSnoc(xs: seq<Bytes>, y: Bytes)
    ensures Flatten(xs + [y]) == Flatten(xs) + y
  {
    FlattenAppend(xs, [y]);
    assert Flatten([y]) == y + Flatten([]);
  }
}
