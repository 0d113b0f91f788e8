/** The per-peer record: what the node knows of one connection, and the marks
    that take it through its life. */
module PeerPrivate {
  import opened Common

  /** The fields of a record, as a value. */
  datatype PeerData = PeerData(
    id: nat,
    ip: string,
    port: nat,
    host: string,
    valid: bool,
    toBeDeleted: bool,
    socket: Option<Handle>,
    disconn: DisconnectType,
    errmsg: Message)

  const NO_PEER := PeerData(0, "", 0, "", false, false, None, DisconnectedThemself, Message("", ""))

  /** The record of a connection that has just been made over `sock`. */
  function NewPeer(id: nat, ip: string, port: nat, host: string, sock: Handle): PeerData {
    PeerData(id, ip, port, host, true, false, Some(sock), DisconnectedThemself, Message("", ""))
  }

  function Scheduled(p: PeerData, why: DisconnectType): PeerData {
    p.(disconn := why, toBeDeleted := true)
  }

  /** A record as the source keeps it.  A `Peer` owns one and copies it by
      assignment, so two copies share nothing but the socket pointer. */
  class Peer {
    var connectionId: nat
    var ipAddress: string
    var portNumber: nat
    var hostname: string
    var valid: bool
    var toBeDeleted: bool
    var socket: Option<Handle>
    var disconn: DisconnectType
    var errmsg: Message

    ghost function View(): PeerData
      reads this
    {
      PeerData(connectionId, ipAddress, portNumber, hostname, valid, toBeDeleted, socket, disconn, errmsg)
    }

    constructor ()
      ensures View() == NO_PEER
    {
      connectionId, ipAddress, portNumber, hostname := 0, "", 0, "";
      valid, toBeDeleted, socket := false, false, None;
      disconn, errmsg := DisconnectedThemself, Message("", "");
    }

    /** Copying a peer: a fresh record equal in every field. */
    constructor Copy(other: Peer)
      ensures View() == other.View()
    {
      connectionId, ipAddress := other.connectionId, other.ipAddress;
      portNumber, hostname := other.portNumber, other.hostname;
      valid, toBeDeleted, socket := other.valid, other.toBeDeleted, other.socket;
      disconn, errmsg := other.disconn, other.errmsg;
    }

    method Set(id: nat, ip: string, port: nat, host: string)
      modifies this
      ensures View() == old(View()).(id := id, ip := ip, port := port, host := host)
    {
      connectionId, ipAddress, portNumber, hostname := id, ip, port, host;
    }

    method SetValid(v: bool)
      modifies this
      ensures View() == old(View()).(valid := v)
    {
      valid := v;
    }

    method SetSocket(sock: Handle)
      modifies this
      ensures View() == old(View()).(socket := Some(sock))
    {
      socket := Some(sock);
    }

    method SetErrorMessage(err: Message)
      modifies this
      ensures View() == old(View()).(errmsg := err)
    {
      errmsg := err;
    }

    method ScheduleDelete(why: DisconnectType)
      modifies this
      ensures View() == Scheduled(old(View()), why)
    {
      disconn := why;
      toBeDeleted := true;
    }

    /** Closes and deletes the socket, once: what is handed back is the pointer
        that was freed, and the record forgets it. */
    method DestroySocket() returns (freed: Option<Handle>)
      modifies this
      ensures freed == old(socket)
      ensures View() == old(View()).(socket := None)
    {
      freed := socket;
      if socket.Some? {
        socket := None;
      }
    }
  }
}
