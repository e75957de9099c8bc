/**
 * One TCP session with the NAT process and the channel observations are pushed
 * onto. The connection is the byte stream the peer sends, read through a cursor;
 * the command exchange (handlers.SendCmd, whose header layout is not part of this
 * model) is an abstract step of the peer.
 */
module Session {
  import opened Wrappers
  import opened Wire

  /** The commands the exporter sends. */
  datatype Command = CmdVersion | CmdDpdkStats | CmdAppStats | CmdCpuUsage

  /**
   * What the command exchange does with the bytes still unread: it either fails
   * (the write or the header read failed) or reads a reply header of `width`
   * bytes announcing a payload of `dataSize` bytes.
   */
  datatype HeaderReply = Header(dataSize: nat, width: nat) | SendFailed

  /** The peer's side of handlers.SendCmd, as a function of the command and the unread bytes. */
  type Peer = (Command, seq<byte>) -> HeaderReply

  /** The outcome of handlers.SendCmd on the unread bytes `rest`: the announced size, or None. */
  function SendCmdResult(peer: Peer, cmd: Command, rest: seq<byte>): (r: Option<(nat, nat)>)
    ensures r.Some? ==> r.value.1 <= |rest|
  {
    match peer(cmd, rest)
    case SendFailed => None
    case Header(dataSize, width) => if width <= |rest| then Some((dataSize, width)) else None
  }

  /** An open connection: the peer's bytes, a read cursor, the commands written, and whether it was closed. */
  class Conn {
    const input: seq<byte>
    const peer: Peer
    var pos: nat
    var sent: seq<Command>
    var closed: bool

    ghost predicate Valid()
      reads this
    {
      pos <= |input|
    }

    /** The bytes not read yet. */
    function Unread(): seq<byte>
      reads this
      requires Valid()
    {
      input[pos..]
    }

    constructor (input: seq<byte>, peer: Peer)
      ensures Valid() && this.input == input && this.peer == peer
      ensures pos == 0 && sent == [] && !closed
    {
      this.input := input;
      this.peer := peer;
      pos := 0;
      sent := [];
      closed := false;
    }

    /** conn.Read into an n-byte buffer: the buffer is filled, or the read fails and nothing is consumed. */
    method Read(n: nat) returns (r: Option<seq<byte>>)
      requires Valid()
      modifies this`pos
      ensures Valid()
      ensures r.Some? <==> n <= |input| - old(pos)
      ensures r.Some? ==> r.value == input[old(pos)..old(pos) + n] && pos == old(pos) + n
      ensures r.None? ==> pos == old(pos)
    {
      if n <= |input| - pos {
        r := Some(input[pos..pos + n]);
        pos := pos + n;
      } else {
        r := None;
      }
    }

    /** handlers.SendCmd: writes the command and reads the reply header, whose size it returns with the announced DataSize. */
    method SendCmd(cmd: Command) returns (r: Option<nat>)
      requires Valid()
      modifies this`pos, this`sent
      ensures Valid() && sent == old(sent) + [cmd]
      ensures r.None? ==> SendCmdResult(peer, cmd, old(Unread())).None? && pos == old(pos)
      ensures r.Some? ==> SendCmdResult(peer, cmd, old(Unread())) == Some((r.value, pos - old(pos)))
    {
      sent := sent + [cmd];
      var h := SendCmdResult(peer, cmd, input[pos..]);
      if h.Some? {
        pos := pos + h.value.1;
        r := Some(h.value.0);
      } else {
        r := None;
      }
    }

    /** conn.Close. */
    method Close()
      modifies this`closed
      ensures closed
    {
      closed := true;
    }
  }

  /** A Go channel the exporter only sends on: everything sent, in order. */
  class Channel<T> {
    var items: seq<T>

    constructor ()
      ensures items == []
    {
      items := [];
    }

    method Send(x: T)
      modifies this
      ensures items == old(items) + [x]
    {
      items := items + [x];
    }
  }
}
