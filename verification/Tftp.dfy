/**
  The stop-and-wait file sender of the TFTP server, with a client that accepts
  only the next block and otherwise repeats its last acknowledgement, over
  channels that keep order but lose and duplicate packets.  Block numbers on the
  wire are 16 bits wide.
 */
module Tftp {

  type Octet = x: int | 0 <= x < 256

  datatype Packet = Data(num: nat, chunk: seq<Octet>) | Oack | Ack(num: nat)

  /** A packet under way; `serial` counts blocks without wrapping.  No endpoint looks at it. */
  datatype Datagram = Datagram(packet: Packet, serial: nat)

  function Wire(n: nat): nat { n % 0x1_0000 }

  // ----- the server: handle_client -----

  /** Waiting for ACK 0; waiting with the current block sent `tries` times; complete; given up. */
  datatype Phase = OackWait | Wait(tries: nat) | Done | Failed

  /** `blockNum` and `offset` as in the source; `sent` counts DATA packets. */
  datatype Server = Server(phase: Phase, blockNum: nat, offset: nat, sent: nat)

  /** data[offset : offset + blksize] */
  function Chunk(file: seq<Octet>, offset: nat, blksize: nat): seq<Octet> {
    if offset >= |file| then []
    else if offset + blksize >= |file| then file[offset..]
    else file[offset..offset + blksize]
  }

  /** What recvfrom gave: nothing in time, something that is no acknowledgement, or an acknowledgement. */
  datatype Reply = Timeout | Stray | Acked(num: nat)

  /** The server after a reply, and whether it sends its current packet. */
  datatype Reaction = Reaction(server: Server, sends: bool)

  function FirstTry(s: Server): Reaction { Reaction(s.(phase := Wait(1), sent := s.sent + 1), true) }

  function Start(blksize: nat): Reaction {
    if blksize != 512 then Reaction(Server(OackWait, 1, 0, 0), true) else FirstTry(Server(Wait(0), 1, 0, 0))
  }

  function Retry(s: Server): Reaction
    requires s.phase.Wait?
  {
    if s.phase.tries < 5
    then Reaction(s.(phase := Wait(s.phase.tries + 1), sent := s.sent + 1), true)
    else Reaction(s.(phase := Failed), false)
  }

  function React(file: seq<Octet>, blksize: nat, s: Server, r: Reply): Reaction {
    match s.phase
    case OackWait => if r == Acked(0) then FirstTry(s) else Reaction(s.(phase := Failed), false)
    case Wait(_) =>
      if r == Acked(Wire(s.blockNum)) then
        var chunk := Chunk(file, s.offset, blksize);
        var s1 := s.(blockNum := s.blockNum + 1, offset := s.offset + |chunk|);
        if |chunk| < blksize then Reaction(s1.(phase := Done), false) else FirstTry(s1)
      else Retry(s)
    case _ => Reaction(s, false)
  }

  /** The packet the server sends in a phase. */
  function Sends(file: seq<Octet>, blksize: nat, s: Server): Datagram {
    if s.phase.OackWait? then Datagram(Oack, 0)
    else Datagram(Data(Wire(s.blockNum), Chunk(file, s.offset, blksize)), s.blockNum)
  }

  // ----- the client -----

  /** `last` is the number last acknowledged; `accepted` counts accepted blocks, for the record. */
  datatype Client = Client(got: seq<Octet>, last: nat, accepted: nat, complete: bool)

  function Receive(c: Client, p: Packet, blksize: nat): Client {
    if p.Data? && p.num == Wire(c.last + 1) && !c.complete
    then Client(c.got + p.chunk, p.num, c.accepted + 1, |p.chunk| < blksize)
    else c
  }

  // ----- the two of them -----

  datatype System = System(server: Server, client: Client, toClient: seq<Datagram>, toServer: seq<Datagram>)

  datatype Event =
    | ServerTimeout                // nothing, or a stray packet, arrives in time
    | ServerReceives
    | ClientReceives
    | ClientRepeats                // the client sends its last acknowledgement again
    | LoseData(at: nat) | LoseAck(at: nat) | DuplicateData(at: nat) | DuplicateAck(at: nat)

  function Begin(file: seq<Octet>, blksize: nat): System {
    var r := Start(blksize);
    System(r.server, Client([], 0, 0, false), [Sends(file, blksize, r.server)], [])
  }

  ghost predicate Enabled(s: System, e: Event) {
    match e
    case ServerReceives => s.toServer != []
    case ClientReceives => s.toClient != []
    case LoseData(i) => i < |s.toClient|
    case DuplicateData(i) => i < |s.toClient|
    case LoseAck(i) => i < |s.toServer|
    case DuplicateAck(i) => i < |s.toServer|
    case _ => true
  }

  function Serve(file: seq<Octet>, blksize: nat, s: System, r: Reply): System {
    var x := React(file, blksize, s.server, r);
    s.(server := x.server, toClient := s.toClient + if x.sends then [Sends(file, blksize, x.server)] else [])
  }

  function Acknowledge(s: System): System {
    s.(toServer := s.toServer + [Datagram(Ack(s.client.last), s.client.accepted)])
  }

  function ReplyOf(p: Packet): Reply { if p.Ack? then Acked(p.num) else Stray }

  function Lose(ch: seq<Datagram>, i: nat): seq<Datagram>
    requires i < |ch|
  {
    ch[..i] + ch[i + 1..]
  }

  function Duplicate(ch: seq<Datagram>, i: nat): seq<Datagram>
    requires i < |ch|
  {
    ch[..i + 1] + ch[i..]
  }

  function Step(file: seq<Octet>, blksize: nat, s: System, e: Event): System
    requires Enabled(s, e)
  {
    match e
    case ServerTimeout => Serve(file, blksize, s, Timeout)
    case ServerReceives => Serve(file, blksize, s.(toServer := s.toServer[1..]), ReplyOf(s.toServer[0].packet))
    case ClientReceives =>
      Acknowledge(s.(client := Receive(s.client, s.toClient[0].packet, blksize), toClient := s.toClient[1..]))
    case ClientRepeats => Acknowledge(s)
    case LoseData(i) => s.(toClient := Lose(s.toClient, i))
    case LoseAck(i) => s.(toServer := Lose(s.toServer, i))
    case DuplicateData(i) => s.(toClient := Duplicate(s.toClient, i))
    case DuplicateAck(i) => s.(toServer := Duplicate(s.toServer, i))
  }

  ghost predicate Leads(file: seq<Octet>, blksize: nat, s: System, es: seq<Event>, t: System)
    decreases |es|
  {
    if es == [] then s == t
    else Enabled(s, es[0]) && Leads(file, blksize, Step(file, blksize, s, es[0]), es[1..], t)
  }
}
