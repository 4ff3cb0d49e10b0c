/** Over every run: the client holds a prefix of the file, and all of it once the server reports completion. */
module TftpSafety {
  import opened Tftp
  import opened BitMask

  // ----- channels -----

  /** The packet that carries serial number `k` to the client. */
  function Block(file: seq<Octet>, blksize: nat, k: nat): Packet {
    if k == 0 then Oack else Data(Wire(k), Chunk(file, (k - 1) * blksize, blksize))
  }

  ghost predicate InWindow(ch: seq<Datagram>, lo: int, hi: int) {
    forall i :: 0 <= i < |ch| ==> lo <= ch[i].serial <= hi
  }

  ghost predicate InOrder(ch: seq<Datagram>) {
    forall i, j :: 0 <= i < j < |ch| ==> ch[i].serial <= ch[j].serial
  }

  ghost predicate Blocks(file: seq<Octet>, blksize: nat, ch: seq<Datagram>) {
    forall i :: 0 <= i < |ch| ==> ch[i].packet == Block(file, blksize, ch[i].serial)
  }

  ghost predicate Acks(ch: seq<Datagram>) {
    forall i :: 0 <= i < |ch| ==> ch[i].packet == Ack(Wire(ch[i].serial))
  }

  /** On the wire a number is its low sixteen bits. */
  lemma WireIsMask(n: nat)
    ensures Wire(n) == And(n, 0xFFFF) <= 0xFFFF
  {
    assert Pow2(4) == 16 && Pow2(8) == 16 * Pow2(4) && Pow2(12) == 16 * Pow2(8) && Pow2(16) == 16 * Pow2(12);
    LowBits(n, 16);
    Remainder(n, Pow2(16), Shifted(n, 16), And(n, Pow2(16) - 1));
  }

  /** Two serial numbers next to each other differ on the wire. */
  lemma WireApart(n: nat)
    ensures Wire(n) != Wire(n + 1) && Wire(Wire(n) + 1) == Wire(n + 1)
  {
  }

  // ----- server, client, and the window between them -----

  ghost predicate ServerOk(file: seq<Octet>, blksize: nat, s: Server) {
    && s.blockNum >= 1
    && match s.phase
       case OackWait => s.blockNum == 1 && s.offset == 0 && s.sent == 0
       case Wait(tries) =>
         && s.offset == (s.blockNum - 1) * blksize <= |file|
         && tries <= 5 && s.sent <= 5 * (s.blockNum - 1) + tries
       case Failed => s.offset == (s.blockNum - 1) * blksize <= |file| && s.sent <= 5 * s.blockNum
       case Done =>
         && s.blockNum >= 2 && (s.blockNum - 2) * blksize <= |file| < (s.blockNum - 1) * blksize
         && s.sent <= 5 * (s.blockNum - 1)
  }

  /** What a client that accepted `a` blocks holds. */
  function Upto(file: seq<Octet>, blksize: nat, a: nat): seq<Octet> {
    if a * blksize <= |file| then file[..a * blksize] else file
  }

  ghost predicate ClientOk(file: seq<Octet>, blksize: nat, c: Client) {
    && c.got == Upto(file, blksize, c.accepted) && c.last == Wire(c.accepted)
    && (c.complete <==> c.accepted * blksize > |file|)
  }

  /** The last block the server may have sent. */
  function Newest(s: Server): nat {
    if s.phase.OackWait? then 0
    else if s.phase.Done? && s.blockNum > 0 then s.blockNum - 1
    else s.blockNum
  }

  ghost predicate Window(s: System) {
    && s.server.blockNum - 1 <= s.client.accepted <= Newest(s.server)
    && InWindow(s.toClient, s.client.accepted, Newest(s.server)) && InOrder(s.toClient)
    && InWindow(s.toServer, s.server.blockNum - 1, s.client.accepted) && InOrder(s.toServer)
  }

  ghost predicate Inv(file: seq<Octet>, blksize: nat, s: System) {
    var holds :=
      && ServerOk(file, blksize, s.server) && ClientOk(file, blksize, s.client) && Window(s)
      && Blocks(file, blksize, s.toClient) && Acks(s.toServer);
    holds
  }

  // ----- the server's steps -----

  lemma ChunkLength(file: seq<Octet>, blksize: nat, k: nat)
    requires k * blksize <= |file|
    ensures var n := |Chunk(file, k * blksize, blksize)|;
      n <= blksize && (n == blksize ==> (k + 1) * blksize <= |file|) && (n < blksize ==> (k + 1) * blksize > |file|)
  {
    assert (k + 1) * blksize == k * blksize + blksize;
  }

  lemma ReactOk(file: seq<Octet>, blksize: nat, s: Server, r: Reply)
    requires blksize >= 1 && ServerOk(file, blksize, s)
    ensures ServerOk(file, blksize, React(file, blksize, s, r).server)
  {
    if s.phase.Wait? {
      ChunkLength(file, blksize, s.blockNum - 1);
    }
  }

  /** An acknowledgement in the reply is one the client sent, with serial number `k`, and none older follows. */
  ghost predicate Genuine(s: System, r: Reply, k: nat) {
    r.Acked? ==>
      r.num == Wire(k) && s.server.blockNum - 1 <= k <= s.client.accepted && InWindow(s.toServer, k, s.client.accepted)
  }

  /** The server moves on only when the window says that its block was accepted. */
  lemma ReactWindow(file: seq<Octet>, blksize: nat, s: System, r: Reply, k: nat)
    requires Inv(file, blksize, s) && Genuine(s, r, k)
    ensures var s1 := React(file, blksize, s.server, r).server;
      && s1.blockNum - 1 <= s.client.accepted <= Newest(s1)
      && Newest(s.server) <= Newest(s1)
      && InWindow(s.toServer, s1.blockNum - 1, s.client.accepted)
  {
    WireApart(s.server.blockNum - 1);
  }

  lemma SendsBlock(file: seq<Octet>, blksize: nat, s: Server)
    requires ServerOk(file, blksize, s) && (s.phase.OackWait? || s.phase.Wait?)
    ensures var d := Sends(file, blksize, s); d.serial == Newest(s) && d.packet == Block(file, blksize, d.serial)
  {
  }

  lemma ServeInv(file: seq<Octet>, blksize: nat, s: System, r: Reply, k: nat)
    requires blksize >= 1 && Inv(file, blksize, s) && Genuine(s, r, k)
    ensures Inv(file, blksize, Serve(file, blksize, s, r))
  {
    ReactOk(file, blksize, s.server, r);
    ReactWindow(file, blksize, s, r, k);
    var x := React(file, blksize, s.server, r);
    if x.sends {
      SendsBlock(file, blksize, x.server);
    }
  }

  // ----- the client's steps -----

  lemma UptoNext(file: seq<Octet>, blksize: nat, a: nat)
    requires a * blksize <= |file|
    ensures Upto(file, blksize, a) + Chunk(file, a * blksize, blksize) == Upto(file, blksize, a + 1)
  {
    assert (a + 1) * blksize == a * blksize + blksize;
  }

  lemma ReceiveOk(file: seq<Octet>, blksize: nat, c: Client, k: nat)
    requires blksize >= 1 && ClientOk(file, blksize, c) && c.accepted <= k <= c.accepted + 1
    requires k == c.accepted + 1 ==> c.accepted * blksize <= |file|
    ensures var c1 := Receive(c, Block(file, blksize, k), blksize); ClientOk(file, blksize, c1) && c1.accepted == k
  {
    WireApart(c.accepted);
    if k == c.accepted + 1 {
      UptoNext(file, blksize, c.accepted);
      ChunkLength(file, blksize, c.accepted);
    }
  }

  /** The server never sends a block beyond the end of the file. */
  lemma NextExists(file: seq<Octet>, blksize: nat, s: System)
    requires Inv(file, blksize, s) && s.client.accepted < Newest(s.server)
    ensures s.client.accepted * blksize <= |file|
  {
  }

  lemma ClientReceivesInv(file: seq<Octet>, blksize: nat, s: System)
    requires blksize >= 1 && Inv(file, blksize, s) && s.toClient != []
    ensures Inv(file, blksize, Step(file, blksize, s, ClientReceives))
  {
    var k := s.toClient[0].serial;
    if s.client.accepted < Newest(s.server) {
      NextExists(file, blksize, s);
    }
    ReceiveOk(file, blksize, s.client, k);
  }

  lemma ServerReceivesInv(file: seq<Octet>, blksize: nat, s: System)
    requires blksize >= 1 && Inv(file, blksize, s) && s.toServer != []
    ensures Inv(file, blksize, Step(file, blksize, s, ServerReceives))
  {
    var d := s.toServer[0];
    assert d.packet == Ack(Wire(d.serial)) && InWindow(s.toServer[1..], d.serial, s.client.accepted);
    ServeInv(file, blksize, s.(toServer := s.toServer[1..]), ReplyOf(d.packet), d.serial);
  }

  // ----- the channels' steps -----

  /** Every packet of `ch1` is one of `ch`, in the same order. */
  ghost predicate Picks(ch1: seq<Datagram>, ch: seq<Datagram>, from: seq<nat>) {
    && |from| == |ch1|
    && (forall i :: 0 <= i < |from| ==> from[i] < |ch| && ch1[i] == ch[from[i]])
    && forall i, j :: 0 <= i < j < |from| ==> from[i] <= from[j]
  }

  lemma LosePicks(ch: seq<Datagram>, i: nat)
    requires i < |ch|
    ensures Picks(Lose(ch, i), ch, seq(|ch| - 1, k => if k < i then k else k + 1))
  {
  }

  lemma DuplicatePicks(ch: seq<Datagram>, i: nat)
    requires i < |ch|
    ensures Picks(Duplicate(ch, i), ch, seq(|ch| + 1, k => if k <= i then k else k - 1))
  {
  }

  lemma PicksData(file: seq<Octet>, blksize: nat, s: System, ch: seq<Datagram>, from: seq<nat>)
    requires Inv(file, blksize, s) && Picks(ch, s.toClient, from)
    ensures Inv(file, blksize, s.(toClient := ch))
  {
  }

  lemma PicksAck(file: seq<Octet>, blksize: nat, s: System, ch: seq<Datagram>, from: seq<nat>)
    requires Inv(file, blksize, s) && Picks(ch, s.toServer, from)
    ensures Inv(file, blksize, s.(toServer := ch))
  {
  }

  lemma StepInv(file: seq<Octet>, blksize: nat, s: System, e: Event)
    requires blksize >= 1 && Inv(file, blksize, s) && Enabled(s, e)
    ensures Inv(file, blksize, Step(file, blksize, s, e))
  {
    match e
    case ServerTimeout => ServeInv(file, blksize, s, Timeout, 0);
    case ServerReceives => ServerReceivesInv(file, blksize, s);
    case ClientReceives => ClientReceivesInv(file, blksize, s);
    case ClientRepeats =>
    case LoseData(i) =>
      LosePicks(s.toClient, i);
      PicksData(file, blksize, s, Lose(s.toClient, i), seq(|s.toClient| - 1, k => if k < i then k else k + 1));
    case LoseAck(i) =>
      LosePicks(s.toServer, i);
      PicksAck(file, blksize, s, Lose(s.toServer, i), seq(|s.toServer| - 1, k => if k < i then k else k + 1));
    case DuplicateData(i) =>
      DuplicatePicks(s.toClient, i);
      PicksData(file, blksize, s, Duplicate(s.toClient, i), seq(|s.toClient| + 1, k => if k <= i then k else k - 1));
    case DuplicateAck(i) =>
      DuplicatePicks(s.toServer, i);
      PicksAck(file, blksize, s, Duplicate(s.toServer, i), seq(|s.toServer| + 1, k => if k <= i then k else k - 1));
  }

  lemma {:induction false} RunInv(file: seq<Octet>, blksize: nat, s: System, es: seq<Event>, t: System)
    requires blksize >= 1 && Inv(file, blksize, s) && Leads(file, blksize, s, es, t)
    ensures Inv(file, blksize, t)
    decreases |es|
  {
    if es != [] {
      StepInv(file, blksize, s, es[0]);
      RunInv(file, blksize, Step(file, blksize, s, es[0]), es[1..], t);
    }
  }

  // ----- the promises -----

  /** At any time the client holds a prefix of the file; it knows when it holds all of it. */
  lemma ClientHoldsPrefix(file: seq<Octet>, blksize: nat, es: seq<Event>, t: System)
    requires blksize >= 1 && Leads(file, blksize, Begin(file, blksize), es, t)
    ensures t.client.got <= file && (t.client.complete ==> t.client.got == file)
  {
    RunInv(file, blksize, Begin(file, blksize), es, t);
  }

  /** When the server reports completion, the client holds the whole file. */
  lemma CompleteMeansDelivered(file: seq<Octet>, blksize: nat, es: seq<Event>, t: System)
    requires blksize >= 1 && Leads(file, blksize, Begin(file, blksize), es, t) && t.server.phase.Done?
    ensures t.client.got == file && t.client.complete
  {
    RunInv(file, blksize, Begin(file, blksize), es, t);
  }

  lemma AtLeastOne(x: int, blksize: nat)
    requires x >= 1
    ensures x * blksize >= blksize
  {
  }

  lemma BlockCount(len: nat, blksize: nat, k: nat)
    requires blksize >= 1
    ensures k * blksize <= len ==> k <= len / blksize
  {
    if k > len / blksize {
      AtLeastOne(k - len / blksize, blksize);
      assert len < (len / blksize) * blksize + blksize <= k * blksize;
    }
  }

  lemma SentBound(file: seq<Octet>, blksize: nat, s: Server)
    requires blksize >= 1 && ServerOk(file, blksize, s)
    ensures s.sent <= 5 * (|file| / blksize + 1)
  {
    if s.phase.Done? {
      BlockCount(|file|, blksize, s.blockNum - 2);
    } else if !s.phase.OackWait? {
      BlockCount(|file|, blksize, s.blockNum - 1);
    }
  }

  /** At most five packets a block, the empty or short last block included. */
  lemma PacketBound(file: seq<Octet>, blksize: nat, es: seq<Event>, t: System)
    requires blksize >= 1 && Leads(file, blksize, Begin(file, blksize), es, t)
    ensures t.server.sent <= 5 * (|file| / blksize + 1)
  {
    RunInv(file, blksize, Begin(file, blksize), es, t);
    SentBound(file, blksize, t.server);
  }

  /** With a block size of zero no transfer ever completes, whatever the client does. */
  lemma {:induction false} ZeroNeverCompletes(file: seq<Octet>, s: System, es: seq<Event>, t: System)
    requires Leads(file, 0, s, es, t) && !s.server.phase.Done?
    ensures !t.server.phase.Done?
    decreases |es|
  {
    if es != [] {
      ZeroNeverCompletes(file, Step(file, 0, s, es[0]), es[1..], t);
    }
  }
}
