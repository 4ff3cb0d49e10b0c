/** handle_client as it runs: the loops follow the server of the protocol, reply by reply. */
module TftpServer {
  import opened Tftp
  import opened TftpTrail

  /** The server, and all it sent so far. */
  datatype Trail = Trail(server: Server, log: seq<Packet>)

  function Next(file: seq<Octet>, blksize: nat, t: Trail, r: Reply): Trail {
    var x := React(file, blksize, t.server, r);
    Trail(x.server, t.log + if x.sends then [Sends(file, blksize, x.server).packet] else [])
  }

  /** After `n` replies. */
  function Follow(file: seq<Octet>, blksize: nat, recv: nat -> Reply, n: nat): Trail {
    Trail(ServerAt(file, blksize, recv, n), Sent(file, blksize, recv, n))
  }

  lemma FollowNext(file: seq<Octet>, blksize: nat, recv: nat -> Reply, n: nat)
    ensures Follow(file, blksize, recv, n + 1) == Next(file, blksize, Follow(file, blksize, recv, n), recv(n))
  {
  }

  /** Waiting for the `tries`-th answer to block `blockNum`, whose packet ends the log. */
  ghost predicate Asked(file: seq<Octet>, blksize: nat, t: Trail, tries: nat, blockNum: nat, offset: nat,
                        log: seq<Packet>) {
    && t.server.phase == Wait(tries) && t.server.blockNum == blockNum && t.server.offset == offset
    && t.log == log + [Data(Wire(blockNum), Chunk(file, offset, blksize))]
  }

  lemma NextOnReply(file: seq<Octet>, blksize: nat, t: Trail, r: Reply, tries: nat, blockNum: nat, offset: nat,
                    log: seq<Packet>)
    requires Asked(file, blksize, t, tries, blockNum, offset, log)
    ensures var t1, chunk := Next(file, blksize, t, r), Chunk(file, offset, blksize);
      if r != Acked(Wire(blockNum)) then
        if tries < 5 then Asked(file, blksize, t1, tries + 1, blockNum, offset, t.log)
        else t1.server.phase.Failed? && t1.log == t.log
      else if |chunk| < blksize then t1.server.phase.Done? && t1.log == t.log
      else Asked(file, blksize, t1, 1, blockNum + 1, offset + |chunk|, t.log)
  {
  }

  /** The retry loop for one block. */
  method SendBlock(file: seq<Octet>, blksize: nat, recv: nat -> Reply, blockNum: nat, offset: nat,
                   log0: seq<Packet>, used0: nat)
    returns (acked: bool, log: seq<Packet>, used: nat)
    requires Asked(file, blksize, Follow(file, blksize, recv, used0), 1, blockNum, offset, log0)
    ensures used > used0
    ensures var t, chunk := Follow(file, blksize, recv, used), Chunk(file, offset, blksize);
      if !acked then t.server.phase.Failed? && t.log == log
      else if |chunk| < blksize then t.server.phase.Done? && t.log == log
      else Asked(file, blksize, t, 1, blockNum + 1, offset + |chunk|, log)
  {
    var pkt := Data(Wire(blockNum), Chunk(file, offset, blksize));
    log, used, acked := log0, used0, false;
    var retry := 0;
    while retry < 5
      invariant retry <= 5 && used == used0 + retry
      invariant var t := Follow(file, blksize, recv, used);
        if retry < 5 then Asked(file, blksize, t, retry + 1, blockNum, offset, log)
        else t.server.phase.Failed? && t.log == log
    {
      NextOnReply(file, blksize, Follow(file, blksize, recv, used), recv(used), retry + 1, blockNum, offset, log);
      FollowNext(file, blksize, recv, used);
      log := log + [pkt];
      var r := recv(used);
      used := used + 1;
      if r.Acked? && r.num == Wire(blockNum) {
        acked := true;
        break;
      }
      retry := retry + 1;
    }
  }

  /** How the server stands when it has stopped is how the transfer ends. */
  lemma Outcome(file: seq<Octet>, blksize: nat, recv: nat -> Reply, used: nat)
    requires Stopped(ServerAt(file, blksize, recv, used))
    ensures ServerAt(file, blksize, recv, used).phase.Done? <==>
      exists n: nat :: ServerAt(file, blksize, recv, n).phase.Done?
    ensures blksize >= 1 && Answers(file, blksize, recv, |file| / blksize + 2) ==>
      ServerAt(file, blksize, recv, used).phase.Done?
  {
    forall n: nat | ServerAt(file, blksize, recv, n).phase.Done?
      ensures ServerAt(file, blksize, recv, used).phase.Done?
    {
      if n <= used { StaysStopped(file, blksize, recv, n, used); } else { StaysStopped(file, blksize, recv, used, n); }
    }
    if blksize >= 1 && Answers(file, blksize, recv, |file| / blksize + 2) {
      AnsweredCompletes(file, blksize, recv, |file| / blksize + 2);
    }
  }

  /** A server that waits has not stopped before. */
  lemma NotYet(file: seq<Octet>, blksize: nat, recv: nat -> Reply, stop: nat, used: nat)
    requires Stopped(ServerAt(file, blksize, recv, stop)) && !Stopped(ServerAt(file, blksize, recv, used))
    ensures used < stop
  {
    if stop <= used { StaysStopped(file, blksize, recv, stop, used); }
  }

  /**
    handle_client on a file that could be read.  `recv(i)` is what the i-th
    recvfrom gives; the result says whether the transfer is reported complete.
    With a block size of zero the loop ends only if the client neglects a block.
   */
  method HandleClient(file: seq<Octet>, blksize: nat, recv: nat -> Reply)
    returns (ok: bool, log: seq<Packet>, used: nat)
    requires blksize == 0 ==> Neglected(recv)
    ensures var t := Follow(file, blksize, recv, used);
      t.log == log && t.server.phase == if ok then Done else Failed
    ensures ok <==> exists n: nat :: ServerAt(file, blksize, recv, n).phase.Done?
    ensures blksize >= 1 && Answers(file, blksize, recv, |file| / blksize + 2) ==> ok
  {
    ghost var stop: nat := 0;
    if blksize == 0 {
      ZeroStopsIff(file, recv);
      stop :| Stopped(ServerAt(file, 0, recv, stop));
    }
    used, log := 0, [];
    if blksize != 512 {
      log := [Oack];
      FollowNext(file, blksize, recv, 0);
      var r := recv(0);
      used := 1;
      if r != Acked(0) {
        Outcome(file, blksize, recv, used);
        return false, log, used;
      }
    }
    var offset: nat, blockNum: nat := 0, 1;
    while true
      invariant offset <= |file| && Asked(file, blksize, Follow(file, blksize, recv, used), 1, blockNum, offset, log)
      decreases if blksize == 0 then stop - used else |file| - offset
    {
      if blksize == 0 { NotYet(file, blksize, recv, stop, used); }
      var acked;
      acked, log, used := SendBlock(file, blksize, recv, blockNum, offset, log, used);
      if !acked {
        Outcome(file, blksize, recv, used);
        return false, log, used;
      }
      var chunk := Chunk(file, offset, blksize);
      offset := offset + |chunk|;
      blockNum := blockNum + 1;
      if |chunk| < blksize {
        Outcome(file, blksize, recv, used);
        return true, log, used;
      }
    }
  }
}
