/** The server of the protocol on its own, reply by reply: when it stops, and when it completes. */
module TftpTrail {
  import opened Tftp
  import opened TftpSafety

  /** The server after `n` replies. */
  function ServerAt(file: seq<Octet>, blksize: nat, recv: nat -> Reply, n: nat): Server {
    if n == 0 then Start(blksize).server
    else React(file, blksize, ServerAt(file, blksize, recv, n - 1), recv(n - 1)).server
  }

  /** All that it sent by then. */
  function Sent(file: seq<Octet>, blksize: nat, recv: nat -> Reply, n: nat): seq<Packet> {
    if n == 0 then [Sends(file, blksize, Start(blksize).server).packet]
    else
      var x := React(file, blksize, ServerAt(file, blksize, recv, n - 1), recv(n - 1));
      Sent(file, blksize, recv, n - 1) + if x.sends then [Sends(file, blksize, x.server).packet] else []
  }

  predicate Stopped(s: Server) { s.phase.Done? || s.phase.Failed? }

  /** Once it stopped, nothing moves the server. */
  lemma {:induction false} StaysStopped(file: seq<Octet>, blksize: nat, recv: nat -> Reply, a: nat, b: nat)
    requires a <= b && Stopped(ServerAt(file, blksize, recv, a))
    ensures ServerAt(file, blksize, recv, b) == ServerAt(file, blksize, recv, a)
    decreases b
  {
    if a < b { StaysStopped(file, blksize, recv, a, b - 1); }
  }

  // ----- a client that answers -----

  /** The acknowledgement that the server waits for. */
  function Wanted(s: Server): Reply { Acked(if s.phase.OackWait? then 0 else Wire(s.blockNum)) }

  /** The first `n` replies are the acknowledgements asked for. */
  ghost predicate Answers(file: seq<Octet>, blksize: nat, recv: nat -> Reply, n: nat) {
    forall i: nat :: i < n ==> AnswersAt(file, blksize, recv, i)
  }

  ghost predicate AnswersAt(file: seq<Octet>, blksize: nat, recv: nat -> Reply, i: nat) {
    recv(i) == Wanted(ServerAt(file, blksize, recv, i))
  }

  /** How many blocks the server is on after `n` answers. */
  function Reached(blksize: nat, n: nat): nat { if blksize == 512 then n + 1 else if n == 0 then 1 else n }

  lemma AnswerZero(file: seq<Octet>, s: Server)
    requires !Stopped(s)
    ensures var s1 := React(file, 0, s, Wanted(s)).server;
      s1.phase == Wait(1) && s1.blockNum == if s.phase.OackWait? then s.blockNum else s.blockNum + 1
  {
  }

  /** With a block size of zero an answer only brings the next empty block. */
  lemma {:induction false} ZeroGoesOn(file: seq<Octet>, recv: nat -> Reply, n: nat)
    requires Answers(file, 0, recv, n)
    ensures OnBlock(ServerAt(file, 0, recv, n), 0, n)
  {
    if n > 0 {
      ZeroGoesOn(file, recv, n - 1);
      assert AnswersAt(file, 0, recv, n - 1);
      AnswerZero(file, ServerAt(file, 0, recv, n - 1));
    }
  }

  /** The server waits for the answer to the block that `n` answers lead to. */
  ghost predicate OnBlock(s: Server, blksize: nat, n: nat) {
    !Stopped(s) && s.blockNum == Reached(blksize, n) && (s.phase.OackWait? <==> n == 0 && blksize != 512)
  }

  lemma AnswerBlock(file: seq<Octet>, blksize: nat, s: Server, n: nat)
    requires blksize >= 1 && ServerOk(file, blksize, s) && (OnBlock(s, blksize, n) || s.phase.Done?)
    ensures var s1 := React(file, blksize, s, Wanted(s)).server;
      ServerOk(file, blksize, s1) && (OnBlock(s1, blksize, n + 1) || s1.phase.Done?)
  {
    ReactOk(file, blksize, s, Wanted(s));
  }

  lemma {:induction false} AnsweredBlocks(file: seq<Octet>, blksize: nat, recv: nat -> Reply, n: nat)
    requires blksize >= 1 && Answers(file, blksize, recv, n)
    ensures var s := ServerAt(file, blksize, recv, n);
      ServerOk(file, blksize, s) && (OnBlock(s, blksize, n) || s.phase.Done?)
  {
    if n > 0 {
      AnsweredBlocks(file, blksize, recv, n - 1);
      assert AnswersAt(file, blksize, recv, n - 1);
      AnswerBlock(file, blksize, ServerAt(file, blksize, recv, n - 1), n - 1);
    }
  }

  lemma FarEnough(file: seq<Octet>, blksize: nat, s: Server, n: nat)
    requires blksize >= 1 && ServerOk(file, blksize, s) && OnBlock(s, blksize, n)
    ensures n < |file| / blksize + 2
  {
    if !s.phase.OackWait? { BlockCount(|file|, blksize, s.blockNum - 1); }
  }

  /** With any other block size the transfer is over after one answer a block, and one for the options. */
  lemma AnsweredCompletes(file: seq<Octet>, blksize: nat, recv: nat -> Reply, n: nat)
    requires blksize >= 1 && Answers(file, blksize, recv, n) && n >= |file| / blksize + 2
    ensures ServerAt(file, blksize, recv, n).phase.Done?
  {
    var s := ServerAt(file, blksize, recv, n);
    AnsweredBlocks(file, blksize, recv, n);
    if OnBlock(s, blksize, n) { FarEnough(file, blksize, s, n); }
  }

  /** A transfer with a client that always answers completes exactly when the block size is not zero. */
  lemma AnsweredCompletesIff(file: seq<Octet>, blksize: nat, recv: nat -> Reply)
    requires forall n: nat :: Answers(file, blksize, recv, n)
    ensures blksize >= 1 <==> exists n: nat :: ServerAt(file, blksize, recv, n).phase.Done?
    ensures blksize == 0 <==> forall n: nat :: !Stopped(ServerAt(file, blksize, recv, n))
  {
    if blksize == 0 {
      forall n: nat ensures !Stopped(ServerAt(file, blksize, recv, n)) { ZeroGoesOn(file, recv, n); }
    } else {
      AnsweredCompletes(file, blksize, recv, |file| / blksize + 2);
    }
  }

  /** The server after `n` answers, and the client that gives them. */
  function Answered(file: seq<Octet>, blksize: nat, n: nat): Server {
    if n == 0 then Start(blksize).server
    else
      var s := Answered(file, blksize, n - 1);
      React(file, blksize, s, Wanted(s)).server
  }

  function Patient(file: seq<Octet>, blksize: nat): nat -> Reply { (i: nat) => Wanted(Answered(file, blksize, i)) }

  ghost predicate Gives(file: seq<Octet>, blksize: nat, recv: nat -> Reply, i: nat) {
    recv(i) == Wanted(Answered(file, blksize, i))
  }

  lemma {:induction false} GivenAnswers(file: seq<Octet>, blksize: nat, recv: nat -> Reply, n: nat)
    requires forall i: nat :: Gives(file, blksize, recv, i)
    ensures ServerAt(file, blksize, recv, n) == Answered(file, blksize, n) && AnswersAt(file, blksize, recv, n)
  {
    assert Gives(file, blksize, recv, n);
    if n > 0 {
      GivenAnswers(file, blksize, recv, n - 1);
      assert Gives(file, blksize, recv, n - 1);
    }
  }

  /** There is a client that always answers. */
  lemma PatientAnswers(file: seq<Octet>, blksize: nat, n: nat)
    ensures Answers(file, blksize, Patient(file, blksize), n)
  {
    var recv := Patient(file, blksize);
    forall i: nat ensures Gives(file, blksize, recv, i) { }
    forall i: nat | i < n ensures AnswersAt(file, blksize, recv, i) { GivenAnswers(file, blksize, recv, i); }
  }

  // ----- block size zero: exactly when the server stops -----

  /** The block the client is to acknowledge after `n` replies, the first of which is for the options. */
  function Asking(recv: nat -> Reply, n: nat): nat {
    if n <= 1 then 1
    else
      var b := Asking(recv, n - 1);
      if recv(n - 1) == Acked(Wire(b)) then b + 1 else b
  }

  /** The options are not acknowledged, or five replies in a row leave out the block asked for. */
  ghost predicate Neglected(recv: nat -> Reply) {
    recv(0) != Acked(0) || exists n: nat :: LeftOut(recv, n)
  }

  predicate Misses(recv: nat -> Reply, i: nat, block: nat) { recv(i) != Acked(Wire(block)) }

  ghost predicate LeftOut(recv: nat -> Reply, n: nat) {
    n >= 1 && forall i: nat :: n <= i < n + 5 ==> Misses(recv, i, Asking(recv, n))
  }

  /** The server counts with the client, and its tries are the replies that left the block out. */
  ghost predicate InStep(recv: nat -> Reply, s: Server, n: nat) {
    var holds :=
      && n >= 1 && s.phase.Wait? && s.blockNum == Asking(recv, n) && 1 <= s.phase.tries <= 5 && s.phase.tries <= n
      && Asking(recv, n + 1 - s.phase.tries) == s.blockNum
      && forall i: nat :: n + 1 - s.phase.tries <= i < n ==> Misses(recv, i, s.blockNum);
    holds
  }

  lemma ZeroStep(file: seq<Octet>, recv: nat -> Reply, s: Server, n: nat)
    requires InStep(recv, s, n)
    ensures var s1 := React(file, 0, s, recv(n)).server;
      InStep(recv, s1, n + 1) || (s1.phase.Failed? && n >= 5 && LeftOut(recv, n - 4))
  {
  }

  lemma {:induction false} ZeroInStep(file: seq<Octet>, recv: nat -> Reply, n: nat)
    requires n >= 1 && recv(0) == Acked(0)
    ensures var s := ServerAt(file, 0, recv, n);
      InStep(recv, s, n) || (s.phase.Failed? && Neglected(recv))
  {
    if n > 1 {
      ZeroInStep(file, recv, n - 1);
      var s := ServerAt(file, 0, recv, n - 1);
      if InStep(recv, s, n - 1) { ZeroStep(file, recv, s, n - 1); }
    }
  }

  lemma {:induction false} AskingStays(recv: nat -> Reply, n: nat, k: nat)
    requires LeftOut(recv, n) && k <= 5
    ensures Asking(recv, n + k) == Asking(recv, n)
  {
    if k > 0 {
      AskingStays(recv, n, k - 1);
      assert Misses(recv, n + k - 1, Asking(recv, n));
    }
  }

  /** Given up, or past try `k`. */
  predicate Tried(s: Server, k: nat) { s.phase.Failed? || (s.phase.Wait? && s.phase.tries > k) }

  /** A reply that leaves the block out costs a try. */
  lemma TryLost(file: seq<Octet>, recv: nat -> Reply, s: Server, n: nat, k: nat)
    requires InStep(recv, s, n) && Tried(s, k) && Misses(recv, n, Asking(recv, n))
    ensures Tried(React(file, 0, s, recv(n)).server, k + 1)
  {
  }

  lemma LeftOutTry(file: seq<Octet>, recv: nat -> Reply, n: nat, k: nat)
    requires n >= 1 && recv(0) == Acked(0) && Misses(recv, n, Asking(recv, n)) && Tried(ServerAt(file, 0, recv, n), k)
    ensures Tried(ServerAt(file, 0, recv, n + 1), k + 1)
  {
    var s := ServerAt(file, 0, recv, n);
    ZeroInStep(file, recv, n);
    if InStep(recv, s, n) { TryLost(file, recv, s, n, k); }
  }

  lemma {:induction false} LeftOutTries(file: seq<Octet>, recv: nat -> Reply, n: nat, k: nat)
    requires recv(0) == Acked(0) && LeftOut(recv, n) && k <= 5
    ensures Tried(ServerAt(file, 0, recv, n + k), k)
  {
    if k == 0 {
      ZeroInStep(file, recv, n);
    } else {
      LeftOutTries(file, recv, n, k - 1);
      AskingStays(recv, n, k - 1);
      LeftOutTry(file, recv, n + k - 1, k - 1);
    }
  }

  /** There is no sixth try. */
  lemma LeftOutStops(file: seq<Octet>, recv: nat -> Reply, n: nat)
    requires recv(0) == Acked(0) && LeftOut(recv, n)
    ensures ServerAt(file, 0, recv, n + 5).phase.Failed?
  {
    LeftOutTries(file, recv, n, 5);
    ZeroInStep(file, recv, n + 5);
  }

  /** With a block size of zero the server stops exactly when the client neglects it, and then it has failed. */
  lemma ZeroStopsIff(file: seq<Octet>, recv: nat -> Reply)
    ensures Neglected(recv) <==> exists n: nat :: Stopped(ServerAt(file, 0, recv, n))
    ensures forall n: nat :: !ServerAt(file, 0, recv, n).phase.Done?
  {
    forall n: nat ensures !ServerAt(file, 0, recv, n).phase.Done? { ZeroNeverDone(file, recv, n); }
    if recv(0) != Acked(0) {
      assert Stopped(ServerAt(file, 0, recv, 1));
    } else if Neglected(recv) {
      var n: nat :| LeftOut(recv, n);
      LeftOutStops(file, recv, n);
      assert Stopped(ServerAt(file, 0, recv, n + 5));
    } else if n: nat :| Stopped(ServerAt(file, 0, recv, n)) {
      if n > 0 { ZeroInStep(file, recv, n); }
    }
  }

  lemma {:induction false} ZeroNeverDone(file: seq<Octet>, recv: nat -> Reply, n: nat)
    ensures !ServerAt(file, 0, recv, n).phase.Done?
  {
    if n > 0 { ZeroNeverDone(file, recv, n - 1); }
  }

  // ----- the server in a run of the protocol -----

  /** The replies that the server consumes along a run. */
  ghost function Heard(file: seq<Octet>, blksize: nat, s: System, es: seq<Event>): seq<Reply>
    decreases |es|
  {
    if es == [] || !Enabled(s, es[0]) then []
    else
      var rest := Heard(file, blksize, Step(file, blksize, s, es[0]), es[1..]);
      match es[0]
      case ServerTimeout => [Timeout] + rest
      case ServerReceives => [ReplyOf(s.toServer[0].packet)] + rest
      case _ => rest
  }

  function Played(file: seq<Octet>, blksize: nat, s: Server, rs: seq<Reply>): Server
    decreases |rs|
  {
    if rs == [] then s else React(file, blksize, Played(file, blksize, s, rs[..|rs| - 1]), rs[|rs| - 1]).server
  }

  lemma {:induction false} PlayedFirst(file: seq<Octet>, blksize: nat, s: Server, r: Reply, rs: seq<Reply>)
    ensures Played(file, blksize, s, [r] + rs) == Played(file, blksize, React(file, blksize, s, r).server, rs)
    decreases |rs|
  {
    var all := [r] + rs;
    if rs == [] {
      assert all[..0] == [];
    } else {
      assert all[..|all| - 1] == [r] + rs[..|rs| - 1];
      PlayedFirst(file, blksize, s, r, rs[..|rs| - 1]);
    }
  }

  lemma {:induction false} RunPlays(file: seq<Octet>, blksize: nat, s: System, es: seq<Event>, t: System)
    requires Leads(file, blksize, s, es, t)
    ensures t.server == Played(file, blksize, s.server, Heard(file, blksize, s, es))
    decreases |es|
  {
    if es != [] {
      var s1 := Step(file, blksize, s, es[0]);
      RunPlays(file, blksize, s1, es[1..], t);
      var rest := Heard(file, blksize, s1, es[1..]);
      if es[0].ServerTimeout? {
        PlayedFirst(file, blksize, s.server, Timeout, rest);
      } else if es[0].ServerReceives? {
        PlayedFirst(file, blksize, s.server, ReplyOf(s.toServer[0].packet), rest);
      }
    }
  }

  ghost predicate Begins(recv: nat -> Reply, rs: seq<Reply>) { forall i: nat :: i < |rs| ==> recv(i) == rs[i] }

  lemma {:induction false} FollowPlays(file: seq<Octet>, blksize: nat, recv: nat -> Reply, rs: seq<Reply>)
    requires Begins(recv, rs)
    ensures ServerAt(file, blksize, recv, |rs|) == Played(file, blksize, Start(blksize).server, rs)
    decreases |rs|
  {
    if rs != [] { FollowPlays(file, blksize, recv, rs[..|rs| - 1]); }
  }

  /** Along every run the server is the one that the loops follow, on the replies it consumed. */
  lemma RunFollows(file: seq<Octet>, blksize: nat, es: seq<Event>, t: System, recv: nat -> Reply)
    requires Leads(file, blksize, Begin(file, blksize), es, t)
    requires Begins(recv, Heard(file, blksize, Begin(file, blksize), es))
    ensures ServerAt(file, blksize, recv, |Heard(file, blksize, Begin(file, blksize), es)|) == t.server
  {
    RunPlays(file, blksize, Begin(file, blksize), es, t);
    FollowPlays(file, blksize, recv, Heard(file, blksize, Begin(file, blksize), es));
  }

  /** So when the loops report completion on the replies of a run, the client of that run holds the file. */
  lemma LoopsDeliver(file: seq<Octet>, blksize: nat, es: seq<Event>, t: System, recv: nat -> Reply)
    requires blksize >= 1 && Leads(file, blksize, Begin(file, blksize), es, t)
    requires Begins(recv, Heard(file, blksize, Begin(file, blksize), es))
    requires ServerAt(file, blksize, recv, |Heard(file, blksize, Begin(file, blksize), es)|).phase.Done?
    ensures t.client.got == file && t.client.complete
  {
    RunFollows(file, blksize, es, t, recv);
    CompleteMeansDelivered(file, blksize, es, t);
  }
}
