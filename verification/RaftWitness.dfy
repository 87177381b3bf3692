// A run in which a leader is elected, replicates a command and commits it, so that what RaftSafety
// says of runs is said of something.
module RaftWitness {
  import opened Core
  import opened RaftTypes
  import opened RaftPeer
  import opened Cluster
  import Safety = RaftSafety

  const COMMAND: Command := Submitted(7, Install(0, 1, map["" := VersionedValue("v", 1)]))
  const ENTRY: Entry := Entry(1, 1, COMMAND)
  const VOTE: RequestVoteArgs := RequestVoteArgs(1, 0, 0, 0)
  const GRANT: RequestVoteReply := RequestVoteReply(0, true)
  const APPEND: AppendEntriesArgs := AppendEntriesArgs(1, 0, 0, 0, [ENTRY], 0)
  const TAKEN: AppendEntriesReply := AppendEntriesReply(1, true, 0, 0, 0)

  /** The third peer, which nobody ever hears of. */
  const SILENT: Peer := Make(2, 3, Disk(None, None))

  /** Peer me of three in term 1, having voted for peer 0, with what it holds on disk. */
  function Voted(me: nat, log: seq<Entry>): Peer {
    Make(me, 3, Disk(Some(Durable(1, 0, log, 0, 0)), None))
  }

  function Candidate0(): Peer {
    Voted(0, [DUMMY]).(role := Candidate, votes := 1, waiting := {1, 2})
  }

  function Leader0(log: seq<Entry>, match1: nat, commitIndex: nat): Peer {
    Voted(0, log).(role := Leader, votes := 2, waiting := {2}, nextIndex := [1, match1 + 1, 1], matchIndex := [0, match1, 0],
                   commitIndex := commitIndex)
  }

  lemma Elects() returns (c0: Cluster, c1: Cluster)
    ensures Initial(c0) && Transition(c0, ElectionTimeout(0), c1)
    ensures c1.peers == [Candidate0(), Make(1, 3, Disk(None, None)), SILENT] && VoteReq(1, VOTE) in c1.net
  {
    c0 := Cluster([Make(0, 3, Disk(None, None)), Make(1, 3, Disk(None, None)), SILENT], {});
    assert Others(3, 0) == {1, 2};
    assert StartElection(c0.peers[0]) == Candidate0();
    c1 := Cluster(c0.peers[0 := Candidate0()], Sent(c0, ElectionTimeout(0)));
    assert VoteReq(1, VOTE) in Sent(c0, ElectionTimeout(0));
  }

  lemma Votes(c: Cluster) returns (c': Cluster)
    requires c.peers == [Candidate0(), Make(1, 3, Disk(None, None)), SILENT] && VoteReq(1, VOTE) in c.net
    ensures Transition(c, Deliver(VoteReq(1, VOTE)), c')
    ensures c'.peers == [Candidate0(), Voted(1, [DUMMY]), SILENT] && VoteRep(1, VOTE, GRANT) in c'.net
  {
    assert RequestVote(c.peers[1], VOTE) == (Voted(1, [DUMMY]), GRANT);
    c' := Cluster(c.peers[1 := Voted(1, [DUMMY])], c.net + {VoteRep(1, VOTE, GRANT)});
  }

  lemma Wins(c: Cluster) returns (c': Cluster)
    requires c.peers == [Candidate0(), Voted(1, [DUMMY]), SILENT] && VoteRep(1, VOTE, GRANT) in c.net
    ensures Transition(c, Deliver(VoteRep(1, VOTE, GRANT)), c')
    ensures c'.peers == [Leader0([DUMMY], 0, 0), Voted(1, [DUMMY]), SILENT]
  {
    assert VoteReply(Candidate0(), 1, 1, GRANT) == Leader0([DUMMY], 0, 0);
    c' := Cluster(c.peers[0 := Leader0([DUMMY], 0, 0)], c.net + {});
  }

  lemma Proposes(c: Cluster) returns (c': Cluster)
    requires c.peers == [Leader0([DUMMY], 0, 0), Voted(1, [DUMMY]), SILENT]
    ensures Transition(c, ClientCommand(0, COMMAND), c')
    ensures c'.peers == [Leader0([DUMMY, ENTRY], 0, 0), Voted(1, [DUMMY]), SILENT]
  {
    assert [DUMMY] + [ENTRY] == [DUMMY, ENTRY];
    assert Start(c.peers[0], COMMAND).0 == Leader0([DUMMY, ENTRY], 0, 0);
    c' := Cluster(c.peers[0 := Leader0([DUMMY, ENTRY], 0, 0)], c.net + {});
  }

  lemma Sends(c: Cluster) returns (c': Cluster)
    requires c.peers == [Leader0([DUMMY, ENTRY], 0, 0), Voted(1, [DUMMY]), SILENT]
    ensures Transition(c, SendAppend(0, 1), c')
    ensures c'.peers == c.peers && AppendReq(1, APPEND) in c'.net
  {
    assert [DUMMY, ENTRY][1..] == [ENTRY];
    assert AppendRequest(c.peers[0], 1) == Some(APPEND);
    c' := Cluster(c.peers[0 := c.peers[0]], c.net + {AppendReq(1, APPEND)});
  }

  lemma Takes(c: Cluster) returns (c': Cluster)
    requires c.peers == [Leader0([DUMMY, ENTRY], 0, 0), Voted(1, [DUMMY]), SILENT] && AppendReq(1, APPEND) in c.net
    ensures Transition(c, Deliver(AppendReq(1, APPEND)), c')
    ensures c'.peers == [Leader0([DUMMY, ENTRY], 0, 0), Voted(1, [DUMMY, ENTRY]), SILENT] && AppendRep(1, APPEND, TAKEN) in c'.net
  {
    assert Matched([DUMMY], 1, [ENTRY], 0) == 0;
    assert [DUMMY][..1] + [ENTRY][0..] == [DUMMY, ENTRY];
    assert TakeEntries(Voted(1, [DUMMY]), APPEND) == Voted(1, [DUMMY, ENTRY]);
    assert AppendEntries(c.peers[1], APPEND) == (Voted(1, [DUMMY, ENTRY]), TAKEN);
    c' := Cluster(c.peers[1 := Voted(1, [DUMMY, ENTRY])], c.net + {AppendRep(1, APPEND, TAKEN)});
  }

  lemma Commits(c: Cluster) returns (c': Cluster)
    requires c.peers == [Leader0([DUMMY, ENTRY], 0, 0), Voted(1, [DUMMY, ENTRY]), SILENT] && AppendRep(1, APPEND, TAKEN) in c.net
    ensures Transition(c, Deliver(AppendRep(1, APPEND, TAKEN)), c')
    ensures c'.peers == [Leader0([DUMMY, ENTRY], 1, 1), Voted(1, [DUMMY, ENTRY]), SILENT]
  {
    var p := Progress(c.peers[0], 1, 1);
    assert p == Leader0([DUMMY, ENTRY], 1, 0);
    assert Holders(p, 1) == {1};
    assert NewCommit(p, 1) == 1;
    assert AppendReply(c.peers[0], 1, APPEND, TAKEN) == Leader0([DUMMY, ENTRY], 1, 1);
    c' := Cluster(c.peers[0 := Leader0([DUMMY, ENTRY], 1, 1)], c.net + {});
  }

  /** Two of three peers elect peer 0, and its first command is shown committed. */
  lemma ACommandCommits() returns (cs: seq<Cluster>, steps: seq<Step>)
    ensures Run(cs, steps)
    ensures var c := cs[|steps|];
            |c.peers| == 3 && c.peers[2] == SILENT && c.peers[0].role == Leader && Safety.ShowsCommitted(c.peers[0], 1)
  {
    hide Transition, Initial;
    var c0, c1 := Elects();
    var c2 := Votes(c1);
    var c3 := Wins(c2);
    var c4 := Proposes(c3);
    var c5 := Sends(c4);
    var c6 := Takes(c5);
    var c7 := Commits(c6);
    cs := [c0, c1, c2, c3, c4, c5, c6, c7];
    steps := [ElectionTimeout(0), Deliver(VoteReq(1, VOTE)), Deliver(VoteRep(1, VOTE, GRANT)), ClientCommand(0, COMMAND),
              SendAppend(0, 1), Deliver(AppendReq(1, APPEND)), Deliver(AppendRep(1, APPEND, TAKEN))];
  }
}
