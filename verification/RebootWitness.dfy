// What a reboot with a compacted log does to the replicated state machine: a run in which a replica
// compacts, reboots, leads again and answers a Submit from a state the compacted command never reached.
module RebootWitness {
  import opened Core
  import opened RaftTypes
  import opened RaftPeer
  import opened Cluster
  import opened ShardGroup
  import opened Rsm
  import opened RaftWitness
  import opened RsmWitness
  import Safety = RaftSafety

  const BASE: Entry := Entry(1, 1, NoCommand)
  const READ: Command := Submitted(8, Get(""))
  const NEXT: Entry := Entry(2, 2, READ)
  const VOTE2: RequestVoteArgs := RequestVoteArgs(2, 0, 1, 1)
  const GRANT2: RequestVoteReply := RequestVoteReply(1, true)
  const APPEND2: AppendEntriesArgs := AppendEntriesArgs(2, 0, 1, 1, [NEXT], 1)
  const TAKEN2: AppendEntriesReply := AppendEntriesReply(2, true, 0, 0, 0)

  /** The first peer restarted from a disk that holds the snapshot and what follows it. */
  function Based(term: nat, log: seq<Entry>): Peer {
    Make(0, 3, Disk(Some(Durable(term, 0, log, 1, 1)), Some(INSTALLED)))
  }

  function Leader2(log: seq<Entry>, next1: nat, match1: nat, commitIndex: nat): Peer {
    Based(2, log).(role := Leader, votes := 2, waiting := {2}, nextIndex := [2, next1, 2], matchIndex := [0, match1, 0],
                   commitIndex := commitIndex)
  }

  /** The first leader after its snapshot, and the candidate it is after its reboot. */
  function Compacted(): Peer {
    Based(1, [BASE]).(role := Leader, votes := 2, waiting := {2}, nextIndex := [1, 2, 1], matchIndex := [0, 1, 0])
  }

  function Candidate2(): Peer {
    Based(2, [BASE]).(role := Candidate, votes := 1, waiting := {1, 2})
  }

  /** The second peer in the first one's second term. */
  function Voted2(log: seq<Entry>): Peer {
    Make(1, 3, Disk(Some(Durable(2, 0, log, 0, 0)), None))
  }

  const DONE: Call := ANSWERED.(done := true)
  const CALL2: Call := Call(0, READ.payload, 2, 2, None, false)
  const WRONG: Reply := GetReply(ErrWrongGroup, "", 0)

  function Later(c: Cluster, r: Reader, calls: map<int, Call>): System {
    Sys(c, r, calls).(results := map[7 := REPLY])
  }

  // ---------- compaction and reboot ----------

  lemma Compacts(s: System) returns (c': Cluster)
    requires s == Idle(s.c)
    requires s.c.peers == [Leader0([DUMMY, ENTRY], 1, 1).(lastApplied := 1), Voted(1, [DUMMY, ENTRY]), SILENT]
    ensures Next(s, ReaderCompact(0, true), Later(c', Applied0().(notify := map[], compacting := false), map[7 := DONE]))
    ensures c'.peers == [Compacted(), Voted(1, [DUMMY, ENTRY]), SILENT]
  {
    var p := s.c.peers[0];
    var p' := Compacted();
    assert [BASE] + [DUMMY, ENTRY][2..] == [BASE];
    assert Compact(p, 1, INSTALLED) == p';
    c' := Cluster(s.c.peers[0 := p'], s.c.net + {});
    var r := s.readers[0];
    assert s.readers[0 := r.(compacting := false)] == [r.(compacting := false), NewReader(), NewReader()];
  }

  lemma Reboots(s: System) returns (c': Cluster)
    requires s == Later(s.c, Applied0().(notify := map[], compacting := false), map[7 := DONE])
    requires s.c.peers == [Compacted(), Voted(1, [DUMMY, ENTRY]), SILENT]
    ensures Next(s, Reboot(Restart(0)), Later(c', NewReader(), map[7 := DONE]))
    ensures c'.peers == [Based(1, [BASE]), Voted(1, [DUMMY, ENTRY]), SILENT]
  {
    c' := Cluster(s.c.peers[0 := Based(1, [BASE])], s.c.net + {});
    assert s.readers[0 := NewReader()] == [NewReader(), NewReader(), NewReader()];
    assert (map i | i in s.calls :: if s.calls[i].node == 0 then s.calls[i].(done := true) else s.calls[i]) == s.calls;
  }

  // ---------- the second term ----------

  lemma StandsAgain(c: Cluster) returns (c': Cluster)
    requires c.peers == [Based(1, [BASE]), Voted(1, [DUMMY, ENTRY]), SILENT]
    ensures Transition(c, ElectionTimeout(0), c') && VoteReq(1, VOTE2) in c'.net
    ensures c'.peers == [Candidate2(), Voted(1, [DUMMY, ENTRY]), SILENT]
  {
    var p' := Candidate2();
    assert Others(3, 0) == {1, 2};
    assert StartElection(c.peers[0]) == p';
    c' := Cluster(c.peers[0 := p'], c.net + Sent(c, ElectionTimeout(0)));
    assert VoteReq(1, VOTE2) in Sent(c, ElectionTimeout(0));
  }

  lemma VotesAgain(c: Cluster) returns (c': Cluster)
    requires c.peers == [Candidate2(), Voted(1, [DUMMY, ENTRY]), SILENT]
    requires VoteReq(1, VOTE2) in c.net
    ensures Transition(c, Deliver(VoteReq(1, VOTE2)), c') && VoteRep(1, VOTE2, GRANT2) in c'.net
    ensures c'.peers == [Candidate2(), Voted2([DUMMY, ENTRY]), SILENT]
  {
    assert RequestVote(c.peers[1], VOTE2) == (Voted2([DUMMY, ENTRY]), GRANT2);
    c' := Cluster(c.peers[1 := Voted2([DUMMY, ENTRY])], c.net + {VoteRep(1, VOTE2, GRANT2)});
  }

  lemma WinsAgain(c: Cluster) returns (c': Cluster)
    requires c.peers == [Candidate2(), Voted2([DUMMY, ENTRY]), SILENT]
    requires VoteRep(1, VOTE2, GRANT2) in c.net
    ensures Transition(c, Deliver(VoteRep(1, VOTE2, GRANT2)), c')
    ensures c'.peers == [Leader2([BASE], 2, 0, 1), Voted2([DUMMY, ENTRY]), SILENT]
  {
    assert VoteReply(c.peers[0], 1, 2, GRANT2) == Leader2([BASE], 2, 0, 1);
    c' := Cluster(c.peers[0 := Leader2([BASE], 2, 0, 1)], c.net + {});
  }

  lemma SubmitsAgain(s: System) returns (c': Cluster)
    requires s == Later(s.c, NewReader(), map[7 := DONE])
    requires s.c.peers == [Leader2([BASE], 2, 0, 1), Voted2([DUMMY, ENTRY]), SILENT]
    ensures Next(s, Submit(0, 8, READ.payload), Later(c', NewReader(), map[7 := DONE, 8 := CALL2]))
    ensures c'.peers == [Leader2([BASE, NEXT], 2, 0, 1), Voted2([DUMMY, ENTRY]), SILENT]
  {
    assert [BASE] + [NEXT] == [BASE, NEXT];
    assert Start(s.c.peers[0], READ) == (Leader2([BASE, NEXT], 2, 0, 1), 2, 2, true);
    c' := Cluster(s.c.peers[0 := Leader2([BASE, NEXT], 2, 0, 1)], s.c.net + {});
    assert s.calls[8 := CALL2] == map[7 := DONE, 8 := CALL2];
  }

  lemma SendsAgain(c: Cluster) returns (c': Cluster)
    requires c.peers == [Leader2([BASE, NEXT], 2, 0, 1), Voted2([DUMMY, ENTRY]), SILENT]
    ensures Transition(c, SendAppend(0, 1), c') && c'.peers == c.peers && AppendReq(1, APPEND2) in c'.net
  {
    assert [BASE, NEXT][1..] == [NEXT];
    assert AppendRequest(c.peers[0], 1) == Some(APPEND2);
    c' := Cluster(c.peers[0 := c.peers[0]], c.net + {AppendReq(1, APPEND2)});
  }

  lemma TakesAgain(c: Cluster) returns (c': Cluster)
    requires c.peers == [Leader2([BASE, NEXT], 2, 0, 1), Voted2([DUMMY, ENTRY]), SILENT] && AppendReq(1, APPEND2) in c.net
    ensures Transition(c, Deliver(AppendReq(1, APPEND2)), c') && AppendRep(1, APPEND2, TAKEN2) in c'.net
    ensures c'.peers == [Leader2([BASE, NEXT], 2, 0, 1), Voted2([DUMMY, ENTRY, NEXT]).(commitIndex := 1), SILENT]
  {
    assert Matched([DUMMY, ENTRY], 2, [NEXT], 0) == 0;
    assert [DUMMY, ENTRY][..2] + [NEXT][0..] == [DUMMY, ENTRY, NEXT];
    assert TakeEntries(Voted2([DUMMY, ENTRY]), APPEND2) == Voted2([DUMMY, ENTRY, NEXT]);
    var p' := Voted2([DUMMY, ENTRY, NEXT]).(commitIndex := 1);
    assert AppendEntries(c.peers[1], APPEND2) == (p', TAKEN2);
    c' := Cluster(c.peers[1 := p'], c.net + {AppendRep(1, APPEND2, TAKEN2)});
  }

  lemma CommitsAgain(c: Cluster) returns (c': Cluster)
    requires c.peers == [Leader2([BASE, NEXT], 2, 0, 1), Voted2([DUMMY, ENTRY, NEXT]).(commitIndex := 1), SILENT]
    requires AppendRep(1, APPEND2, TAKEN2) in c.net
    ensures Transition(c, Deliver(AppendRep(1, APPEND2, TAKEN2)), c')
    ensures c'.peers == [Leader2([BASE, NEXT], 3, 2, 2), Voted2([DUMMY, ENTRY, NEXT]).(commitIndex := 1), SILENT]
  {
    var p := Progress(c.peers[0], 1, 2);
    assert p == Leader2([BASE, NEXT], 3, 2, 1);
    assert Holders(p, 2) == {1};
    assert NewCommit(p, 2) == 2;
    assert AppendReply(c.peers[0], 1, APPEND2, TAKEN2) == Leader2([BASE, NEXT], 3, 2, 2);
    c' := Cluster(c.peers[0 := Leader2([BASE, NEXT], 3, 2, 2)], c.net + {});
  }

  // ---------- the reader ----------

  function Waiting2(): Reader {
    NewReader().(notify := map[2 := 8])
  }

  lemma AppliesAgain(c: Cluster) returns (c': Cluster)
    requires c.peers == [Leader2([BASE, NEXT], 3, 2, 2), Voted2([DUMMY, ENTRY, NEXT]).(commitIndex := 1), SILENT]
    ensures Transition(c, ApplierRound(0), c') && Apply(c.peers[0]).1 == [CommandMsg(READ, 2)]
    ensures c'.peers == [Leader2([BASE, NEXT], 3, 2, 2).(lastApplied := 2), c.peers[1], SILENT]
  {
    var p := c.peers[0];
    assert Batch(p, 2) == [];
    assert Batch(p, 1) == [CommandMsg(p.GetLogEntry(2).command, 2)] + Batch(p, 2);
    c' := Cluster(c.peers[0 := Apply(p).0], c.net + {});
  }

  lemma ReadsOn(c: Cluster, c': Cluster)
    requires |c.peers| > 0 && c.peers[0].Valid() && c.peers[0].commitIndex <= c.peers[0].GetLastLogIndex()
    requires Transition(c, ApplierRound(0), c') && Apply(c.peers[0]).1 == [CommandMsg(READ, 2)]
    ensures var msg, r, calls := CommandMsg(READ, 2), Waiting2(), map[7 := DONE, 8 := CALL2];
            && Next(Later(c, NewReader(), calls), Register(8), Later(c, r, calls))
            && Next(Later(c, r, calls), ApplierTake(0), Later(c', r.(outbox := [msg]), calls))
            && Next(Later(c', r.(outbox := [msg]), calls), ApplierSend(0), Later(c', r.(channel := [msg]), calls))
  {
    var msg, r := CommandMsg(READ, 2), Waiting2();
    assert [NewReader(), NewReader(), NewReader()][0 := r] == [r, NewReader(), NewReader()];
    assert [r, NewReader(), NewReader()][0 := r.(outbox := [msg])] == [r.(outbox := [msg]), NewReader(), NewReader()];
    assert [msg][1..] == [] && [] + [msg] == [msg];
  }

  lemma AnswersWrong(c: Cluster)
    ensures var msg, r, answered := CommandMsg(READ, 2), Waiting2(), CALL2.(slot := Some(SubResult(8, Some(WRONG))));
            && Next(Later(c, r.(channel := [msg]), map[7 := DONE, 8 := CALL2]), ReaderTake(0),
                    Later(c, r.(lastApplied := 2, compacting := true), map[7 := DONE, 8 := answered]))
            && Next(Later(c, r.(lastApplied := 2, compacting := true), map[7 := DONE, 8 := answered]), Return(8),
                    Later(c, r.(lastApplied := 2, compacting := true, notify := map[]),
                          map[7 := DONE, 8 := answered.(done := true)]).(results := map[7 := REPLY, 8 := WRONG]))
  {
    var msg, r, answered := CommandMsg(READ, 2), Waiting2(), CALL2.(slot := Some(SubResult(8, Some(WRONG))));
    assert [msg][1..] == [];
    assert DoOp(NewGroup(), READ.payload) == (NewGroup(), WRONG);
    assert Signal(map[7 := DONE, 8 := CALL2], {8}, SubResult(8, Some(WRONG))) == map[7 := DONE, 8 := answered];
    var s := Later(c, r.(lastApplied := 2, compacting := true), map[7 := DONE, 8 := answered]);
    assert map[2 := 8] - {2} == map[];
    assert s.calls[8 := answered.(done := true)] == map[7 := DONE, 8 := answered.(done := true)];
    assert s.results[8 := WRONG] == map[7 := REPLY, 8 := WRONG];
    assert Finish(s, 8).readers == [r.(lastApplied := 2, compacting := true, notify := map[]), NewReader(), NewReader()];
  }

  // ---------- the run ----------

  /** Up to the second leadership: the snapshot is saved and Raft counts it as applied, and the
      reader starts anew. */
  lemma LeadsAgain() returns (ss: seq<System>, es: seq<Event>)
    ensures Execution(ss, es) && es != []
    ensures var s := ss[|es|];
            && s == Later(s.c, NewReader(), map[7 := DONE])
            && s.c.peers == [Leader2([BASE], 2, 0, 1), Voted2([DUMMY, ENTRY]), SILENT]
  {
    ss, es := CallAnswered();
    var c1 := Compacts(ss[|es|]);
    hide Next, Transition, NewReader, Make;
    ss, es := Extend(ss, es, ReaderCompact(0, true),
                     Later(c1, Applied0().(notify := map[], compacting := false), map[7 := DONE]));
    var c2 := Reboots(ss[|es|]);
    ss, es := Extend(ss, es, Reboot(Restart(0)), Later(c2, NewReader(), map[7 := DONE]));
    var c3 := StandsAgain(c2);
    ss, es := RaftStep(ss, es, ElectionTimeout(0), c3);
    var c4 := VotesAgain(c3);
    ss, es := RaftStep(ss, es, Deliver(VoteReq(1, VOTE2)), c4);
    var c5 := WinsAgain(c4);
    ss, es := RaftStep(ss, es, Deliver(VoteRep(1, VOTE2, GRANT2)), c5);
  }

  lemma CommitsRead() returns (ss: seq<System>, es: seq<Event>)
    ensures Execution(ss, es) && es != []
    ensures var s := ss[|es|];
            && s == Later(s.c, NewReader(), map[7 := DONE, 8 := CALL2])
            && s.c.peers == [Leader2([BASE, NEXT], 3, 2, 2), Voted2([DUMMY, ENTRY, NEXT]).(commitIndex := 1), SILENT]
  {
    ss, es := LeadsAgain();
    var c1 := SubmitsAgain(ss[|es|]);
    hide Next, Transition, NewReader, Make;
    ss, es := Extend(ss, es, Submit(0, 8, READ.payload), Later(c1, NewReader(), map[7 := DONE, 8 := CALL2]));
    var c2 := SendsAgain(c1);
    ss, es := RaftStep(ss, es, SendAppend(0, 1), c2);
    var c3 := TakesAgain(c2);
    ss, es := RaftStep(ss, es, Deliver(AppendReq(1, APPEND2)), c3);
    var c4 := CommitsAgain(c3);
    ss, es := RaftStep(ss, es, Deliver(AppendRep(1, APPEND2, TAKEN2)), c4);
  }

  /** From there to the answer. Event k hands the reader its command. */
  lemma ReadAnswered() returns (ss: seq<System>, es: seq<Event>, k: nat)
    ensures Execution(ss, es) && k < |es| && es[k] == ReaderTake(0)
    ensures ss[k] == Later(ss[k].c, Waiting2().(channel := [CommandMsg(READ, 2)]), map[7 := DONE, 8 := CALL2])
    ensures var s := ss[|es|];
            && s.c.peers == [Leader2([BASE, NEXT], 3, 2, 2).(lastApplied := 2),
                             Voted2([DUMMY, ENTRY, NEXT]).(commitIndex := 1), SILENT]
            && s.results == map[7 := REPLY, 8 := WRONG]
            && s.readers == [Waiting2().(lastApplied := 2, compacting := true, notify := map[]), NewReader(), NewReader()]
  {
    ss, es := CommitsRead();
    var c := ss[|es|].c;
    var c' := AppliesAgain(c);
    ReadsOn(c, c');
    AnswersWrong(c');
    hide Next, Transition, Make;
    var msg, r, calls := CommandMsg(READ, 2), Waiting2(), map[7 := DONE, 8 := CALL2];
    var answered := CALL2.(slot := Some(SubResult(8, Some(WRONG))));
    ss, es := Extend(ss, es, Register(8), Later(c, r, calls));
    ss, es := Extend(ss, es, ApplierTake(0), Later(c', r.(outbox := [msg]), calls));
    ss, es := Extend(ss, es, ApplierSend(0), Later(c', r.(channel := [msg]), calls));
    k := |es|;
    ss, es := Extend(ss, es, ReaderTake(0),
                     Later(c', r.(lastApplied := 2, compacting := true), map[7 := DONE, 8 := answered]));
    ss, es := Extend(ss, es, Return(8),
                     Later(c', r.(lastApplied := 2, compacting := true, notify := map[]),
                           map[7 := DONE, 8 := answered.(done := true)]).(results := map[7 := REPLY, 8 := WRONG]));
  }

  /** What the get is owed by the log. */
  lemma Owed()
    ensures var L := [DUMMY, ENTRY, NEXT];
            && DoOp(Fold(L, 1), READ.payload).1 == GetReply(OK, "v", 1)
            && Fold(L, 2).owned[0] && !NewGroup().owned[0]
  {
    var L := [DUMMY, ENTRY, NEXT];
    assert Fold(L, 0) == NewGroup();
    assert Fold(L, 1) == INSTALLED;
    assert Fold(L, 2) == INSTALLED;
  }

  /** Without the condition on reboots replicas and results go wrong. A run from the start, with one
      reboot in it: an install is answered OK and compacted away, the replica reboots and leads again,
      and a later get, the second entry of the committed log, is answered as if nothing had ever been
      installed. The command that reached the reader was not the next one. */
  lemma RebootAfterCompactionDiverges() returns (ss: seq<System>, es: seq<Event>, k: nat)
    ensures Execution(ss, es) && k < |es| && es[k] == ReaderTake(0) && |ss[k].readers| == 3
    ensures var r := ss[k].readers[0];
            r.lastApplied == 0 && |r.channel| > 0 && r.channel[0] == CommandMsg(READ, 2)
    ensures var s := ss[|es|];
            && |s.readers| == |s.c.peers| == 3 && s.c.peers[1].lastIncludedIndex == 0
            && var L := s.c.peers[1].log;
               && |L| == 3 && L[1].command == COMMAND && L[2].command == READ
               && Safety.ShowsCommitted(s.c.peers[0], 2)
               && s.results == map[7 := InstallReply(OK), 8 := GetReply(ErrWrongGroup, "", 0)]
               && DoOp(Fold(L, 1), READ.payload).1 == GetReply(OK, "v", 1)
               && s.readers[0].lastApplied == 2 && s.readers[0].sm != Fold(L, 2)
  {
    hide Next, Start0;
    ss, es, k := ReadAnswered();
    Owed();
  }
}
