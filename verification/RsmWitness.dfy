// A run in which a Submit returns, so that what RsmSafety says of results is said of something.
module RsmWitness {
  import opened Core
  import opened RaftTypes
  import opened RaftPeer
  import opened Cluster
  import opened ShardGroup
  import opened Rsm
  import opened RaftWitness

  const CALL: Call := Call(0, COMMAND.payload, 1, 1, None, false)

  /** Three replicas, the first of them with the given reader. */
  function Sys(c: Cluster, r: Reader, calls: map<int, Call>): System {
    System(c, [r, NewReader(), NewReader()], calls, map[])
  }

  lemma Applies(c: Cluster) returns (c': Cluster)
    requires c.peers == [Leader0([DUMMY, ENTRY], 1, 1), Voted(1, [DUMMY, ENTRY]), SILENT]
    ensures Transition(c, ApplierRound(0), c')
    ensures Apply(c.peers[0]).1 == [CommandMsg(COMMAND, 1)]
    ensures c'.peers == [Leader0([DUMMY, ENTRY], 1, 1).(lastApplied := 1), Voted(1, [DUMMY, ENTRY]), SILENT]
  {
    var p := c.peers[0];
    assert Batch(p, 1) == [];
    assert Batch(p, 0) == [CommandMsg(COMMAND, 1)] + Batch(p, 1);
    c' := Cluster(c.peers[0 := Apply(p).0], c.net + {});
  }

  lemma Extend(ss: seq<System>, es: seq<Event>, e: Event, s': System) returns (ss': seq<System>, es': seq<Event>)
    requires Execution(ss, es) && Next(ss[|es|], e, s')
    ensures Execution(ss', es') && ss'[|es'|] == s'
    ensures |es'| == |es| + 1 && es'[|es|] == e && forall k: nat {:trigger ss'[k]} | k <= |es| :: ss'[k] == ss[k]
    ensures forall k: nat {:trigger es'[k]} | k < |es| :: es'[k] == es[k]
    ensures Replayed(ss, es) && !e.Reboot? ==> Replayed(ss', es')
  {
    hide Next, Start0;
    ss', es' := ss + [s'], es + [e];
    forall k: nat | k < |es'| ensures Next(ss'[k], es'[k], ss'[k + 1]) {
      assert k < |es| ==> Next(ss[k], es[k], ss[k + 1]);
    }
    forall k: nat | k < |es'| && Replayed(ss, es) && !e.Reboot? ensures Replays(ss'[k], es'[k]) {
      assert k < |es| ==> Replays(ss[k], es[k]);
    }
  }

  /** A step of Raft on its own. */
  lemma RaftStep(ss: seq<System>, es: seq<Event>, step: Step, c': Cluster)
    returns (ss': seq<System>, es': seq<Event>)
    requires Execution(ss, es) && Transition(ss[|es|].c, step, c')
    requires step.ElectionTimeout? || step.SendAppend? || step.SendSnapshot? || step.Deliver?
    ensures Execution(ss', es') && ss'[|es'|] == ss[|es|].(c := c')
    ensures Replayed(ss, es) ==> Replayed(ss', es')
  {
    ss', es' := Extend(ss, es, Raft(step), ss[|es|].(c := c'));
  }

  lemma SubmitStarts(c: Cluster, c': Cluster)
    requires c.peers == [Leader0([DUMMY], 0, 0), Voted(1, [DUMMY]), SILENT] && Transition(c, ClientCommand(0, COMMAND), c')
    ensures Next(Sys(c, NewReader(), map[]), Submit(0, 7, COMMAND.payload), Sys(c', NewReader(), map[7 := CALL]))
  {
    assert Start(c.peers[0], COMMAND).1 == 1;
    var none: map<int, Call> := map[];
    assert none[7 := CALL] == map[7 := CALL];
  }

  /** Raft's part of the run, and the Submit in the middle of it. */
  lemma CallCommits() returns (ss: seq<System>, es: seq<Event>)
    ensures Rsm.Run(ss, es)
    ensures var s := ss[|es|];
            s == Sys(s.c, NewReader(), map[7 := CALL])
            && s.c.peers == [Leader0([DUMMY, ENTRY], 1, 1), Voted(1, [DUMMY, ENTRY]), SILENT]
  {
    var c0, c1 := Elects();
    ss, es := [Sys(c0, NewReader(), map[])], [];
    assert seq(3, i => NewReader()) == [NewReader(), NewReader(), NewReader()];
    assert Start0(ss[0]);
    hide Transition, Initial, Next, Start0, NewReader, RaftWitness.Leader0, Voted;
    ss, es := RaftStep(ss, es, ElectionTimeout(0), c1);
    var c2 := Votes(c1);
    ss, es := RaftStep(ss, es, Deliver(VoteReq(1, VOTE)), c2);
    var c3 := Wins(c2);
    ss, es := RaftStep(ss, es, Deliver(VoteRep(1, VOTE, GRANT)), c3);
    var c4 := Proposes(c3);
    SubmitStarts(c3, c4);
    ss, es := Extend(ss, es, Submit(0, 7, COMMAND.payload), Sys(c4, NewReader(), map[7 := CALL]));
    var c5 := Sends(c4);
    ss, es := RaftStep(ss, es, SendAppend(0, 1), c5);
    var c6 := Takes(c5);
    ss, es := RaftStep(ss, es, Deliver(AppendReq(1, APPEND)), c6);
    var c7 := Commits(c6);
    ss, es := RaftStep(ss, es, Deliver(AppendRep(1, APPEND, TAKEN)), c7);
  }

  const REPLY: Reply := InstallReply(OK)
  const ANSWERED: Call := CALL.(slot := Some(SubResult(7, Some(REPLY))))

  /** A group that has installed the one shard. */
  const INSTALLED: GroupState := DoOp(NewGroup(), COMMAND.payload).0

  function Waiting0(): Reader {
    NewReader().(notify := map[1 := 7])
  }

  function Applied0(): Reader {
    Waiting0().(sm := INSTALLED, lastApplied := 1, compacting := true)
  }

  /** What the reader's side of the first replica goes through. */
  lemma ReaderEvents(c: Cluster, c': Cluster)
    requires c.peers == [Leader0([DUMMY, ENTRY], 1, 1), Voted(1, [DUMMY, ENTRY]), SILENT]
    requires Transition(c, ApplierRound(0), c')
    ensures var msg, r := CommandMsg(COMMAND, 1), Waiting0();
            && Next(Sys(c, NewReader(), map[7 := CALL]), Register(7), Sys(c, r, map[7 := CALL]))
            && Next(Sys(c, r, map[7 := CALL]), ApplierTake(0), Sys(c', r.(outbox := [msg]), map[7 := CALL]))
            && Next(Sys(c', r.(outbox := [msg]), map[7 := CALL]), ApplierSend(0), Sys(c', r.(channel := [msg]), map[7 := CALL]))
            && Next(Sys(c', r.(channel := [msg]), map[7 := CALL]), ReaderTake(0), Sys(c', Applied0(), map[7 := ANSWERED]))
  {
    var p := c.peers[0];
    assert Batch(p, 1) == [];
    assert Batch(p, 0) == [CommandMsg(COMMAND, 1)] + Batch(p, 1);
    var msg := CommandMsg(COMMAND, 1);
    assert Apply(p).1 == [msg];
    assert Sys(c, Waiting0(), map[7 := CALL]).readers[0 := Waiting0().(outbox := Apply(p).1)]
           == [Waiting0().(outbox := [msg]), NewReader(), NewReader()];
    assert [msg][1..] == [] && [] + [msg] == [msg];
    assert DoOp(NewGroup(), COMMAND.payload) == (INSTALLED, REPLY);
    assert Signal(map[7 := CALL], {7}, SubResult(7, Some(REPLY))) == map[7 := ANSWERED];
  }

  lemma CallReturns(c: Cluster)
    ensures Next(Sys(c, Applied0(), map[7 := ANSWERED]), Return(7),
                 Sys(c, Applied0().(notify := map[]), map[7 := ANSWERED.(done := true)]).(results := map[7 := REPLY]))
  {
    var s := Sys(c, Applied0(), map[7 := ANSWERED]);
    assert map[1 := 7] - {1} == map[];
    assert s.calls[7 := ANSWERED.(done := true)] == map[7 := ANSWERED.(done := true)];
    assert s.results[7 := REPLY] == map[7 := REPLY];
    var f := Finish(s, 7);
    assert f.readers[0] == Applied0().(notify := map[]);
    assert f.readers == [Applied0().(notify := map[]), NewReader(), NewReader()];
  }

  /** The first replica idle again, its command applied and answered. */
  function Idle(c: Cluster): System {
    Sys(c, Applied0().(notify := map[]), map[7 := ANSWERED.(done := true)]).(results := map[7 := REPLY])
  }

  lemma CallAnswered() returns (ss: seq<System>, es: seq<Event>)
    ensures Rsm.Run(ss, es)
    ensures var s := ss[|es|];
            && s == Idle(s.c)
            && s.c.peers == [Leader0([DUMMY, ENTRY], 1, 1).(lastApplied := 1), Voted(1, [DUMMY, ENTRY]), SILENT]
  {
    ss, es := CallCommits();
    var c := ss[|es|].c;
    var c' := Applies(c);
    ReaderEvents(c, c');
    CallReturns(c');
    hide Transition, Next, RaftWitness.Leader0, Voted;
    var msg, r := CommandMsg(COMMAND, 1), Waiting0();
    ss, es := Extend(ss, es, Register(7), Sys(c, r, map[7 := CALL]));
    ss, es := Extend(ss, es, ApplierTake(0), Sys(c', r.(outbox := [msg]), map[7 := CALL]));
    ss, es := Extend(ss, es, ApplierSend(0), Sys(c', r.(channel := [msg]), map[7 := CALL]));
    ss, es := Extend(ss, es, ReaderTake(0), Sys(c', Applied0(), map[7 := ANSWERED]));
    ss, es := Extend(ss, es, Return(7), Idle(c'));
  }

  /** A Submit at the leader of three replicas, one of them silent, returns, with the reply to its own operation. */
  lemma ASubmitReturns() returns (ss: seq<System>, es: seq<Event>)
    ensures Rsm.Run(ss, es) && 7 in ss[|es|].results
    ensures ss[|es|].results[7] == REPLY
  {
    ss, es := CallAnswered();
  }
}
