// Every replica is a fold of one log, and a successful Submit returns its own operation's result.
module RsmProof {
  import opened Core
  import opened RaftTypes
  import opened RaftPeer
  import opened Cluster
  import P = Protocol
  import opened ProtocolProof
  import opened ClusterInvariant
  import opened ShardGroup
  import opened Rsm
  import Safety = RaftSafety

  // ---------- the apply stream ----------

  function PendingMsg(p: Peer): seq<ApplyMsg> {
    if p.pending.Some? then [SnapshotMsg(p.pending.value)] else []
  }

  /** Everything on its way to the reader, in order of arrival. */
  function Queue(r: Reader, p: Peer): seq<ApplyMsg> {
    r.channel + r.outbox + PendingMsg(p)
  }

  /** A command must be the next one of the log; a snapshot must be the fold up to its index. */
  ghost predicate MsgFits(m: ApplyMsg, pos: nat, G: Log) {
    match m
    case CommandMsg(command, index) => index == pos + 1 && index < |G| && command == G[index].command && command.Submitted?
    case SnapshotMsg(s) => s.index < |G| && s.data == Some(Fold(G, s.index))
  }

  /** Where the reader stands after a message: a snapshot advances it or is ignored. */
  function After(m: ApplyMsg, pos: nat): nat {
    match m
    case CommandMsg(_, index) => index
    case SnapshotMsg(s) => if s.index > pos then s.index else pos
  }

  ghost predicate Feeds(ms: seq<ApplyMsg>, pos: nat, G: Log) {
    |ms| > 0 ==> MsgFits(ms[0], pos, G) && Feeds(ms[1..], After(ms[0], pos), G)
  }

  function EndOf(ms: seq<ApplyMsg>, pos: nat): nat {
    if ms == [] then pos else EndOf(ms[1..], After(ms[0], pos))
  }

  /** Replica and queue together account for exactly the commands 1..p.lastApplied of the log. */
  ghost predicate StreamOk(r: Reader, p: Peer, G: Log) {
    && r.lastApplied < |G|
    && r.sm == Fold(G, r.lastApplied)
    && Feeds(Queue(r, p), r.lastApplied, G)
    && EndOf(Queue(r, p), r.lastApplied) == p.lastApplied
    && (p.pending.Some? ==> p.pending.value.index <= p.lastIncludedIndex)
    && (p.lastIncludedIndex > 0 ==> p.lastIncludedIndex < |G| && p.disk.snapshot == Some(Fold(G, p.lastIncludedIndex)))
  }

  lemma {:induction false} EndGrows(ms: seq<ApplyMsg>, pos: nat, G: Log)
    requires Feeds(ms, pos, G)
    ensures pos <= EndOf(ms, pos)
  {
    if |ms| > 0 {
      EndGrows(ms[1..], After(ms[0], pos), G);
    }
  }

  lemma {:induction false} FeedsAppend(ms: seq<ApplyMsg>, ns: seq<ApplyMsg>, pos: nat, G: Log)
    ensures Feeds(ms + ns, pos, G) <==> Feeds(ms, pos, G) && Feeds(ns, EndOf(ms, pos), G)
    ensures EndOf(ms + ns, pos) == EndOf(ns, EndOf(ms, pos))
  {
    if ms == [] {
      assert ms + ns == ns;
    } else {
      assert (ms + ns)[1..] == ms[1..] + ns;
      FeedsAppend(ms[1..], ns, After(ms[0], pos), G);
    }
  }

  /** The stream only depends on the log up to where it ends. */
  lemma {:induction false} FeedsAgree(ms: seq<ApplyMsg>, pos: nat, G: Log, G': Log)
    requires Feeds(ms, pos, G) && Agree(G, G', EndOf(ms, pos) + 1)
    ensures Feeds(ms, pos, G')
  {
    if |ms| > 0 {
      EndGrows(ms[1..], After(ms[0], pos), G);
      if ms[0].SnapshotMsg? {
        FoldAgree(G, G', ms[0].snapshot.index);
      }
      FeedsAgree(ms[1..], After(ms[0], pos), G, G');
    }
  }

  lemma StreamAgree(r: Reader, p: Peer, G: Log, G': Log)
    requires StreamOk(r, p, G) && p.lastIncludedIndex <= p.lastApplied && Agree(G, G', p.lastApplied + 1)
    ensures StreamOk(r, p, G')
  {
    EndGrows(Queue(r, p), r.lastApplied, G);
    FoldAgree(G, G', r.lastApplied);
    FeedsAgree(Queue(r, p), r.lastApplied, G, G');
    if p.lastIncludedIndex > 0 {
      FoldAgree(G, G', p.lastIncludedIndex);
    }
  }

  /** Commands taken straight from the log after index i continue a stream that ends at i. */
  lemma {:induction false} BatchFeeds(p: Peer, G: Log, i: nat)
    requires p.Valid() && p.commitIndex <= p.GetLastLogIndex() && Refines(p, G) && p.lastIncludedIndex <= i
    requires forall k: nat | 0 < k < |G| :: G[k].command.Submitted?
    ensures Feeds(Batch(p, i), i, G)
    ensures EndOf(Batch(p, i), i) == if i < p.commitIndex then p.commitIndex else i
    decreases p.commitIndex - i
  {
    if i < p.commitIndex {
      BatchFeeds(p, G, i + 1);
      assert p.log[i + 1 - p.lastIncludedIndex] == G[i + 1];
      assert Batch(p, i)[1..] == Batch(p, i + 1);
    }
  }

  // ---------- each event keeps the stream ----------

  lemma TakeKeepsStream(r: Reader, p: Peer, G: Log)
    requires StreamOk(r, p, G) && r.outbox == []
    requires p.Valid() && p.commitIndex <= p.GetLastLogIndex() && Refines(p, G) && p.lastIncludedIndex <= p.lastApplied
    requires forall k: nat | 0 < k < |G| :: G[k].command.Submitted?
    ensures StreamOk(r.(outbox := Apply(p).1), Apply(p).0, G)
  {
    var r' := r.(outbox := Apply(p).1);
    var p' := Apply(p).0;
    if p.pending.Some? {
      assert Queue(r', p') == Queue(r, p);
    } else {
      assert Queue(r, p) == r.channel;
      assert Queue(r', p') == r.channel + Batch(p, p.lastApplied);
      BatchFeeds(p, G, p.lastApplied);
      FeedsAppend(r.channel, Batch(p, p.lastApplied), r.lastApplied, G);
    }
  }

  lemma SendKeepsStream(r: Reader, p: Peer, G: Log)
    requires StreamOk(r, p, G) && |r.outbox| > 0
    ensures StreamOk(r.(outbox := r.outbox[1..], channel := r.channel + [r.outbox[0]]), p, G)
  {
    var r' := r.(outbox := r.outbox[1..], channel := r.channel + [r.outbox[0]]);
    assert Queue(r', p) == Queue(r, p);
  }

  /** The reader's step: its state stays the fold up to its position. */
  lemma ReadKeepsStream(r: Reader, calls: map<int, Call>, p: Peer, G: Log)
    requires StreamOk(r, p, G) && |r.channel| > 0 && ValidGroup(r.sm)
    ensures StreamOk(Read(r, calls).0, p, G)
  {
    hide DoOp, Signal;
    var r' := Read(r, calls).0;
    assert Queue(r', p) == Queue(r, p)[1..];
    assert Queue(r, p)[0] == r.channel[0];
    assert MsgFits(r.channel[0], r.lastApplied, G);
    EndGrows(Queue(r, p)[1..], After(r.channel[0], r.lastApplied), G);
  }

  lemma CompactKeepsStream(r: Reader, p: Peer, G: Log)
    requires StreamOk(r, p, G) && p.Valid() && r.lastApplied <= p.commitIndex <= p.GetLastLogIndex()
    ensures StreamOk(r.(compacting := false), Compact(p, r.lastApplied, r.sm), G)
  {
    var p' := Compact(p, r.lastApplied, r.sm);
    assert Queue(r.(compacting := false), p') == Queue(r, p);
  }

  /** Installing a newer snapshot replaces the pending one, if any, and ends the stream at the
      later of its old end and the snapshot. */
  lemma InstallKeepsStream(r: Reader, p: Peer, p': Peer, s: Snapshot, G: Log)
    requires StreamOk(r, p, G) && p.lastIncludedIndex < s.index < |G| && s.data == Some(Fold(G, s.index))
    requires p'.pending == Some(s) && p'.lastIncludedIndex == s.index && p'.disk.snapshot == s.data
    requires p'.lastApplied == if p.lastApplied < s.index then s.index else p.lastApplied
    ensures StreamOk(r, p', G)
  {
    var sent := r.channel + r.outbox;
    FeedsAppend(sent, PendingMsg(p), r.lastApplied, G);
    FeedsAppend(sent, PendingMsg(p'), r.lastApplied, G);
    var e := EndOf(sent, r.lastApplied);
    assert PendingMsg(p')[1..] == [];
    if p.pending.Some? {
      assert PendingMsg(p)[1..] == [];
    }
  }

  /** A peer that moved without touching what the stream reads. */
  lemma FrameKeepsStream(r: Reader, p: Peer, p': Peer, G: Log)
    requires StreamOk(r, p, G)
    requires p'.pending == p.pending && p'.lastApplied == p.lastApplied
    requires p'.lastIncludedIndex == p.lastIncludedIndex && p'.disk.snapshot == p.disk.snapshot
    ensures StreamOk(r, p', G)
  {
    assert Queue(r, p') == Queue(r, p);
  }

  /** Rebooting keeps the apply stream if and only if the log was never compacted: with a base
      beyond 0 the new reader starts empty while Raft believes the snapshot applied. */
  lemma RebootKeepsStream(p: Peer, G: Log)
    requires Refines(p, G) && DiskOk(p)
    ensures StreamOk(NewReader(), Make(p.me, p.n, p.disk), G) <==> p.lastIncludedIndex == 0
  {
    var p' := Make(p.me, p.n, p.disk);
    assert Queue(NewReader(), p') == [];
  }

  // ---------- operation IDs ----------

  /** An own entry of a leader's log is the operation of the one Submit that Start placed there. */
  ghost predicate OwnOk(a: P.State, calls: map<int, Call>, t: nat, i: nat)
    requires t in a.reigns && i < |a.reigns[t].log|
  {
    match a.reigns[t].log[i].command
    case NoCommand => false
    case Submitted(id, payload) =>
      id in calls && calls[id].payload == payload && calls[id].index == i && calls[id].term == t
  }

  ghost predicate IdsOk(a: P.State, calls: map<int, Call>) {
    forall t: nat, i: nat {:trigger OwnOk(a, calls, t, i)} |
      0 < t && t in a.reigns && |a.reigns[t].start| <= i < |a.reigns[t].log| :: OwnOk(a, calls, t, i)
  }

  /** Every entry of every log after the dummy is a submitted operation, at its own index and term. */
  lemma EntryIsSubmitted(a: P.State, calls: map<int, Call>, L: Log, bound: nat, i: nat)
    requires P.Inv(a) && IdsOk(a, calls) && P.WfLog(a, L, bound) && 0 < i < |L|
    ensures L[i].command.Submitted?
    ensures L[i].term in a.reigns && Agree(L, a.reigns[L[i].term].log, i + 1)
    ensures var id := L[i].command.id;
            id in calls && calls[id].payload == L[i].command.payload
            && calls[id].index == i && calls[id].term == L[i].term
  {
    assert P.EntryOk(a, L, bound, i);
    var t := L[i].term;
    assert P.ReignOk(a, t);
    assert a.reigns[t].log[i].term == t;
    assert OwnOk(a, calls, t, i);
  }

  /** rep is the result of the call's own operation, applied to the fold of the committed log
      before the index where Start placed it. */
  ghost predicate ResultOk(a: P.State, id: int, c: Call, rep: Reply) {
    && c.term in a.reigns
    && var L := a.reigns[c.term].log;
       && 0 < c.index < |L|
       && L[c.index].command == Submitted(id, c.payload)
       && rep == DoOp(Fold(L, c.index - 1), c.payload).1
       && EverCommitted(a, L, c.index + 1)
  }

  ghost predicate EverCommitted(a: P.State, L: Log, m: nat) {
    exists b: nat {:trigger P.CommittedTo(a, L, m, b)} :: P.CommittedTo(a, L, m, b)
  }

  ghost predicate SlotOk(a: P.State, id: int, c: Call) {
    && id >= 0
    && (c.slot.Some? && c.slot.value.id == id ==> c.slot.value.rep.Some? && ResultOk(a, id, c, c.slot.value.rep.value))
  }

  ghost predicate CallsOk(a: P.State, s: System) {
    && (forall id {:trigger SlotOk(a, id, s.calls[id])} | id in s.calls :: SlotOk(a, id, s.calls[id]))
    && (forall id {:trigger s.results[id]} | id in s.results ::
          id in s.calls && ResultOk(a, id, s.calls[id], s.results[id]))
  }

  ghost predicate SnapshotData(a: P.State, m: Msg) {
    m.SnapReq? && m.snap.lastIncludedIndex > 0 ==>
      && m.snap.term in a.reigns && m.snap.lastIncludedIndex < |a.reigns[m.snap.term].log|
      && m.snap.data == Some(Fold(a.reigns[m.snap.term].log, m.snap.lastIncludedIndex))
  }

  ghost predicate ReplicaOk(a: P.State, s: System, i: nat) {
    && i < |a.log| && i < |s.readers| && i < |s.c.peers|
    && StreamOk(s.readers[i], s.c.peers[i], a.log[i])
  }

  ghost predicate SystemOk(s: System, a: P.State) {
    && ClusterOk(s.c, a)
    && |s.readers| == a.n
    && (forall i: nat {:trigger ReplicaOk(a, s, i)} | i < a.n :: ReplicaOk(a, s, i))
    && (forall m {:trigger SnapshotData(a, m)} | m in s.c.net :: SnapshotData(a, m))
    && IdsOk(a, s.calls)
    && CallsOk(a, s)
  }

  // ---------- Raft's part of a step ----------

  lemma ResultGrows(a: P.State, a': P.State, id: int, c: Call, rep: Reply)
    requires Grows(a, a') && ResultOk(a, id, c, rep)
    ensures ResultOk(a', id, c, rep)
  {
    assert ReignGrows(a, a', c.term);
    var L, L' := a.reigns[c.term].log, a'.reigns[c.term].log;
    FoldAgree(L, L', c.index - 1);
    var b: nat :| P.CommittedTo(a, L, c.index + 1, b);
    CommittedToGrows(a, a', L, c.index + 1, b, b);
    CommittedLike(a', L, L', c.index + 1, b);
  }

  lemma CallsGrow(a: P.State, a': P.State, s: System)
    requires Grows(a, a') && CallsOk(a, s)
    ensures CallsOk(a', s)
  {
    forall id | id in s.calls ensures SlotOk(a', id, s.calls[id]) {
      assert SlotOk(a, id, s.calls[id]);
      var c := s.calls[id];
      if c.slot.Some? && c.slot.value.id == id {
        ResultGrows(a, a', id, c, c.slot.value.rep.value);
      }
    }
    forall id | id in s.results ensures id in s.calls && ResultOk(a', id, s.calls[id], s.results[id]) {
      ResultGrows(a, a', id, s.calls[id], s.results[id]);
    }
  }

  lemma SnapshotDataGrows(a: P.State, a': P.State, m: Msg)
    requires Grows(a, a') && SnapshotData(a, m)
    ensures SnapshotData(a', m)
  {
    if m.SnapReq? && m.snap.lastIncludedIndex > 0 {
      assert ReignGrows(a, a', m.snap.term);
      FoldAgree(a.reigns[m.snap.term].log, a'.reigns[m.snap.term].log, m.snap.lastIncludedIndex);
    }
  }

  lemma QuietKeepsIds(a: P.State, a': P.State, calls: map<int, Call>)
    requires Grows(a, a') && Quiet(a, a') && IdsOk(a, calls)
    ensures IdsOk(a', calls)
  {
    forall t: nat, i: nat | 0 < t && t in a'.reigns && |a'.reigns[t].start| <= i < |a'.reigns[t].log|
      ensures OwnOk(a', calls, t, i)
    {
      assert t in a.reigns;
      assert ReignGrows(a, a', t);
      assert OwnOk(a, calls, t, i);
    }
  }

  /** The actor's log up to its applied position survives any step. */
  lemma AppliedPrefixKept(a: P.State, a': P.State, i: nat, p: Peer)
    requires NodeOk(a, i, p) && Moves(a, a', i)
    ensures Agree(a.log[i], a'.log[i], p.lastApplied + 1)
  {
    assert LogKept(a, a', i);
  }

  /** Whatever snapshot a step sends is the fold at its index. */
  lemma SentSnapshotData(s: System, a: P.State, step: Step)
    requires SystemOk(s, a) && Enabled(s.c, step) && Defined(s.c, step)
    ensures forall m {:trigger SnapshotData(a, m)} | m in Sent(s.c, step) :: SnapshotData(a, m)
  {
    var i := Actor(step);
    assert NodeOk(a, i, s.c.peers[i]) && ReplicaOk(a, s, i);
  }

  /** Everything but the actor's own stream, across a step of Raft. */
  lemma RaftStepFrame(s: System, a: P.State, step: Step, c': Cluster, a': P.State)
    requires SystemOk(s, a) && Transition(s.c, step, c') && ClusterOk(c', a') && Moves(a, a', Actor(step))
    ensures forall i: nat {:trigger ReplicaOk(a', s.(c := c'), i)} | i < a'.n && i != Actor(step) ::
              ReplicaOk(a', s.(c := c'), i)
    ensures forall m {:trigger SnapshotData(a', m)} | m in c'.net :: SnapshotData(a', m)
    ensures CallsOk(a', s)
  {
    forall i: nat | i < a'.n && i != Actor(step) ensures ReplicaOk(a', s.(c := c'), i) {
      assert ReplicaOk(a, s, i) && Untouched(a, a', i);
    }
    SentSnapshotData(s, a, step);
    forall m | m in c'.net ensures SnapshotData(a', m) {
      assert SnapshotData(a, m);
      SnapshotDataGrows(a, a', m);
    }
    CallsGrow(a, a', s);
  }

  /** The actor's own stream across a step that is neither the applier's nor the service's nor a reboot. */
  lemma ActorStream(s: System, a: P.State, step: Step, c': Cluster, a': P.State)
    requires SystemOk(s, a) && Transition(s.c, step, c') && ClusterOk(c', a') && Moves(a, a', Actor(step))
    requires !step.ServiceSnapshot? && !step.ApplierRound? && !step.Restart? && !step.CrashIn?
    ensures ReplicaOk(a', s.(c := c'), Actor(step))
  {
    hide Grows, CallsOk, IdsOk, Feeds, Queue, BallotOk, DiskOk, Refines, StreamOk;
    var i := Actor(step);
    var r := s.readers[i];
    var p, p' := s.c.peers[i], c'.peers[i];
    assert NodeOk(a, i, p) && ReplicaOk(a, s, i) && NodeOk(a', i, p');
    AppliedPrefixKept(a, a', i, p);
    StreamAgree(r, p, a.log[i], a'.log[i]);
    if step.Deliver? && step.m.SnapReq? {
      assert SnapshotData(a, step.m) && MsgOk(a, step.m);
      InstalledStream(a, a', i, r, p, step.m.snap);
    } else {
      ActorFrame(s.c, step);
      FrameKeepsStream(r, p, p', a'.log[i]);
    }
  }

  predicate SameForStream(p: Peer, p': Peer) {
    && p'.pending == p.pending && p'.lastApplied == p.lastApplied
    && p'.lastIncludedIndex == p.lastIncludedIndex && p'.disk.snapshot == p.disk.snapshot
  }

  lemma AppendFrame(p: Peer, a: AppendEntriesArgs)
    requires p.Valid()
    ensures SameForStream(p, AppendEntries(p, a).0)
  {
    if a.term >= p.currentTerm {
      var p1 := HeedLeader(p, a.term);
      if p1.InLog(a.prevLogIndex) {
        assert SameForStream(p, TakeEntries(p1, a));
      }
    }
  }

  lemma ReceiveFrame(p: Peer, m: Msg)
    requires p.Valid() && (m.AppendRep? || m.SnapRep? ==> m.from < p.n) && !m.SnapReq?
    ensures SameForStream(p, Receive(p, m))
  {
    match m
    case VoteReq(_, a) => assert SameForStream(p, RequestVote(p, a).0);
    case VoteRep(q, a, r) => assert SameForStream(p, VoteReply(p, q, a.term, r));
    case AppendReq(_, a) => AppendFrame(p, a);
    case AppendRep(q, a, r) => assert SameForStream(p, AppendReply(p, q, a, r));
    case SnapRep(q, a, r) => assert SameForStream(p, SnapshotReply(p, q, a, r));
  }

  /** Steps other than these leave alone what the stream reads. */
  lemma ActorFrame(c: Cluster, step: Step)
    requires Actor(step) < |c.peers| && Defined(c, step)
    requires !step.ServiceSnapshot? && !step.ApplierRound? && !step.Restart? && !step.CrashIn?
    requires !(step.Deliver? && step.m.SnapReq?)
    ensures SameForStream(c.peers[Actor(step)], ActorNext(c, step))
  {
    if step.Deliver? {
      ReceiveFrame(c.peers[Actor(step)], step.m);
    }
  }

  lemma InstalledStream(a: P.State, a': P.State, i: nat, r: Reader, p: Peer, m: InstallSnapshotArgs)
    requires P.Inv(a') && Grows(a, a') && i < a'.n && p.Valid()
    requires NodeOk(a', i, InstallSnapshot(p, m).0)
    requires StreamOk(r, p, a'.log[i])
    requires SnapArgsOk(a, m) && (m.lastIncludedIndex > 0 ==> m.data == Some(Fold(a.reigns[m.term].log, m.lastIncludedIndex)))
    ensures StreamOk(r, InstallSnapshot(p, m).0, a'.log[i])
  {
    hide Grows, P.Inv, Feeds, Queue, CommitOk, BallotOk, DiskOk, Refines;
    var p' := InstallSnapshot(p, m).0;
    if m.term >= p.currentTerm && m.lastIncludedIndex > p.lastIncludedIndex {
      InstalledFold(a, a', i, p', m);
      InstallKeepsStream(r, p, p', Snapshot(m.lastIncludedIndex, m.lastIncludedTerm, m.data), a'.log[i]);
    } else {
      FrameKeepsStream(r, p, p', a'.log[i]);
    }
  }

  /** The receiver's log behind the new base is the leader's, so the snapshot is its fold too. */
  lemma InstalledFold(a: P.State, a': P.State, i: nat, p': Peer, m: InstallSnapshotArgs)
    requires P.Inv(a') && Grows(a, a') && NodeOk(a', i, p') && p'.currentTerm == m.term
    requires p'.lastIncludedIndex == m.lastIncludedIndex && SnapArgsOk(a, m)
    ensures m.lastIncludedIndex < |a'.log[i]|
    ensures Fold(a.reigns[m.term].log, m.lastIncludedIndex) == Fold(a'.log[i], m.lastIncludedIndex)
  {
    var s := m.lastIncludedIndex;
    var R := a.reigns[m.term].log;
    assert ReignGrows(a, a', m.term);
    CommittedToGrows(a, a', R, s + 1, m.term, m.term);
    P.CommittedAgree(a', R, s + 1, m.term, a'.log[i], p'.commitIndex + 1, m.term);
    FoldAgree(R, a'.log[i], s);
  }

  // ---------- each event keeps the system invariant ----------

  lemma RaftKeeps(s: System, a: P.State, step: Step, s': System) returns (a': P.State)
    requires SystemOk(s, a) && Next(s, Raft(step), s')
    ensures SystemOk(s', a') && Grows(a, a')
  {
    a' := Safety.StepOk(s.c, a, step, s'.c);
    RaftStepFrame(s, a, step, s'.c, a');
    ActorStream(s, a, step, s'.c, a');
    QuietKeepsIds(a, a', s.calls);
    forall i: nat | i < a'.n ensures ReplicaOk(a', s', i) {
      if i != Actor(step) {
        assert ReplicaOk(a', s.(c := s'.c), i);
      }
    }
  }

  /** Start puts a fresh operation at the end of the leader's log, and nowhere else. */
  lemma SubmitKeepsIds(a: P.State, a': P.State, p: nat, id: int, payload: Request, calls: map<int, Call>)
    requires P.Inv(a) && Leads(a, p) && IdsOk(a, calls) && id !in calls
    requires a' == P.Propose(a, p, Entry(a.term[p], |a.log[p]|, Submitted(id, payload)))
    ensures IdsOk(a', calls[id := Call(p, payload, |a.log[p]|, a.term[p], None, false)])
  {
    var calls' := calls[id := Call(p, payload, |a.log[p]|, a.term[p], None, false)];
    forall t: nat, i: nat | 0 < t && t in a'.reigns && |a'.reigns[t].start| <= i < |a'.reigns[t].log|
      ensures OwnOk(a', calls', t, i)
    {
      if t != a.term[p] || i < |a.log[p]| {
        assert OwnOk(a, calls, t, i);
      }
    }
  }

  lemma SubmitKeeps(s: System, a: P.State, p: nat, id: int, payload: Request, s': System) returns (a': P.State)
    requires SystemOk(s, a) && Next(s, Submit(p, id, payload), s')
    ensures SystemOk(s', a') && Grows(a, a')
  {
    hide Grows, StreamOk, CallsOk, IdsOk, CommitOk, BallotOk, DiskOk;
    var step := ClientCommand(p, Submitted(id, payload));
    var peer := s.c.peers[p];
    assert NodeOk(a, p, peer);
    a' := Safety.StepOk(s.c, a, step, s'.c);
    RaftStepFrame(s, a, step, s'.c, a');
    ActorStream(s, a, step, s'.c, a');
    if peer.role == Leader {
      SubmitKeepsIds(a, a', p, id, payload, s.calls);
      assert Start(peer, Submitted(id, payload)).1 == |a.log[p]|;
    } else {
      QuietKeepsIds(a, a', s.calls);
    }
    CallsAfterSubmit(s, a', id, s');
    forall i: nat | i < a'.n ensures ReplicaOk(a', s', i) {
      if i != p {
        assert ReplicaOk(a', s.(c := s'.c), i);
      }
    }
  }

  lemma CallsAfterSubmit(s: System, a: P.State, id: int, s': System)
    requires CallsOk(a, s) && id >= 0 && id !in s.calls && s'.results == s.results
    requires s'.calls == s.calls || (id in s'.calls && s'.calls == s.calls[id := s'.calls[id]] && s'.calls[id].slot.None?)
    ensures CallsOk(a, s')
  {
    forall i | i in s'.calls ensures SlotOk(a, i, s'.calls[i]) {
      assert i in s.calls ==> SlotOk(a, i, s.calls[i]);
    }
  }

  /** Events that leave Raft, the queues and the state machines alone. */
  lemma QuietEvent(s: System, a: P.State, s': System)
    requires SystemOk(s, a) && s'.c == s.c && |s'.readers| == |s.readers|
    requires forall i: nat {:trigger s'.readers[i]} | i < |s.readers| ::
               s'.readers[i] == s.readers[i].(notify := s'.readers[i].notify)
    requires IdsOk(a, s'.calls) && CallsOk(a, s')
    ensures SystemOk(s', a)
  {
    forall i: nat | i < a.n ensures ReplicaOk(a, s', i) {
      assert ReplicaOk(a, s, i);
      assert Queue(s'.readers[i], s.c.peers[i]) == Queue(s.readers[i], s.c.peers[i]);
    }
  }

  /** Ending a call or filling its slot does not change what it proposed. */
  ghost predicate SameProposals(calls: map<int, Call>, calls': map<int, Call>) {
    && calls'.Keys == calls.Keys
    && forall id {:trigger calls'[id]} | id in calls ::
         calls'[id] == calls[id].(slot := calls'[id].slot, done := calls'[id].done)
  }

  lemma SameProposalsKeepIds(a: P.State, calls: map<int, Call>, calls': map<int, Call>)
    requires IdsOk(a, calls) && SameProposals(calls, calls')
    ensures IdsOk(a, calls')
  {
    forall t: nat, i: nat | 0 < t && t in a.reigns && |a.reigns[t].start| <= i < |a.reigns[t].log|
      ensures OwnOk(a, calls', t, i)
    {
      assert OwnOk(a, calls, t, i);
    }
  }

  lemma FinishKeeps(s: System, a: P.State, id: int, s': System)
    requires SystemOk(s, a) && id in s.calls && s.calls[id].node < |s.readers|
    requires s' == Finish(s, id).(results := s'.results)
    requires s'.results == s.results || (s.calls[id].slot.Some? && s.calls[id].slot.value.id == id
               && s.calls[id].slot.value.rep.Some? && s'.results == s.results[id := s.calls[id].slot.value.rep.value])
    ensures SystemOk(s', a)
  {
    assert SlotOk(a, id, s.calls[id]);
    SameProposalsKeepIds(a, s.calls, s'.calls);
    forall i | i in s'.calls ensures SlotOk(a, i, s'.calls[i]) {
      assert SlotOk(a, i, s.calls[i]);
    }
    forall i | i in s'.results ensures i in s'.calls && ResultOk(a, i, s'.calls[i], s'.results[i]) {
      assert i in s.results ==> ResultOk(a, i, s.calls[i], s.results[i]);
    }
    QuietEvent(s, a, s');
  }

  // ---------- the reader ----------

  /** The command at the head of the channel is an entry of the committed log, so what the reader
      computes for it is the result its submitter is owed. */
  lemma HeadResult(s: System, a: P.State, p: nat, id: int, payload: Request, index: nat)
    requires SystemOk(s, a) && p < a.n && |s.readers[p].channel| > 0
    requires s.readers[p].channel[0] == CommandMsg(Submitted(id, payload), index)
    requires ValidGroup(s.readers[p].sm)
    ensures id in s.calls && ResultOk(a, id, s.calls[id], DoOp(s.readers[p].sm, payload).1)
  {
    var r, x, G := s.readers[p], s.c.peers[p], a.log[p];
    assert ReplicaOk(a, s, p) && NodeOk(a, p, x) && P.PeerOk(a, p);
    HeadInLog(r, x, G, Submitted(id, payload), index);
    EntryIsSubmitted(a, s.calls, G, a.term[p], index);
    var t := G[index].term;
    CommittedLess(a, G, x.commitIndex + 1, index + 1, x.currentTerm);
    CommittedInTerm(a, G, index, x.currentTerm);
    FoldAgree(G, a.reigns[t].log, index - 1);
  }

  lemma HeadInLog(r: Reader, p: Peer, G: Log, command: Command, index: nat)
    requires StreamOk(r, p, G) && |r.channel| > 0 && r.channel[0] == CommandMsg(command, index)
    ensures index == r.lastApplied + 1 <= p.lastApplied && index < |G| && G[index].command == command
  {
    assert Queue(r, p)[0] == r.channel[0];
    assert MsgFits(Queue(r, p)[0], r.lastApplied, G);
    EndGrows(Queue(r, p)[1..], index, G);
  }

  /** A committed entry is committed in the log of the leader of its own term. */
  lemma CommittedInTerm(a: P.State, G: Log, i: nat, bound: nat)
    requires P.Inv(a) && i < |G| && P.CommittedTo(a, G, i + 1, bound)
    requires G[i].term in a.reigns && Agree(G, a.reigns[G[i].term].log, i + 1)
    ensures EverCommitted(a, a.reigns[G[i].term].log, i + 1)
  {
    CommittedLike(a, G, a.reigns[G[i].term].log, i + 1, bound);
  }
}
