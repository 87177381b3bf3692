// How the state of a cluster relates to the protocol over full logs.
module ClusterInvariant {
  import opened Core
  import opened RaftTypes
  import opened RaftPeer
  import opened Cluster
  import P = Protocol
  import opened ProtocolProof

  /** p's base and suffix represent the full log G. */
  ghost predicate Refines(p: Peer, G: Log) {
    && p.lastIncludedIndex < |G|
    && |p.log| == |G| - p.lastIncludedIndex
    && p.lastIncludedTerm == G[p.lastIncludedIndex].term
    && p.log[0] == Entry(p.lastIncludedTerm, p.lastIncludedIndex, NoCommand)
    && forall k: nat {:trigger p.log[k]} | 0 < k < |p.log| :: p.log[k] == G[p.lastIncludedIndex + k]
  }

  /** What is on disk is what is in memory. Before the first save there is nothing on disk
      and the fields still have their first values. */
  ghost predicate DiskOk(p: Peer) {
    && p.SerializeState() == (match p.disk.state
                              case Some(d) => d
                              case None => Durable(0, -1, [DUMMY], 0, 0))
    && (p.lastIncludedIndex > 0 ==> p.disk.snapshot.Some?)
  }

  ghost predicate BallotOk(a: P.State, i: nat, p: Peer) {
    if p.votedFor == -1 then (i, p.currentTerm) !in a.votes
    else p.votedFor >= 0 && P.VotedFor(a, i, p.currentTerm, p.votedFor)
  }

  /** votes counts the distinct peers of g, each of which voted for i in its current term. */
  ghost predicate Granters(a: P.State, i: nat, p: Peer, g: set<nat>) {
    && |g| == p.votes
    && g !! p.waiting
    && forall q: nat {:trigger P.VotedFor(a, q, p.currentTerm, i)} | q in g ::
         q < a.n && P.VotedFor(a, q, p.currentTerm, i)
  }

  ghost predicate CandidateOk(a: P.State, i: nat, p: Peer)
    requires i < |a.log|
  {
    && p.votedFor == i
    && (i, p.currentTerm) in a.cands
    && a.cands[(i, p.currentTerm)] == a.log[i]
    && (p.currentTerm in a.reigns ==> a.reigns[p.currentTerm].leader != i)
    && (forall q | q in p.waiting :: q < a.n && q != i)
    && exists g: set<nat> {:trigger Granters(a, i, p, g)} :: Granters(a, i, p, g)
  }

  ghost predicate FollowerKnown(a: P.State, p: Peer, G: Log, q: nat)
    requires q < |p.nextIndex| && q < |p.matchIndex|
  {
    && 1 <= p.nextIndex[q] <= |G|
    && (p.matchIndex[q] == 0 || p.matchIndex[q] < P.Ack(a, q, p.currentTerm))
  }

  ghost predicate LeaderOk(a: P.State, i: nat, p: Peer)
    requires p.n == |p.nextIndex| == |p.matchIndex| && i < |a.log|
  {
    && Leads(a, i)
    && P.Ack(a, i, p.currentTerm) == |a.log[i]|
    && forall q: nat {:trigger FollowerKnown(a, p, a.log[i], q)} | q < p.n :: FollowerKnown(a, p, a.log[i], q)
  }

  ghost predicate CommitOk(a: P.State, p: Peer, G: Log) {
    && p.lastIncludedIndex <= p.lastApplied <= p.commitIndex < |G|
    && P.CommittedTo(a, G, p.commitIndex + 1, p.currentTerm)
  }

  /** Peer i of the cluster is p, and its full log is a.log[i]. */
  ghost predicate NodeOk(a: P.State, i: nat, p: Peer) {
    && P.Shape(a) && i < a.n
    && p.me == i && p.n == a.n
    && |p.nextIndex| == |p.matchIndex| == p.n
    && p.currentTerm == a.term[i]
    && Refines(p, a.log[i])
    && DiskOk(p)
    && BallotOk(a, i, p)
    && CommitOk(a, p, a.log[i])
    && (p.role == Candidate ==> CandidateOk(a, i, p))
    && (p.role == Leader ==> LeaderOk(a, i, p))
  }

  // ---------- messages ----------

  ghost predicate VoteArgsOk(a: P.State, m: RequestVoteArgs) {
    && (m.candidateId, m.term) in a.cands
    && var C := a.cands[(m.candidateId, m.term)];
       |C| > 0 && m.lastLogIndex == |C| - 1 && m.lastLogTerm == LastTerm(C)
  }

  ghost predicate FromLeader(a: P.State, term: nat, leader: nat) {
    0 < term && term in a.reigns && a.reigns[term].leader == leader
  }

  /** The length of the leader's log when it sent m: m carries everything after prevLogIndex. */
  function Reach(m: AppendEntriesArgs): nat {
    m.prevLogIndex + 1 + |m.entries|
  }

  /** m's entries are those of R after prevLogIndex. */
  ghost predicate Carries(m: AppendEntriesArgs, R: Log) {
    && Reach(m) <= |R|
    && forall k: nat {:trigger m.entries[k]} | k < |m.entries| :: m.entries[k] == R[m.prevLogIndex + 1 + k]
  }

  /** m is a stretch of its leader's log. */
  ghost predicate PartOk(a: P.State, m: AppendEntriesArgs) {
    && FromLeader(a, m.term, m.leaderId)
    && var R := a.reigns[m.term].log;
       && Carries(m, R)
       && R[m.prevLogIndex].term == m.prevLogTerm
  }

  /** m is the whole tail of its leader's log at some moment of its term, so in particular the
      commit index it announces lies within it. */
  ghost predicate AppendArgsOk(a: P.State, m: AppendEntriesArgs) {
    && PartOk(a, m)
    && m.leaderCommit < Reach(m)
    && P.CommittedTo(a, a.reigns[m.term].log, m.leaderCommit + 1, m.term)
  }

  /** A success means the follower has held all of m while in m's term. A rejection points the
      leader somewhere within its own log. */
  ghost predicate AppendReplyOk(a: P.State, from: nat, m: AppendEntriesArgs, r: AppendEntriesReply) {
    && FromLeader(a, m.term, m.leaderId)
    && (r.success ==> Reach(m) <= P.Ack(a, from, m.term))
    && (!r.success && r.term <= m.term ==>
          (if r.xTerm == -1 then r.xLen else r.xIndex) <= |a.reigns[m.term].log|)
  }

  ghost predicate SnapArgsOk(a: P.State, m: InstallSnapshotArgs) {
    && FromLeader(a, m.term, m.leaderId)
    && var R := a.reigns[m.term].log;
       && m.lastIncludedIndex < |R|
       && R[m.lastIncludedIndex].term == m.lastIncludedTerm
       && P.CommittedTo(a, R, m.lastIncludedIndex + 1, m.term)
       && (m.lastIncludedIndex > 0 ==> m.data.Some?)
  }

  ghost predicate SnapReplyOk(a: P.State, from: nat, m: InstallSnapshotArgs, r: InstallSnapshotReply) {
    && FromLeader(a, m.term, m.leaderId)
    && (r.term <= m.term ==> m.lastIncludedIndex < P.Ack(a, from, m.term))
  }

  ghost predicate MsgOk(a: P.State, m: Msg) {
    match m
    case VoteReq(to, v) => to < a.n && v.candidateId < a.n && VoteArgsOk(a, v)
    case VoteRep(from, v, r) =>
      from < a.n && v.candidateId < a.n && (r.voteGranted ==> P.VotedFor(a, from, v.term, v.candidateId))
    case AppendReq(to, e) => to < a.n && e.leaderId < a.n && to != e.leaderId && AppendArgsOk(a, e)
    case AppendRep(from, e, r) => from < a.n && e.leaderId < a.n && AppendReplyOk(a, from, e, r)
    case SnapReq(to, s) => to < a.n && s.leaderId < a.n && to != s.leaderId && SnapArgsOk(a, s)
    case SnapRep(from, s, r) => from < a.n && s.leaderId < a.n && SnapReplyOk(a, from, s, r)
  }

  ghost predicate ClusterOk(c: Cluster, a: P.State) {
    && P.Inv(a)
    && |c.peers| == a.n
    && (forall i: nat {:trigger NodeOk(a, i, c.peers[i])} | i < a.n :: NodeOk(a, i, c.peers[i]))
    && (forall m {:trigger MsgOk(a, m)} | m in c.net :: MsgOk(a, m))
  }

  // ---------- what one peer's step leaves alone ----------

  ghost predicate Untouched(a: P.State, a': P.State, i: nat)
    requires P.Shape(a) && P.Shape(a') && i < a.n && a.n == a'.n
  {
    && a'.log[i] == a.log[i]
    && a'.term[i] == a.term[i]
    && (forall k {:trigger k in a'.votes} | k in a'.votes && k.0 == i :: k in a.votes)
    && (forall t {:trigger a'.reigns[t]} | t in a'.reigns && t > 0 && a'.reigns[t].leader == i ::
          t in a.reigns && a'.reigns[t] == a.reigns[t])
    && (forall t {:trigger P.Ack(a', i, t)} :: P.Ack(a', i, t) == P.Ack(a, i, t))
  }

  /** Whatever of q's log is committed is still in it. */
  ghost predicate LogKept(a: P.State, a': P.State, q: nat)
    requires P.Shape(a) && P.Shape(a') && q < a.n && a.n == a'.n
  {
    forall m {:trigger P.CommittedTo(a, a.log[q], m, a.term[q])} |
      P.CommittedTo(a, a.log[q], m, a.term[q]) ::
      Agree(a.log[q], a'.log[q], m)
  }

  ghost predicate Moves(a: P.State, a': P.State, q: nat) {
    && P.Inv(a')
    && Grows(a, a')
    && (q < a.n ==> LogKept(a, a', q))
    && forall i: nat {:trigger Untouched(a, a', i)} | i < a.n && i != q :: Untouched(a, a', i)
  }

  /** No leader appends a command. */
  ghost predicate Quiet(a: P.State, a': P.State) {
    forall t {:trigger a'.reigns[t]} | t in a'.reigns ::
      a'.reigns[t].log == if t in a.reigns then a.reigns[t].log else a'.reigns[t].start
  }

  ghost predicate Acts(a: P.State, a': P.State, q: nat) {
    Moves(a, a', q) && Quiet(a, a')
  }

  lemma ActsNone(a: P.State, q: nat)
    requires P.Inv(a)
    ensures Acts(a, a, q)
  {
    if q < a.n {
      LogsEqualKept(a, a, q);
    }
  }

  lemma LogsEqualKept(a: P.State, a': P.State, q: nat)
    requires P.Shape(a) && P.Shape(a') && q < a.n && a.n == a'.n
    requires |a.log[q]| <= |a'.log[q]| && Agree(a.log[q], a'.log[q], |a.log[q]|)
    ensures LogKept(a, a', q)
  {
  }

  lemma LogKeptTransitive(a: P.State, b: P.State, c: P.State, q: nat)
    requires Grows(a, b) && P.Shape(c) && c.n == a.n && q < a.n && LogKept(a, b, q) && LogKept(b, c, q)
    ensures LogKept(a, c, q)
  {
    forall m | P.CommittedTo(a, a.log[q], m, a.term[q]) ensures Agree(a.log[q], c.log[q], m) {
      assert b.term[q] >= a.term[q];
      CommittedToGrows(a, b, a.log[q], m, a.term[q], b.term[q]);
      CommittedLike(b, a.log[q], b.log[q], m, b.term[q]);
    }
  }

  lemma ActsTransitive(a: P.State, b: P.State, c: P.State, q: nat)
    requires Acts(a, b, q) && Acts(b, c, q)
    ensures Acts(a, c, q)
  {
    GrowsTransitive(a, b, c);
    forall t | t in c.reigns
      ensures c.reigns[t].log == if t in a.reigns then a.reigns[t].log else c.reigns[t].start
    {
      assert t in a.reigns ==> ReignGrows(a, b, t);
      assert t in b.reigns ==> ReignGrows(b, c, t);
    }
    if q < a.n {
      LogKeptTransitive(a, b, c, q);
    }
    forall i: nat | i < a.n && i != q ensures Untouched(a, c, i) {
      assert Untouched(a, b, i) && Untouched(b, c, i);
      forall k | k in c.votes && k.0 == i ensures k in a.votes {
        assert k in b.votes;
      }
      forall t ensures P.Ack(c, i, t) == P.Ack(a, i, t) {
        assert P.Ack(b, i, t) == P.Ack(a, i, t);
      }
    }
  }

  lemma NodeUntouched(a: P.State, a': P.State, i: nat, p: Peer)
    requires P.Inv(a) && Grows(a, a') && NodeOk(a, i, p) && Untouched(a, a', i)
    ensures NodeOk(a', i, p)
  {
    CommittedToGrows(a, a', a.log[i], p.commitIndex + 1, p.currentTerm, p.currentTerm);
    assert (i, p.currentTerm) in a'.votes ==> (i, p.currentTerm) in a.votes;
    if p.role == Candidate {
      var g: set<nat> :| Granters(a, i, p, g);
      forall q | q in g ensures q < a.n && P.VotedFor(a', q, p.currentTerm, i) {
        assert P.VotedFor(a, q, p.currentTerm, i);
      }
      assert Granters(a', i, p, g);
      assert (i, p.currentTerm) in a'.cands;
      assert P.CandOk(a, (i, p.currentTerm));
    }
    if p.role == Leader {
      assert ReignGrows(a, a', p.currentTerm);
      forall q: nat | q < p.n ensures FollowerKnown(a', p, a'.log[i], q) {
        assert FollowerKnown(a, p, a.log[i], q);
        assert P.Ack(a, q, p.currentTerm) <= P.Ack(a', q, p.currentTerm);
      }
    }
  }

  lemma FromLeaderGrows(a: P.State, a': P.State, term: nat, leader: nat)
    requires Grows(a, a') && FromLeader(a, term, leader)
    ensures FromLeader(a', term, leader)
    ensures ReignGrows(a, a', term)
  {
    assert ReignGrows(a, a', term);
  }

  lemma CommittedInReignGrows(a: P.State, a': P.State, t: nat, m: nat)
    requires Grows(a, a') && t in a.reigns && t in a'.reigns && m <= |a.reigns[t].log|
    requires P.CommittedTo(a, a.reigns[t].log, m, t)
    ensures P.CommittedTo(a', a'.reigns[t].log, m, t)
  {
    var R := a.reigns[t].log;
    CommittedToGrows(a, a', R, m, t, t);
    assert ReignGrows(a, a', t);
    CommittedLike(a', R, a'.reigns[t].log, m, t);
  }

  lemma CommittedLike(a: P.State, L: Log, L': Log, m: nat, bound: nat)
    requires P.CommittedTo(a, L, m, bound) && Agree(L, L', m)
    ensures P.CommittedTo(a, L', m, bound)
  {
    var t: nat, i: nat :| t <= bound && m <= i && P.Committed(a, t, i) && Agree(L, a.reigns[t].log, m);
    assert P.Committed(a, t, i) && Agree(L', a.reigns[t].log, m);
  }

  lemma CommittedLess(a: P.State, L: Log, m: nat, m': nat, bound: nat)
    requires P.CommittedTo(a, L, m, bound) && m' <= m
    ensures P.CommittedTo(a, L, m', bound)
  {
    var t: nat, i: nat :| t <= bound && m <= i && P.Committed(a, t, i) && Agree(L, a.reigns[t].log, m);
    assert P.Committed(a, t, i) && Agree(L, a.reigns[t].log, m');
  }

  lemma MsgGrows(a: P.State, a': P.State, m: Msg)
    requires Grows(a, a') && MsgOk(a, m)
    ensures MsgOk(a', m)
  {
    match m
    case VoteReq(to, v) =>
      assert (v.candidateId, v.term) in a'.cands;
    case VoteRep(from, v, r) =>
      assert r.voteGranted ==> (from, v.term) in a'.votes;
    case AppendReq(to, e) =>
      FromLeaderGrows(a, a', e.term, e.leaderId);
      CommittedInReignGrows(a, a', e.term, e.leaderCommit + 1);
    case AppendRep(from, e, r) =>
      FromLeaderGrows(a, a', e.term, e.leaderId);
      assert P.Ack(a, from, e.term) <= P.Ack(a', from, e.term);
    case SnapReq(to, s) =>
      FromLeaderGrows(a, a', s.term, s.leaderId);
      CommittedInReignGrows(a, a', s.term, s.lastIncludedIndex + 1);
    case SnapRep(from, s, r) =>
      FromLeaderGrows(a, a', s.term, s.leaderId);
      assert P.Ack(a, from, s.term) <= P.Ack(a', from, s.term);
  }

  /** One peer moves, the network gains messages, and the rest of the cluster is as it was. */
  lemma Assemble(c: Cluster, a: P.State, a': P.State, q: nat, p': Peer, sent: set<Msg>)
    requires ClusterOk(c, a) && q < a.n && Moves(a, a', q) && NodeOk(a', q, p')
    requires forall m {:trigger MsgOk(a', m)} | m in sent :: MsgOk(a', m)
    ensures ClusterOk(Cluster(c.peers[q := p'], c.net + sent), a')
  {
    var c' := Cluster(c.peers[q := p'], c.net + sent);
    forall i: nat | i < a'.n ensures NodeOk(a', i, c'.peers[i]) {
      if i != q {
        assert NodeOk(a, i, c.peers[i]);
        assert Untouched(a, a', i);
        NodeUntouched(a, a', i, c.peers[i]);
      }
    }
    forall m | m in c'.net ensures MsgOk(a', m) {
      if m !in sent {
        assert MsgOk(a, m);
        MsgGrows(a, a', m);
      }
    }
  }
}
