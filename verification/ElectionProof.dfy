// Each critical section of an election takes the cluster along the protocol.
module ElectionProof {
  import opened Core
  import opened RaftTypes
  import opened RaftPeer
  import opened Cluster
  import P = Protocol
  import opened ProtocolProof
  import opened ClusterInvariant

  lemma RefinesLast(p: Peer, G: Log)
    requires Refines(p, G)
    ensures |p.log| > 0
    ensures p.GetLastLogIndex() == |G| - 1 && p.GetLastLogTerm() == LastTerm(G)
  {
  }

  lemma RefinesTerm(p: Peer, G: Log, i: nat)
    requires Refines(p, G) && |p.log| > 0 && p.InLog(i)
    ensures i < |G| && p.GetLogTerm(i) == G[i].term
  {
    if i > p.lastIncludedIndex {
      assert p.log[i - p.lastIncludedIndex] == G[i];
    }
  }

  lemma NodeValid(a: P.State, i: nat, p: Peer)
    requires NodeOk(a, i, p)
    ensures p.Valid()
  {
  }

  // ---------- taking up a higher term ----------

  lemma StepDownOk(a: P.State, i: nat, p: Peer, t: nat) returns (a': P.State)
    requires P.Inv(a) && NodeOk(a, i, p) && p.currentTerm < t
    ensures Acts(a, a', i) && NodeOk(a', i, p.StepDown(t))
    ensures a'.log == a.log && a'.reigns == a.reigns && a'.cands == a.cands
  {
    a' := P.Bump(a, i, t);
    BumpKeeps(a, i, t);
    LogsEqualKept(a, a', i);
    forall j: nat | j < a.n && j != i ensures Untouched(a, a', j) {
      assert P.Ack(a, 0, 0) == P.Ack(a', 0, 0);
    }
    RecordsPast(a, i, t);
    CommittedToGrows(a, a', a.log[i], p.commitIndex + 1, p.currentTerm, t);
  }

  lemma LeaderReachedTerm(a: P.State, t: nat)
    requires P.Inv(a) && t in a.reigns && t > 0
    ensures a.reigns[t].leader < a.n && t <= a.term[a.reigns[t].leader]
  {
    assert P.ReignOk(a, t);
    var r := a.reigns[t];
    assert r.electors != {};
    var q :| q in r.electors;
    assert P.VotedFor(a, q, t, r.leader);
    assert P.VoteOk(a, (q, t));
    assert P.CandOk(a, (r.leader, t));
  }

  lemma StandActs(a: P.State, i: nat, t: nat)
    requires P.Inv(a) && i < a.n && t == a.term[i] + 1
    ensures Acts(a, P.Stand(a, i, t), i)
  {
    var a' := P.Stand(a, i, t);
    StandKeeps(a, i, t);
    LogsEqualKept(a, a', i);
    forall j: nat | j < a.n && j != i ensures Untouched(a, a', j) {
      assert P.Ack(a, 0, 0) == P.Ack(a', 0, 0);
    }
  }

  lemma StandNodeOk(a: P.State, i: nat, p: Peer)
    requires NodeOk(a, i, p) && Grows(a, P.Stand(a, i, p.currentTerm + 1))
    requires p.currentTerm + 1 in a.reigns ==> a.reigns[p.currentTerm + 1].leader != i
    ensures NodeOk(P.Stand(a, i, p.currentTerm + 1), i, StartElection(p))
  {
    var t := p.currentTerm + 1;
    var p' := StartElection(p);
    var a' := P.Stand(a, i, t);
    CommittedToGrows(a, a', a.log[i], p.commitIndex + 1, p.currentTerm, t);
    assert P.VotedFor(a', i, t, i);
    assert Granters(a', i, p', {i});
  }

  lemma StartElectionOk(a: P.State, i: nat, p: Peer) returns (a': P.State)
    requires P.Inv(a) && NodeOk(a, i, p)
    ensures Acts(a, a', i) && NodeOk(a', i, StartElection(p))
    ensures StartElection(p).Valid() && VoteArgsOk(a', VoteRequest(StartElection(p)))
  {
    hide P.PeersOk, P.ReignsOk, P.RecordsOk, P.KeptOk, P.SafeOk;
    var t := p.currentTerm + 1;
    a' := P.Stand(a, i, t);
    StandActs(a, i, t);
    if t in a.reigns {
      LeaderReachedTerm(a, t);
    }
    StandNodeOk(a, i, p);
    RefinesLast(StartElection(p), a'.log[i]);
  }

  // ---------- voting ----------

  lemma CastVoteActs(a: P.State, i: nat, c: nat)
    requires P.Inv(a) && i < a.n && (i, a.term[i]) !in a.votes && (c, a.term[i]) in a.cands
    requires |a.cands[(c, a.term[i])]| > 0 && |a.log[i]| > 0 && UpToDate(a.cands[(c, a.term[i])], a.log[i])
    ensures Acts(a, P.CastVote(a, i, c), i)
  {
    var a' := P.CastVote(a, i, c);
    CastVoteKeeps(a, i, c);
    LogsEqualKept(a, a', i);
    forall j: nat | j < a.n && j != i ensures Untouched(a, a', j) {
      assert P.Ack(a, 0, 0) == P.Ack(a', 0, 0);
    }
  }

  /** A first vote of the term. */
  lemma FirstGrantOk(a: P.State, i: nat, p: Peer, m: RequestVoteArgs) returns (a': P.State)
    requires P.Inv(a) && NodeOk(a, i, p)
    requires VoteArgsOk(a, m) && m.term == p.currentTerm && p.votedFor == -1
    requires p.Valid() && LogUpToDate(p, m)
    ensures Acts(a, a', i) && NodeOk(a', i, p.(votedFor := m.candidateId).Persist())
    ensures P.VotedFor(a', i, m.term, m.candidateId)
  {
    hide P.PeersOk, P.ReignsOk, P.RecordsOk, P.KeptOk, P.SafeOk, LeaderOk;
    RefinesLast(p, a.log[i]);
    a' := P.CastVote(a, i, m.candidateId);
    CastVoteActs(a, i, m.candidateId);
    CommittedToGrows(a, a', a.log[i], p.commitIndex + 1, p.currentTerm, p.currentTerm);
    LeaderUnmoved(a, a', i, p, p.(votedFor := m.candidateId).Persist());
  }

  /** The vote was this candidate's already. */
  lemma RepeatedGrantOk(a: P.State, i: nat, p: Peer, candidate: nat)
    requires NodeOk(a, i, p) && p.votedFor == candidate
    ensures NodeOk(a, i, p.(votedFor := candidate).Persist())
    ensures P.VotedFor(a, i, p.currentTerm, candidate)
  {
    hide LeaderOk;
    var p' := p.(votedFor := candidate).Persist();
    if p.role == Candidate {
      var g: set<nat> :| Granters(a, i, p, g);
      assert Granters(a, i, p', g);
    }
    LeaderUnmoved(a, a, i, p, p');
  }

  lemma GrantOk(a: P.State, i: nat, p: Peer, m: RequestVoteArgs) returns (a': P.State)
    requires P.Inv(a) && NodeOk(a, i, p)
    requires VoteArgsOk(a, m) && m.term == p.currentTerm
    requires p.votedFor == -1 || p.votedFor == m.candidateId
    requires p.Valid() && LogUpToDate(p, m)
    ensures Acts(a, a', i) && NodeOk(a', i, p.(votedFor := m.candidateId).Persist())
    ensures P.VotedFor(a', i, m.term, m.candidateId)
  {
    hide NodeOk, P.Inv;
    if p.votedFor == -1 {
      a' := FirstGrantOk(a, i, p, m);
    } else {
      a' := a;
      ActsNone(a, i);
      RepeatedGrantOk(a, i, p, m.candidateId);
    }
  }

  /** A leader's bookkeeping survives steps that leave the reigns and its own log alone. */
  lemma LeaderUnmoved(a: P.State, a': P.State, i: nat, p: Peer, p': Peer)
    requires P.Shape(a) && P.Shape(a') && a'.n == a.n && i < a.n
    requires p.n == |p.nextIndex| == |p.matchIndex|
    requires a'.term == a.term && a'.log == a.log && a'.reigns == a.reigns && a'.acks == a.acks
    requires p.role == Leader ==> LeaderOk(a, i, p)
    requires p' == p.(votedFor := p'.votedFor, disk := p'.disk)
    ensures p.role == Leader ==> LeaderOk(a', i, p')
  {
    if p.role == Leader {
      forall q: nat | q < p.n ensures FollowerKnown(a', p', a'.log[i], q) {
        assert FollowerKnown(a, p, a.log[i], q);
      }
    }
  }

  lemma RequestVoteOk(a: P.State, i: nat, p: Peer, m: RequestVoteArgs) returns (a': P.State)
    requires P.Inv(a) && NodeOk(a, i, p) && VoteArgsOk(a, m) && m.candidateId < a.n && p.Valid()
    ensures Acts(a, a', i) && NodeOk(a', i, RequestVote(p, m).0)
    ensures MsgOk(a', VoteRep(i, m, RequestVote(p, m).1))
  {
    hide P.PeersOk, P.ReignsOk, P.RecordsOk, P.KeptOk, P.SafeOk;
    a' := a;
    ActsNone(a, i);
    if m.term >= p.currentTerm {
      var p1 := p;
      if m.term > p.currentTerm {
        a' := StepDownOk(a, i, p, m.term);
        p1 := p.StepDown(m.term);
      }
      if (p1.votedFor == -1 || p1.votedFor == m.candidateId) && LogUpToDate(p, m) {
        assert LogUpToDate(p1, m);
        var a1 := a';
        a' := GrantOk(a1, i, p1, m);
        ActsTransitive(a, a1, a', i);
      }
    }
  }

  // ---------- counting ----------

  lemma VoteReplyOk(a: P.State, i: nat, p: Peer, q: nat, term: nat, r: RequestVoteReply) returns (a': P.State)
    requires P.Inv(a) && NodeOk(a, i, p) && p.Valid()
    requires r.voteGranted ==> P.VotedFor(a, q, term, i)
    requires p.role == Candidate && p.currentTerm == term ==> q in p.waiting
    ensures Acts(a, a', i) && NodeOk(a', i, VoteReply(p, q, term, r))
  {
    a' := a;
    ActsNone(a, i);
    if p.role == Candidate && p.currentTerm == term {
      var g: set<nat> :| Granters(a, i, p, g);
      var p1 := p.(waiting := p.waiting - {q});
      var p2 := p1.(votes := p.votes + 1);
      CountOk(a, i, p, q, g);
      if r.term > p.currentTerm {
        a' := StepDownOk(a, i, p1, r.term);
      } else if r.voteGranted && p2.votes > p.n / 2 {
        a' := WinOk(a, i, p2, g + {q});
      }
    }
  }

  /** The counter stays the size of a set of distinct granters: q was still awaited, so it is new. */
  lemma CountOk(a: P.State, i: nat, p: Peer, q: nat, g: set<nat>)
    requires NodeOk(a, i, p) && p.role == Candidate && q in p.waiting && Granters(a, i, p, g)
    ensures NodeOk(a, i, p.(waiting := p.waiting - {q}))
    ensures P.VotedFor(a, q, p.currentTerm, i) ==>
              var p2 := p.(waiting := p.waiting - {q}, votes := p.votes + 1);
              Granters(a, i, p2, g + {q}) && NodeOk(a, i, p2)
  {
    assert Granters(a, i, p.(waiting := p.waiting - {q}), g);
    if P.VotedFor(a, q, p.currentTerm, i) {
      var p2 := p.(waiting := p.waiting - {q}, votes := p.votes + 1);
      assert |g + {q}| == |g| + 1;
      assert Granters(a, i, p2, g + {q});
    }
  }

  lemma WinOk(a: P.State, i: nat, p: Peer, g: set<nat>) returns (a': P.State)
    requires P.Inv(a) && NodeOk(a, i, p) && p.Valid() && p.role == Candidate
    requires Granters(a, i, p, g) && p.votes > p.n / 2
    ensures Acts(a, a', i) && NodeOk(a', i, TransitionToLeader(p))
  {
    forall q | q in g ensures q < a.n {
      assert P.VotedFor(a, q, p.currentTerm, i);
    }
    assert CanElect(a, i, g);
    if p.currentTerm in a.reigns {
      OneLeader(a, i, g);
    }
    a' := P.Elect(a, i, g);
    ElectActs(a, i, g);
    NewLeaderOk(a, i, p, g);
  }

  lemma ElectActs(a: P.State, i: nat, g: set<nat>)
    requires P.Inv(a) && CanElect(a, i, g) && a.term[i] !in a.reigns
    ensures Acts(a, P.Elect(a, i, g), i)
  {
    var a' := P.Elect(a, i, g);
    ElectKeeps(a, i, g);
    LogsEqualKept(a, a', i);
    forall j: nat | j < a.n && j != i ensures Untouched(a, a', j) {
    }
  }

  lemma NewLeaderOk(a: P.State, i: nat, p: Peer, g: set<nat>)
    requires NodeOk(a, i, p) && p.Valid() && p.role == Candidate && P.CandOk(a, (i, p.currentTerm))
    requires Grows(a, P.Elect(a, i, g))
    ensures NodeOk(P.Elect(a, i, g), i, TransitionToLeader(p))
  {
    var a' := P.Elect(a, i, g);
    var p' := TransitionToLeader(p);
    CommittedToGrows(a, a', a.log[i], p.commitIndex + 1, p.currentTerm, p.currentTerm);
    RefinesLast(p, a.log[i]);
    forall q: nat | q < p'.n ensures FollowerKnown(a', p', a'.log[i], q) {
    }
  }
}
