// Compaction, snapshot transfer, the applier and restarts take the cluster along the protocol.
module SnapshotProof {
  import opened Core
  import opened RaftTypes
  import opened RaftPeer
  import opened Cluster
  import P = Protocol
  import opened ProtocolProof
  import opened ClusterInvariant
  import opened ElectionProof
  import opened ReplicationProof

  lemma SnapshotRequestOk(a: P.State, i: nat, p: Peer)
    requires P.Inv(a) && NodeOk(a, i, p) && p.role == Leader
    ensures SnapshotRequest(p).leaderId == i && SnapArgsOk(a, SnapshotRequest(p))
  {
    CommittedLess(a, a.log[i], p.commitIndex + 1, p.lastIncludedIndex + 1, p.currentTerm);
  }

  /** The fields after a snapshot at m's index has replaced the log up to there. */
  ghost predicate Installed(p: Peer, m: InstallSnapshotArgs, p': Peer) {
    p' == p.(log := p'.log, lastIncludedIndex := m.lastIncludedIndex, lastIncludedTerm := m.lastIncludedTerm,
             commitIndex := if p.commitIndex < m.lastIncludedIndex then m.lastIncludedIndex else p.commitIndex,
             lastApplied := if p.lastApplied < m.lastIncludedIndex then m.lastIncludedIndex else p.lastApplied,
             pending := p'.pending, disk := p'.disk)
  }

  /** Keeping the suffix when the snapshot's entry is in the log, and dropping everything when it
      is not, is the same as adopting the leader's prefix. */
  lemma InstallRefines(a: P.State, p: Peer, G: Log, R: Log, t: nat, m: InstallSnapshotArgs)
    requires P.WfLog(a, G, t) && P.WfLog(a, R, t) && p.Valid() && Refines(p, G)
    requires p.lastIncludedIndex < m.lastIncludedIndex < |R| && p.currentTerm <= m.term
    requires R[m.lastIncludedIndex].term == m.lastIncludedTerm
    requires m.data.Some?
    ensures Refines(InstallInTerm(p, m), P.Adopted(G, R, m.lastIncludedIndex + 1))
    ensures Installed(p, m, InstallInTerm(p, m)) && DiskOk(InstallInTerm(p, m))
  {
    var s := m.lastIncludedIndex;
    var b := p.lastIncludedIndex;
    var p' := InstallInTerm(p, m);
    RefinesLast(p, G);
    if p.InLog(s) {
      RefinesTerm(p, G, s);
      if G[s].term == R[s].term {
        P.LogMatching(a, R, t, G, t, s);
        forall k: nat | 0 < k < |p'.log| ensures p'.log[k] == G[s + k] {
          assert p'.log[k] == p.log[s - b + k];
        }
      } else {
        assert !Agree(R, G, s + 1);
      }
    }
  }

  lemma InstallNodeOk(a: P.State, i: nat, p: Peer, m: InstallSnapshotArgs, p': Peer)
    requires NodeOk(a, i, p) && p.role == Follower && p.currentTerm in a.reigns && p.currentTerm == m.term
    requires p.lastIncludedIndex < m.lastIncludedIndex < |a.reigns[p.currentTerm].log|
    requires Installed(p, m, p') && DiskOk(p')
    requires var a' := P.Adopt(a, i, m.lastIncludedIndex + 1);
             && Refines(p', a'.log[i])
             && P.CommittedTo(a', a'.log[i], p.commitIndex + 1, p.currentTerm)
             && P.CommittedTo(a', a'.log[i], m.lastIncludedIndex + 1, p.currentTerm)
             && p.commitIndex < |a'.log[i]|
    ensures NodeOk(P.Adopt(a, i, m.lastIncludedIndex + 1), i, p')
  {
  }

  lemma SameLogNodeOk(a: P.State, i: nat, p: Peer, m: nat)
    requires NodeOk(a, i, p) && p.role == Follower && p.currentTerm in a.reigns
    requires m <= |a.reigns[p.currentTerm].log| && Agree(a.reigns[p.currentTerm].log, a.log[i], m)
    requires Grows(a, P.Adopt(a, i, m))
    ensures NodeOk(P.Adopt(a, i, m), i, p)
  {
    CommittedToGrows(a, P.Adopt(a, i, m), a.log[i], p.commitIndex + 1, p.currentTerm, p.currentTerm);
  }

  lemma SnapArgsGrows(a: P.State, a': P.State, m: InstallSnapshotArgs)
    requires Grows(a, a') && SnapArgsOk(a, m) && a'.reigns == a.reigns
    ensures SnapArgsOk(a', m)
  {
    CommittedInReignGrows(a, a', m.term, m.lastIncludedIndex + 1);
  }

  lemma InstallInTermOk(a: P.State, i: nat, p: Peer, m: InstallSnapshotArgs) returns (a': P.State)
    requires P.Inv(a) && NodeOk(a, i, p) && p.role == Follower && p.Valid()
    requires SnapArgsOk(a, m) && m.leaderId != i && p.currentTerm == m.term
    ensures a'.reigns == a.reigns
    ensures Acts(a, a', i) && NodeOk(a', i, InstallInTerm(p, m))
    ensures m.lastIncludedIndex < P.Ack(a', i, m.term)
  {
    a' := P.Adopt(a, i, m.lastIncludedIndex + 1);
    AdoptActs(a, i, m.lastIncludedIndex + 1);
    if m.lastIncludedIndex <= p.lastIncludedIndex {
      StaleInstallOk(a, i, p, m);
    } else {
      NewInstallOk(a, i, p, m);
    }
  }

  /** A snapshot no newer than the one already installed is ignored, and the committed logs behind
      the two agree, so the follower does hold what the leader will credit it with. */
  lemma StaleInstallOk(a: P.State, i: nat, p: Peer, m: InstallSnapshotArgs)
    requires P.Inv(a) && NodeOk(a, i, p) && p.role == Follower && p.Valid()
    requires SnapArgsOk(a, m) && p.currentTerm == m.term && m.lastIncludedIndex <= p.lastIncludedIndex
    requires Grows(a, P.Adopt(a, i, m.lastIncludedIndex + 1))
    ensures NodeOk(P.Adopt(a, i, m.lastIncludedIndex + 1), i, InstallInTerm(p, m))
  {
    var t := p.currentTerm;
    P.CommittedAgree(a, a.reigns[t].log, m.lastIncludedIndex + 1, t, a.log[i], p.commitIndex + 1, t);
    SameLogNodeOk(a, i, p, m.lastIncludedIndex + 1);
  }

  lemma NewInstallOk(a: P.State, i: nat, p: Peer, m: InstallSnapshotArgs)
    requires P.Inv(a) && NodeOk(a, i, p) && p.role == Follower && p.Valid()
    requires SnapArgsOk(a, m) && p.currentTerm == m.term && p.lastIncludedIndex < m.lastIncludedIndex
    requires P.Inv(P.Adopt(a, i, m.lastIncludedIndex + 1)) && Grows(a, P.Adopt(a, i, m.lastIncludedIndex + 1))
    ensures NodeOk(P.Adopt(a, i, m.lastIncludedIndex + 1), i, InstallInTerm(p, m))
  {
    hide Grows, InstallInTerm;
    var t := p.currentTerm;
    var s := m.lastIncludedIndex;
    var a' := P.Adopt(a, i, s + 1);
    AdoptKeepsCommitted(a, i, s + 1, p.commitIndex + 1);
    assert P.PeerOk(a, i) && P.ReignOk(a, t);
    InstallRefines(a, p, a.log[i], a.reigns[t].log, t, m);
    SnapArgsGrows(a, a', m);
    CommittedLike(a', a.reigns[t].log, a'.log[i], s + 1, t);
    InstallNodeOk(a, i, p, m, InstallInTerm(p, m));
  }

  lemma InstallSnapshotOk(a: P.State, i: nat, p: Peer, m: InstallSnapshotArgs) returns (a': P.State)
    requires P.Inv(a) && NodeOk(a, i, p) && p.Valid()
    requires SnapArgsOk(a, m) && m.leaderId != i && m.leaderId < a.n
    ensures Acts(a, a', i) && NodeOk(a', i, InstallSnapshot(p, m).0)
    ensures SnapReplyOk(a', i, m, InstallSnapshot(p, m).1)
  {
    if m.term < p.currentTerm {
      a' := a;
      ActsNone(a, i);
    } else {
      var a1 := HeedLeaderOk(a, i, p, m.term, m.leaderId);
      SnapArgsGrows(a, a1, m);
      a' := InstallInTermOk(a1, i, HeedLeader(p, m.term), m);
      ActsTransitive(a, a1, a', i);
    }
  }

  lemma SnapshotReplyOk(a: P.State, i: nat, p: Peer, q: nat, m: InstallSnapshotArgs, r: InstallSnapshotReply)
    returns (a': P.State)
    requires P.Inv(a) && NodeOk(a, i, p) && p.Valid() && q < p.n && SnapReplyOk(a, q, m, r)
    ensures Acts(a, a', i) && NodeOk(a', i, SnapshotReply(p, q, m, r))
  {
    if p.role == Leader && p.currentTerm == m.term && r.term > p.currentTerm {
      a' := StepDownOk(a, i, p, r.term);
    } else {
      a' := a;
      ActsNone(a, i);
      if p.role == Leader && p.currentTerm == m.term {
        ProgressOk(a, i, p, q, m.lastIncludedIndex);
      }
    }
  }

  // ---------- local steps ----------

  /** A leader's bookkeeping does not depend on how much of its log is compacted or applied. */
  lemma LeaderLocal(a: P.State, i: nat, p: Peer, p': Peer)
    requires NodeOk(a, i, p) && (p.role == Leader ==> LeaderOk(a, i, p))
    requires p' == p.(log := p'.log, lastIncludedIndex := p'.lastIncludedIndex, lastIncludedTerm := p'.lastIncludedTerm,
                      lastApplied := p'.lastApplied, pending := p'.pending, disk := p'.disk)
    ensures p.role == Leader ==> LeaderOk(a, i, p')
    ensures p.role == Candidate ==> CandidateOk(a, i, p')
  {
    if p.role == Leader {
      forall q: nat | q < p.n ensures FollowerKnown(a, p', a.log[i], q) {
        assert FollowerKnown(a, p, a.log[i], q);
      }
    }
    if p.role == Candidate {
      var g: set<nat> :| Granters(a, i, p, g);
      assert Granters(a, i, p', g);
    }
  }

  /** Snapshot changes only how the committed prefix is represented. */
  lemma CompactOk(a: P.State, i: nat, p: Peer, index: nat, data: GroupState)
    requires NodeOk(a, i, p) && p.Valid() && index <= p.lastApplied
    ensures index <= p.commitIndex <= p.GetLastLogIndex()
    ensures NodeOk(a, i, Compact(p, index, data))
  {
    RefinesLast(p, a.log[i]);
    if index > p.lastIncludedIndex {
      var p' := Compact(p, index, data);
      RefinesTerm(p, a.log[i], index);
      forall k: nat | 0 < k < |p'.log| ensures p'.log[k] == a.log[i][index + k] {
        assert p'.log[k] == p.log[index - p.lastIncludedIndex + k];
      }
      LeaderLocal(a, i, p, p');
    }
  }

  lemma ApplyOk(a: P.State, i: nat, p: Peer)
    requires NodeOk(a, i, p) && p.Valid()
    ensures p.commitIndex <= p.GetLastLogIndex()
    ensures NodeOk(a, i, Apply(p).0)
  {
    RefinesLast(p, a.log[i]);
    LeaderLocal(a, i, p, Apply(p).0);
  }

  /** A crash loses nothing the protocol relies on. */
  lemma RestartOk(a: P.State, i: nat, p: Peer)
    requires NodeOk(a, i, p)
    ensures NodeOk(a, i, Make(p.me, p.n, p.disk))
    ensures Make(p.me, p.n, p.disk).SerializeState() == p.SerializeState()
  {
    CommittedLess(a, a.log[i], p.commitIndex + 1, p.lastIncludedIndex + 1, p.currentTerm);
  }
}
