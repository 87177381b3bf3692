// Each critical section of log replication takes the cluster along the protocol.
module ReplicationProof {
  import opened Core
  import opened RaftTypes
  import opened RaftPeer
  import opened Cluster
  import P = Protocol
  import opened ProtocolProof
  import opened ClusterInvariant
  import opened ElectionProof

  // ---------- the leader appends and sends ----------

  lemma StartOk(a: P.State, i: nat, p: Peer, command: Command) returns (a': P.State)
    requires P.Inv(a) && NodeOk(a, i, p) && p.Valid()
    ensures Moves(a, a', i) && NodeOk(a', i, Start(p, command).0)
    ensures a' == if p.role == Leader then P.Propose(a, i, Entry(p.currentTerm, |a.log[i]|, command)) else a
  {
    if p.role == Leader {
      var e := Entry(p.currentTerm, |a.log[i]|, command);
      a' := P.Propose(a, i, e);
      ProposeActs(a, i, e);
      RefinesLast(p, a.log[i]);
      StartLeaderOk(a, i, p, e);
    } else {
      a' := a;
      ActsNone(a, i);
    }
  }

  lemma ProposeActs(a: P.State, i: nat, e: Entry)
    requires P.Inv(a) && Leads(a, i) && e.term == a.term[i] && e.index == |a.log[i]|
    ensures Moves(a, P.Propose(a, i, e), i)
  {
    ProposeKeeps(a, i, e);
    var a' := P.Propose(a, i, e);
    LogsEqualKept(a, a', i);
    forall j: nat | j < a.n && j != i ensures Untouched(a, a', j) {
    }
  }

  lemma StartLeaderOk(a: P.State, i: nat, p: Peer, e: Entry)
    requires NodeOk(a, i, p) && p.role == Leader && e == Entry(p.currentTerm, |a.log[i]|, e.command)
    requires Leads(a, i) && Grows(a, P.Propose(a, i, e))
    ensures NodeOk(P.Propose(a, i, e), i, p.(log := p.log + [e]).Persist())
  {
    var a' := P.Propose(a, i, e);
    var p' := p.(log := p.log + [e]).Persist();
    forall q: nat | q < p'.n ensures FollowerKnown(a', p', a'.log[i], q) {
      assert FollowerKnown(a, p, a.log[i], q);
      assert P.Ack(a, q, p.currentTerm) <= P.Ack(a', q, p.currentTerm);
    }
    CommittedToGrows(a, a', a.log[i], p.commitIndex + 1, p.currentTerm, p.currentTerm);
    CommittedLike(a', a.log[i], a'.log[i], p.commitIndex + 1, p.currentTerm);
  }

  /** A message carries the whole tail of the leader's log, and so covers its commit index. */
  lemma AppendRequestOk(a: P.State, i: nat, p: Peer, q: nat)
    requires P.Inv(a) && NodeOk(a, i, p) && p.Valid() && q < p.n
    ensures p.role == Leader ==> 1 <= p.nextIndex[q] <= p.GetLastLogIndex() + 1
    ensures p.role == Leader && AppendRequest(p, q).Some? ==>
              AppendRequest(p, q).value.leaderId == i && AppendArgsOk(a, AppendRequest(p, q).value)
  {
    if p.role == Leader {
      assert FollowerKnown(a, p, a.log[i], q);
      var R := a.log[i];
      RefinesLast(p, R);
      if AppendRequest(p, q).Some? {
        var m := AppendRequest(p, q).value;
        var prev := m.prevLogIndex;
        RefinesTerm(p, R, prev);
        assert Reach(m) == |R|;
        forall k: nat | k < |m.entries| ensures m.entries[k] == R[prev + 1 + k] {
          assert p.log[prev + 1 - p.lastIncludedIndex + k] == R[prev + 1 + k];
        }
        assert P.ReignOk(a, p.currentTerm);
      }
    }
  }

  // ---------- the follower ----------

  /** Entries found in the log with the leader's terms are the leader's entries. */
  lemma MatchedAgree(a: P.State, p: Peer, G: Log, R: Log, t: nat, m: AppendEntriesArgs)
    requires P.WfLog(a, G, t) && P.WfLog(a, R, t) && Refines(p, G) && Carries(m, R)
    requires p.lastIncludedIndex <= m.prevLogIndex < |G| && G[m.prevLogIndex].term == R[m.prevLogIndex].term
    ensures Agree(R, G, m.prevLogIndex + 1 + Matched(p.log, m.prevLogIndex + 1 - p.lastIncludedIndex, m.entries, 0))
  {
    var off := m.prevLogIndex + 1 - p.lastIncludedIndex;
    var k := Matched(p.log, off, m.entries, 0);
    if k > 0 {
      MatchedAt(p.log, off, m.entries, 0, k - 1);
      assert p.log[off + (k - 1)] == G[m.prevLogIndex + k];
    }
    P.LogMatching(a, R, t, G, t, m.prevLogIndex + k);
  }

  /** Where matching stops the logs part. */
  lemma UnmatchedDisagree(p: Peer, G: Log, R: Log, m: AppendEntriesArgs)
    requires Refines(p, G) && p.lastIncludedIndex <= m.prevLogIndex < |G| && Carries(m, R)
    requires Matched(p.log, m.prevLogIndex + 1 - p.lastIncludedIndex, m.entries, 0) < |m.entries|
    ensures !Agree(R, G, Reach(m))
  {
    var off := m.prevLogIndex + 1 - p.lastIncludedIndex;
    var k := Matched(p.log, off, m.entries, 0);
    var x := m.prevLogIndex + 1 + k;
    MatchedEnds(p.log, off, m.entries, 0);
    assert m.entries[k] == R[x];
    if x < |G| {
      assert p.log[off + k] == G[x];
    }
  }

  /** Cutting at the first conflict and appending the rest yields the leader's prefix, saved. */
  lemma TakenAtRefines(p: Peer, G: Log, R: Log, m: AppendEntriesArgs, k: nat)
    requires Refines(p, G) && DiskOk(p) && p.lastIncludedIndex <= m.prevLogIndex < |G| && Carries(m, R)
    requires k < |m.entries| && m.prevLogIndex + 1 + k <= |G| && Agree(R, G, m.prevLogIndex + 1 + k)
    ensures var p' := TakenAt(p, m.prevLogIndex + 1 - p.lastIncludedIndex + k, m.entries[k..]);
            Refines(p', R[..Reach(m)]) && DiskOk(p')
  {
    var b := p.lastIncludedIndex;
    var cut := m.prevLogIndex + 1 - b + k;
    var p' := TakenAt(p, cut, m.entries[k..]);
    forall y: nat | 0 < y < |p'.log| ensures p'.log[y] == R[b + y] {
      if y < cut {
        assert p.log[y] == G[b + y];
      } else {
        assert p'.log[y] == m.entries[k + (y - cut)];
      }
    }
  }

  lemma AdoptActs(a: P.State, i: nat, m: nat)
    requires P.Inv(a) && i < a.n && a.term[i] in a.reigns && 0 < a.term[i] && a.reigns[a.term[i]].leader != i
    requires 0 < m <= |a.reigns[a.term[i]].log|
    ensures Acts(a, P.Adopt(a, i, m), i)
  {
    AdoptKeeps(a, i, m);
    var a' := P.Adopt(a, i, m);
    forall c | P.CommittedTo(a, a.log[i], c, a.term[i]) ensures Agree(a.log[i], a'.log[i], c) {
      AdoptKeepsCommitted(a, i, m, c);
    }
    forall j: nat | j < a.n && j != i ensures Untouched(a, a', j) {
    }
  }

  /** Adopting a prefix of the leader's log never takes back anything committed. */
  lemma AdoptKeepsCommitted(a: P.State, i: nat, m: nat, c: nat)
    requires P.Inv(a) && i < a.n && a.term[i] in a.reigns && 0 < m <= |a.reigns[a.term[i]].log|
    requires P.Inv(P.Adopt(a, i, m)) && Grows(a, P.Adopt(a, i, m))
    requires P.CommittedTo(a, a.log[i], c, a.term[i])
    ensures Agree(a.log[i], P.Adopt(a, i, m).log[i], c)
    ensures P.CommittedTo(P.Adopt(a, i, m), P.Adopt(a, i, m).log[i], c, a.term[i])
  {
    var a' := P.Adopt(a, i, m);
    var t := a.term[i];
    P.LeaderHoldsCommitted(a, a.log[i], c, t, t);
    CommittedToGrows(a, a', a.log[i], c, t, t);
    CommittedLike(a', a.log[i], a'.log[i], c, t);
  }

  /** The follower side of a successful AppendEntries, its term already caught up. */
  lemma TakeEntriesOk(a: P.State, i: nat, p: Peer, m: AppendEntriesArgs) returns (a': P.State)
    requires P.Inv(a) && NodeOk(a, i, p) && p.role == Follower && p.Valid()
    requires PartOk(a, m) && m.term == p.currentTerm && m.leaderId != i
    requires p.InLog(m.prevLogIndex) && p.GetLogTerm(m.prevLogIndex) == m.prevLogTerm
    ensures a'.reigns == a.reigns && m.term in a'.reigns
    ensures Acts(a, a', i) && NodeOk(a', i, TakeEntries(p, m))
    ensures Reach(m) <= P.Ack(a', i, m.term)
    ensures Agree(a'.reigns[m.term].log, a'.log[i], Reach(m))
  {
    var t := p.currentTerm;
    a' := P.Adopt(a, i, Reach(m));
    AdoptActs(a, i, Reach(m));
    RefinesTerm(p, a.log[i], m.prevLogIndex);
    assert P.PeerOk(a, i) && P.ReignOk(a, t);
    TakenRefines(a, p, a.log[i], a.reigns[t].log, t, m);
    AdoptKeepsCommitted(a, i, Reach(m), p.commitIndex + 1);
    TakenNodeOk(a, i, p, m);
  }

  lemma TakenNodeOk(a: P.State, i: nat, p: Peer, m: AppendEntriesArgs)
    requires NodeOk(a, i, p) && p.role == Follower && p.Valid() && p.InLog(m.prevLogIndex)
    requires p.currentTerm in a.reigns && Reach(m) <= |a.reigns[p.currentTerm].log|
    requires Refines(TakeEntries(p, m), P.Adopt(a, i, Reach(m)).log[i]) && DiskOk(TakeEntries(p, m))
    requires Agree(a.log[i], P.Adopt(a, i, Reach(m)).log[i], p.commitIndex + 1)
    requires P.CommittedTo(P.Adopt(a, i, Reach(m)), P.Adopt(a, i, Reach(m)).log[i], p.commitIndex + 1, p.currentTerm)
    ensures NodeOk(P.Adopt(a, i, Reach(m)), i, TakeEntries(p, m))
  {
  }

  /** Merging by term takes over exactly the leader's prefix: entries with equal terms are equal
      entries, and the first conflict replaces the rest. */
  lemma {:induction false} TakenRefines(a: P.State, p: Peer, G: Log, R: Log, t: nat, m: AppendEntriesArgs)
    requires P.WfLog(a, G, t) && P.WfLog(a, R, t) && p.Valid() && Refines(p, G) && DiskOk(p)
    requires Carries(m, R) && p.InLog(m.prevLogIndex) && G[m.prevLogIndex].term == R[m.prevLogIndex].term
    ensures Refines(TakeEntries(p, m), P.Adopted(G, R, Reach(m)))
    ensures DiskOk(TakeEntries(p, m))
  {
    hide Matched, TakeEntries, Merge;
    var k := Matched(p.log, m.prevLogIndex + 1 - p.lastIncludedIndex, m.entries, 0);
    MatchedAgree(a, p, G, R, t, m);
    TakeUnfolds(p, m, k);
    if k < |m.entries| {
      UnmatchedDisagree(p, G, R, m);
      TakenAtRefines(p, G, R, m, k);
    }
  }

  /** The cap by the whole log is sound: the log reaches at least as far as the leader's commit
      index, so what is newly committed is the part just matched with the leader. */
  lemma FollowCommitOk(a: P.State, i: nat, p: Peer, m: AppendEntriesArgs)
    requires P.Inv(a) && NodeOk(a, i, p) && p.role == Follower && p.Valid()
    requires AppendArgsOk(a, m) && m.term == p.currentTerm
    requires Agree(a.reigns[m.term].log, a.log[i], Reach(m))
    ensures NodeOk(a, i, FollowCommit(p, m.leaderCommit))
    ensures m.leaderCommit > p.commitIndex ==> FollowCommit(p, m.leaderCommit).commitIndex == m.leaderCommit < Reach(m)
  {
    RefinesLast(p, a.log[i]);
    CommittedLike(a, a.reigns[m.term].log, a.log[i], m.leaderCommit + 1, m.term);
  }

  lemma HeedLeaderOk(a: P.State, i: nat, p: Peer, t: nat, leader: nat) returns (a': P.State)
    requires P.Inv(a) && NodeOk(a, i, p) && FromLeader(a, t, leader) && leader != i && p.currentTerm <= t
    ensures Acts(a, a', i) && NodeOk(a', i, HeedLeader(p, t))
    ensures HeedLeader(p, t).role == Follower && HeedLeader(p, t).currentTerm == t && HeedLeader(p, t).Valid()
    ensures a'.reigns == a.reigns
  {
    if t > p.currentTerm {
      a' := StepDownOk(a, i, p, t);
    } else {
      a' := a;
      ActsNone(a, i);
    }
  }

  lemma AppendEntriesOk(a: P.State, i: nat, p: Peer, m: AppendEntriesArgs) returns (a': P.State)
    requires P.Inv(a) && NodeOk(a, i, p) && p.Valid()
    requires AppendArgsOk(a, m) && m.leaderId != i && m.leaderId < a.n
    ensures Acts(a, a', i) && NodeOk(a', i, AppendEntries(p, m).0)
    ensures AppendReplyOk(a', i, m, AppendEntries(p, m).1)
  {
    if m.term < p.currentTerm {
      a' := a;
      ActsNone(a, i);
    } else {
      var a1 := HeedLeaderOk(a, i, p, m.term, m.leaderId);
      AppendArgsGrows(a, a1, m);
      a' := AppendInTermOk(a1, i, HeedLeader(p, m.term), m, p.currentTerm);
      ActsTransitive(a, a1, a', i);
    }
  }

  lemma AppendInTermOk(a: P.State, i: nat, p: Peer, m: AppendEntriesArgs, replyTerm: nat) returns (a': P.State)
    requires P.Inv(a) && NodeOk(a, i, p) && p.role == Follower && p.Valid()
    requires AppendArgsOk(a, m) && m.term == p.currentTerm && m.leaderId != i && replyTerm <= m.term
    ensures Acts(a, a', i) && NodeOk(a', i, AppendInTerm(p, m, replyTerm).0)
    ensures AppendReplyOk(a', i, m, AppendInTerm(p, m, replyTerm).1)
  {
    if p.InLog(m.prevLogIndex) && p.GetLogTerm(m.prevLogIndex) == m.prevLogTerm {
      a' := AcceptOk(a, i, p, m);
    } else {
      a' := a;
      ActsNone(a, i);
      RejectOk(a, i, p, m, replyTerm);
    }
  }

  lemma AppendArgsGrows(a: P.State, a': P.State, m: AppendEntriesArgs)
    requires Grows(a, a') && AppendArgsOk(a, m) && a'.reigns == a.reigns
    ensures AppendArgsOk(a', m)
  {
    CommittedInReignGrows(a, a', m.term, m.leaderCommit + 1);
  }

  lemma AcceptOk(a: P.State, i: nat, p: Peer, m: AppendEntriesArgs) returns (a': P.State)
    requires P.Inv(a) && NodeOk(a, i, p) && p.role == Follower && p.Valid()
    requires AppendArgsOk(a, m) && m.term == p.currentTerm && m.leaderId != i
    requires p.InLog(m.prevLogIndex) && p.GetLogTerm(m.prevLogIndex) == m.prevLogTerm
    ensures a'.reigns == a.reigns && Reach(m) <= P.Ack(a', i, m.term)
    ensures Acts(a, a', i) && NodeOk(a', i, FollowCommit(TakeEntries(p, m), m.leaderCommit))
  {
    a' := TakeEntriesOk(a, i, p, m);
    AppendArgsGrows(a, a', m);
    FollowCommitOk(a', i, TakeEntries(p, m), m);
  }

  /** A crash after any of the follower's saves leaves a peer the protocol can explain: it has taken
      over the part of the leader's log that the entries written so far make up. */
  lemma AppendSavedOk(a: P.State, i: nat, p: Peer, m: AppendEntriesArgs, written: nat) returns (a': P.State)
    requires P.Inv(a) && NodeOk(a, i, p) && p.Valid() && written <= |m.entries|
    requires AppendArgsOk(a, m) && m.leaderId != i && m.leaderId < a.n
    ensures Acts(a, a', i) && NodeOk(a', i, AppendSaved(p, m, written))
  {
    hide P.Inv, NodeOk, TakeEntries, Grows, LogKept, Untouched, Quiet;
    if m.term < p.currentTerm {
      a' := a;
      ActsNone(a, i);
    } else {
      a' := HeedLeaderOk(a, i, p, m.term, m.leaderId);
      var p1 := HeedLeader(p, m.term);
      if p1.InLog(m.prevLogIndex) && p1.GetLogTerm(m.prevLogIndex) == m.prevLogTerm {
        var a1 := a';
        PartOfMessage(a, a1, m, written);
        a' := TakeEntriesOk(a1, i, p1, First(m, written));
        ActsTransitive(a, a1, a', i);
      }
    }
  }

  lemma PartOfMessage(a: P.State, a': P.State, m: AppendEntriesArgs, written: nat)
    requires PartOk(a, m) && a'.reigns == a.reigns && written <= |m.entries|
    ensures PartOk(a', First(m, written))
  {
    var R := a.reigns[m.term].log;
    forall k: nat | k < written ensures m.entries[..written][k] == R[m.prevLogIndex + 1 + k] {
      assert m.entries[k] == R[m.prevLogIndex + 1 + k];
    }
  }

  /** A rejection never sends the leader beyond its own log. For a follower that has compacted past
      prevLogIndex this needs leader completeness: its snapshot is committed. */
  lemma RejectOk(a: P.State, i: nat, p: Peer, m: AppendEntriesArgs, replyTerm: nat)
    requires P.Inv(a) && NodeOk(a, i, p) && p.Valid() && AppendArgsOk(a, m) && p.currentTerm == m.term
    requires !(p.InLog(m.prevLogIndex) && p.GetLogTerm(m.prevLogIndex) == m.prevLogTerm)
    ensures AppendInTerm(p, m, replyTerm).0 == p
    ensures AppendReplyOk(a, i, m, AppendInTerm(p, m, replyTerm).1)
  {
    P.LeaderHoldsCommitted(a, a.log[i], p.commitIndex + 1, p.currentTerm, m.term);
  }

  // ---------- the leader hears back ----------

  lemma BacktrackOk(a: P.State, i: nat, p: Peer, q: nat, m: AppendEntriesArgs, r: AppendEntriesReply)
    requires P.Inv(a) && NodeOk(a, i, p) && p.Valid() && q < p.n && p.role == Leader && p.currentTerm == m.term
    requires AppendReplyOk(a, q, m, r) && !r.success && r.term <= m.term
    ensures NodeOk(a, i, p.(nextIndex := p.nextIndex[q := Backtrack(p, r)]))
  {
    RefinesLast(p, a.log[i]);
    var p' := p.(nextIndex := p.nextIndex[q := Backtrack(p, r)]);
    assert 1 <= Backtrack(p, r) <= |a.log[i]|;
    forall j: nat | j < p'.n ensures FollowerKnown(a, p', a.log[i], j) {
      assert FollowerKnown(a, p, a.log[i], j);
    }
  }

  lemma ProgressOk(a: P.State, i: nat, p: Peer, q: nat, index: nat)
    requires P.Inv(a) && NodeOk(a, i, p) && p.Valid() && q < p.n && p.role == Leader
    requires index < P.Ack(a, q, p.currentTerm)
    ensures NodeOk(a, i, Progress(p, q, index))
  {
    var p' := Progress(p, q, index);
    AckBound(a, q, p.currentTerm);
    forall j: nat | j < p'.n ensures FollowerKnown(a, p', a.log[i], j) {
      assert FollowerKnown(a, p, a.log[i], j);
    }
  }

  /** The counting rule commits: a majority has taken the leader's log up to an entry of its own term. */
  lemma CanCommitIsCommitted(a: P.State, i: nat, p: Peer, k: nat)
    requires P.Inv(a) && NodeOk(a, i, p) && p.Valid() && p.role == Leader
    requires 0 < k && p.lastIncludedIndex < k && p.InLog(k) && CanCommit(p, k)
    ensures P.Committed(a, p.currentTerm, k + 1)
  {
    var t := p.currentTerm;
    RefinesLast(p, a.log[i]);
    RefinesTerm(p, a.log[i], k);
    assert P.ReignOk(a, t);
    assert a.reigns[t].log[k].term == t;
    var Q := Holders(p, k) + {i};
    assert |Q| == |Holders(p, k)| + 1;
    forall q | q in Q ensures q < a.n && P.Ack(a, q, t) >= k + 1 {
      if q != i {
        assert FollowerKnown(a, p, a.log[i], q);
      }
    }
    assert P.Taken(a, t, k + 1, Q);
  }

  lemma CommitAdvanceOk(a: P.State, i: nat, p: Peer)
    requires P.Inv(a) && NodeOk(a, i, p) && p.Valid() && p.role == Leader
    ensures NodeOk(a, i, p.(commitIndex := NewCommit(p, p.GetLastLogIndex())))
  {
    RefinesLast(p, a.log[i]);
    var c := NewCommit(p, p.GetLastLogIndex());
    if c > p.commitIndex {
      CanCommitIsCommitted(a, i, p, c);
      assert P.CommittedTo(a, a.log[i], c + 1, p.currentTerm);
    }
    var p' := p.(commitIndex := c);
    forall j: nat | j < p'.n ensures FollowerKnown(a, p', a.log[i], j) {
      assert FollowerKnown(a, p, a.log[i], j);
    }
  }

  lemma SuccessOk(a: P.State, i: nat, p: Peer, q: nat, index: nat)
    requires P.Inv(a) && NodeOk(a, i, p) && p.Valid() && q < p.n && p.role == Leader
    requires index < P.Ack(a, q, p.currentTerm)
    ensures NodeOk(a, i, Progress(p, q, index).(commitIndex :=
                           NewCommit(Progress(p, q, index), Progress(p, q, index).GetLastLogIndex())))
  {
    ProgressOk(a, i, p, q, index);
    CommitAdvanceOk(a, i, Progress(p, q, index));
  }

  lemma AppendReplyStepOk(a: P.State, i: nat, p: Peer, q: nat, m: AppendEntriesArgs, r: AppendEntriesReply)
    returns (a': P.State)
    requires P.Inv(a) && NodeOk(a, i, p) && p.Valid() && q < p.n && AppendReplyOk(a, q, m, r)
    ensures Acts(a, a', i) && NodeOk(a', i, AppendReply(p, q, m, r))
  {
    if p.role == Leader && p.currentTerm == m.term && r.term > p.currentTerm {
      a' := StepDownOk(a, i, p, r.term);
    } else {
      a' := a;
      ActsNone(a, i);
      AppendReplyInTerm(a, i, p, q, m, r);
    }
  }

  lemma AppendReplyInTerm(a: P.State, i: nat, p: Peer, q: nat, m: AppendEntriesArgs, r: AppendEntriesReply)
    requires P.Inv(a) && NodeOk(a, i, p) && p.Valid() && q < p.n && AppendReplyOk(a, q, m, r)
    requires p.role == Leader && p.currentTerm == m.term ==> r.term <= p.currentTerm
    ensures NodeOk(a, i, AppendReply(p, q, m, r))
  {
    if p.role == Leader && p.currentTerm == m.term {
      if r.success {
        SuccessOk(a, i, p, q, m.prevLogIndex + |m.entries|);
      } else {
        BacktrackOk(a, i, p, q, m, r);
      }
    }
  }
}
