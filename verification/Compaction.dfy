// A compacted peer answers like the same peer with its log uncompacted.
module Compaction {
  import opened Core
  import opened RaftTypes
  import opened RaftPeer
  import opened ClusterInvariant
  import opened ElectionProof

  /** u is p with the full log G in place of its base and suffix. What is on disk and what waits
      for the service are left out: they do not enter into any answer. */
  ghost predicate Expands(p: Peer, u: Peer, G: Log) {
    && Refines(p, G) && |G| > 0 && G[0] == DUMMY
    && u == p.(log := G, lastIncludedIndex := 0, lastIncludedTerm := 0, disk := u.disk, pending := u.pending)
    && p.Valid()
  }

  lemma SameEnds(p: Peer, u: Peer, G: Log)
    requires Expands(p, u, G)
    ensures u.Valid()
    ensures u.GetLastLogIndex() == p.GetLastLogIndex() == |G| - 1
    ensures u.GetLastLogTerm() == p.GetLastLogTerm()
  {
    RefinesTerm(p, G, |G| - 1);
  }

  /** The two peers know the same of every index at or past the base. */
  lemma SameIndex(p: Peer, u: Peer, G: Log, i: nat)
    requires Expands(p, u, G) && p.lastIncludedIndex <= i < |G|
    ensures p.InLog(i) && u.InLog(i) && u.GetLogTerm(i) == p.GetLogTerm(i)
    ensures i > p.lastIncludedIndex ==> u.GetLogEntry(i) == p.GetLogEntry(i)
  {
    RefinesTerm(p, G, i);
    if i > p.lastIncludedIndex {
      assert p.log[i - p.lastIncludedIndex] == G[i];
    }
  }

  // ---------- elections ----------

  /** It asks for votes with the same request, and counts them the same. */
  lemma SameCandidate(p: Peer, u: Peer, G: Log, q: nat, term: nat, r: RequestVoteReply)
    requires Expands(p, u, G)
    ensures u.Valid() && VoteRequest(StartElection(u)) == VoteRequest(StartElection(p))
    ensures Expands(StartElection(p), StartElection(u), G)
    ensures Expands(VoteReply(p, q, term, r), VoteReply(u, q, term, r), G)
  {
    SameEnds(p, u, G);
  }

  lemma SameVote(p: Peer, u: Peer, G: Log, a: RequestVoteArgs)
    requires Expands(p, u, G)
    ensures u.Valid() && RequestVote(u, a).1 == RequestVote(p, a).1
    ensures Expands(RequestVote(p, a).0, RequestVote(u, a).0, G)
  {
    SameEnds(p, u, G);
  }

  // ---------- replication ----------

  lemma SameStart(p: Peer, u: Peer, G: Log, command: Command)
    requires Expands(p, u, G)
    ensures u.Valid()
    ensures var x, y := Start(p, command), Start(u, command);
            && (x.1, x.2, x.3) == (y.1, y.2, y.3)
            && Expands(x.0, y.0, if x.3 then G + [Entry(p.currentTerm, |G|, command)] else G)
  {
    SameEnds(p, u, G);
  }

  /** The message is the same unless the follower is behind the base and needs a snapshot. */
  lemma SameRequest(p: Peer, u: Peer, G: Log, q: nat)
    requires Expands(p, u, G) && q < p.n && (p.role == Leader ==> 1 <= p.nextIndex[q] <= p.GetLastLogIndex() + 1)
    ensures u.Valid() && u.GetLastLogIndex() == p.GetLastLogIndex()
    ensures p.role == Leader && p.nextIndex[q] - 1 >= p.lastIncludedIndex ==> AppendRequest(p, q) == AppendRequest(u, q)
    ensures p.role == Leader && p.nextIndex[q] - 1 < p.lastIncludedIndex ==> AppendRequest(p, q) == None
  {
    SameEnds(p, u, G);
    if p.role == Leader && p.nextIndex[q] - 1 >= p.lastIncludedIndex {
      SameIndex(p, u, G, p.nextIndex[q] - 1);
      var i := p.nextIndex[q];
      assert p.log[i - p.lastIncludedIndex..] == G[i..];
    }
  }

  lemma {:induction false} SameMatched(p: Peer, G: Log, i: nat, entries: seq<Entry>, j: nat)
    requires Refines(p, G) && p.lastIncludedIndex <= i && j <= |entries| && i + 1 + j <= |G|
    ensures Matched(p.log, i + 1 - p.lastIncludedIndex, entries, j) == Matched(G, i + 1, entries, j)
    decreases |entries| - j
  {
    if j < |entries| && i + 1 + j < |G| {
      assert p.log[i + 1 - p.lastIncludedIndex + j] == G[i + 1 + j];
      if G[i + 1 + j].term == entries[j].term {
        SameMatched(p, G, i, entries, j + 1);
      }
    }
  }

  /** The conflicting run of terms is looked for no further down than the base. */
  lemma {:induction false} SameFirst(p: Peer, u: Peer, G: Log, i: nat)
    requires Expands(p, u, G) && p.InLog(i)
    ensures u.InLog(i)
    ensures FirstOfTerm(p, i) == if FirstOfTerm(u, i) < p.lastIncludedIndex then p.lastIncludedIndex else FirstOfTerm(u, i)
    decreases i
  {
    SameEnds(p, u, G);
    SameIndex(p, u, G, i);
    if i > p.lastIncludedIndex {
      SameIndex(p, u, G, i - 1);
      SameFirst(p, u, G, i - 1);
    }
  }

  /** The log a follower ends with after a message it accepts. */
  ghost function Merged(G: Log, m: AppendEntriesArgs): Log
    requires m.prevLogIndex < |G|
  {
    Merge(G, m.prevLogIndex + 1, m.entries)
  }

  /** Cutting a suffix and the full log at the same place and extending both alike. */
  lemma SameTakenAt(p: Peer, u: Peer, G: Log, at: nat, to: nat, rest: seq<Entry>)
    requires Expands(p, u, G) && 0 < at <= |p.log| && to == p.lastIncludedIndex + at
    ensures Expands(TakenAt(p, at, rest), TakenAt(u, to, rest), if |rest| == 0 then G else G[..to] + rest)
  {
    var b, L, M := p.lastIncludedIndex, p.log[..at] + rest, G[..to] + rest;
    assert L[0] == p.log[0] && M[0] == G[0] && M[b] == G[b];
    forall j: nat | 0 < j < |L| ensures L[j] == M[b + j] {
      assert j < at ==> p.log[j] == G[b + j];
    }
  }

  /** What the two peers and the full log become, by the number k of matched entries. */
  lemma {:induction false} TakenForms(p: Peer, u: Peer, m: AppendEntriesArgs, k: nat)
    requires p.Valid() && u.Valid() && p.InLog(m.prevLogIndex) && u.InLog(m.prevLogIndex) && u.lastIncludedIndex == 0
    requires k == Matched(p.log, m.prevLogIndex + 1 - p.lastIncludedIndex, m.entries, 0)
    requires k == Matched(u.log, m.prevLogIndex + 1, m.entries, 0)
    ensures TakeEntries(p, m) == TakenAt(p, m.prevLogIndex + 1 - p.lastIncludedIndex + k, m.entries[k..])
    ensures TakeEntries(u, m) == TakenAt(u, m.prevLogIndex + 1 + k, m.entries[k..])
    ensures Merged(u.log, m) ==
            if |m.entries[k..]| == 0 then u.log else u.log[..m.prevLogIndex + 1 + k] + m.entries[k..]
  {
    TakeUnfolds(p, m, k);
    TakeUnfolds(u, m, k);
  }

  lemma {:induction false} SameTaken(p: Peer, u: Peer, G: Log, m: AppendEntriesArgs)
    requires Expands(p, u, G) && p.InLog(m.prevLogIndex)
    ensures u.Valid() && u.InLog(m.prevLogIndex)
    ensures Expands(TakeEntries(p, m), TakeEntries(u, m), Merged(G, m))
  {
    hide Matched, Merge, TakeEntries, Merged, Overwrite, TakenAt, Refines;
    SameEnds(p, u, G);
    SameMatched(p, G, m.prevLogIndex, m.entries, 0);
    var k := Matched(G, m.prevLogIndex + 1, m.entries, 0);
    TakenForms(p, u, m, k);
    SameTakenAt(p, u, G, m.prevLogIndex + 1 - p.lastIncludedIndex + k, m.prevLogIndex + 1 + k, m.entries[k..]);
  }

  lemma SameFollowCommit(p: Peer, u: Peer, G: Log, leaderCommit: nat)
    requires Expands(p, u, G)
    ensures u.Valid() && Expands(FollowCommit(p, leaderCommit), FollowCommit(u, leaderCommit), G)
  {
    SameEnds(p, u, G);
  }

  /** A follower's answer to a message from at or past its base is the same, save that the first
      index of a conflicting term is not sought below the base; and so is what it does. */
  lemma {:induction false} SameAppendInTerm(p: Peer, u: Peer, G: Log, m: AppendEntriesArgs, replyTerm: nat)
    requires Expands(p, u, G) && p.lastIncludedIndex <= m.prevLogIndex
    ensures u.Valid()
    ensures var x, y := AppendInTerm(p, m, replyTerm), AppendInTerm(u, m, replyTerm);
            && x.1 == y.1.(xIndex := x.1.xIndex)
            && (x.1.xIndex == y.1.xIndex || (y.1.xIndex < p.lastIncludedIndex == x.1.xIndex))
            && Expands(x.0, y.0, if x.1.success && m.prevLogIndex < |G| then Merged(G, m) else G)
  {
    hide Matched, Merge, TakeEntries, Merged, FirstOfTerm, Refines;
    SameEnds(p, u, G);
    if m.prevLogIndex < |G| {
      SameIndex(p, u, G, m.prevLogIndex);
      SameFirst(p, u, G, m.prevLogIndex);
      SameTaken(p, u, G, m);
      if p.GetLogTerm(m.prevLogIndex) == m.prevLogTerm {
        SameFollowCommit(TakeEntries(p, m), TakeEntries(u, m), Merged(G, m), m.leaderCommit);
      }
    }
  }

  lemma SameAppend(p: Peer, u: Peer, G: Log, m: AppendEntriesArgs)
    requires Expands(p, u, G) && p.lastIncludedIndex <= m.prevLogIndex
    ensures u.Valid()
    ensures var x, y := AppendEntries(p, m), AppendEntries(u, m);
            && x.1 == y.1.(xIndex := x.1.xIndex)
            && (x.1.xIndex == y.1.xIndex || (y.1.xIndex < p.lastIncludedIndex == x.1.xIndex))
            && Expands(x.0, y.0, if x.1.success && m.prevLogIndex < |G| then Merged(G, m) else G)
  {
    SameEnds(p, u, G);
    if m.term >= p.currentTerm {
      SameAppendInTerm(HeedLeader(p, m.term), HeedLeader(u, m.term), G, m, p.currentTerm);
    }
  }

  lemma {:induction false} SameCommit(p: Peer, u: Peer, G: Log, k: nat)
    requires Expands(p, u, G) && p.lastIncludedIndex <= p.commitIndex && k <= p.GetLastLogIndex()
    ensures u.Valid() && k <= u.GetLastLogIndex()
    ensures NewCommit(p, k) == NewCommit(u, k)
  {
    SameEnds(p, u, G);
    if k > p.commitIndex {
      SameIndex(p, u, G, k);
      assert Holders(p, k) == Holders(u, k);
      assert CanCommit(p, k) == CanCommit(u, k);
      SameCommit(p, u, G, k - 1);
    }
  }

  /** The scan for a term stops at the base: it finds the same index, or none where the full log's
      last entry of the term lies below the base. */
  lemma {:induction false} SameScan(p: Peer, u: Peer, G: Log, i: nat, term: int)
    requires Expands(p, u, G) && p.InLog(i)
    ensures u.InLog(i)
    ensures LastWithTerm(p, i, term) ==
            if LastWithTerm(u, i, term) < p.lastIncludedIndex then -1 else LastWithTerm(u, i, term)
    decreases i
  {
    SameEnds(p, u, G);
    SameIndex(p, u, G, i);
    if i > p.lastIncludedIndex && p.GetLogTerm(i) != term {
      SameScan(p, u, G, i - 1, term);
    }
  }

  /** Where the last entry of the conflicting term is compacted away. */
  ghost predicate ScanCutOff(p: Peer, u: Peer, r: AppendEntriesReply)
    requires u.Valid()
  {
    r.xTerm != -1 && 0 <= LastWithTerm(u, u.GetLastLogIndex(), r.xTerm) < p.lastIncludedIndex
  }

  /** Backtracking goes back to the same index, exactly unless the scan is cut off at the base and
      the follower's own first index of the term is not where the full log would lead. */
  lemma SameBacktrack(p: Peer, u: Peer, G: Log, r: AppendEntriesReply)
    requires Expands(p, u, G)
    ensures u.Valid()
    ensures !ScanCutOff(p, u, r) ==> Backtrack(p, r) == Backtrack(u, r)
    ensures ScanCutOff(p, u, r) ==>
              && Backtrack(p, r) == (if r.xIndex < 1 then 1 else r.xIndex)
              && Backtrack(u, r) == LastWithTerm(u, u.GetLastLogIndex(), r.xTerm) + 1 <= p.lastIncludedIndex
  {
    SameEnds(p, u, G);
    SameScan(p, u, G, p.GetLastLogIndex(), r.xTerm);
  }

  /** The leader's bookkeeping after a success, with the commit index that follows. */
  lemma SameSuccess(p: Peer, u: Peer, G: Log, q: nat, index: nat)
    requires Expands(p, u, G) && q < p.n
    ensures u.Valid()
    ensures var x, y := Progress(p, q, index), Progress(u, q, index);
            Expands(x.(commitIndex := NewCommit(x, x.GetLastLogIndex())),
                    y.(commitIndex := NewCommit(y, y.GetLastLogIndex())), G)
  {
    SameEnds(p, u, G);
    var x, y := Progress(p, q, index), Progress(u, q, index);
    assert Expands(x, y, G);
    SameEnds(x, y, G);
    SameCommit(x, y, G, x.GetLastLogIndex());
  }

  /** The leader's bookkeeping after a rejection. */
  lemma SameRejection(p: Peer, u: Peer, G: Log, q: nat, r: AppendEntriesReply)
    requires Expands(p, u, G) && q < p.n
    ensures u.Valid()
    ensures var x, y := p.nextIndex[q := Backtrack(p, r)], u.nextIndex[q := Backtrack(u, r)];
            && |x| == |y| == p.n
            && Expands(p.(nextIndex := x), u.(nextIndex := y[q := x[q]]), G)
            && (!ScanCutOff(p, u, r) ==> Expands(p.(nextIndex := x), u.(nextIndex := y), G))
  {
    SameBacktrack(p, u, G, r);
    SameEnds(p, u, G);
    var x, y := p.nextIndex[q := Backtrack(p, r)], u.nextIndex[q := Backtrack(u, r)];
    assert y[q := x[q]] == x;
  }

  /** A reply is handled the same, whether a success, a rejection or from a higher term, save that a
      scan cut off at the base leads to another nextIndex for the peer that answered. */
  lemma SameReply(p: Peer, u: Peer, G: Log, q: nat, m: AppendEntriesArgs, r: AppendEntriesReply)
    requires Expands(p, u, G) && q < p.n
    ensures u.Valid()
    ensures var x, y := AppendReply(p, q, m, r), AppendReply(u, q, m, r);
            && |x.nextIndex| == |y.nextIndex| == p.n
            && Expands(x, y.(nextIndex := y.nextIndex[q := x.nextIndex[q]]), G)
            && (r.success || !ScanCutOff(p, u, r) ==> Expands(x, y, G))
  {
    hide NewCommit, Backtrack, LastWithTerm, ScanCutOff;
    SameEnds(p, u, G);
    SameSuccess(p, u, G, q, m.prevLogIndex + |m.entries|);
    SameRejection(p, u, G, q, r);
    var x, y := AppendReply(p, q, m, r), AppendReply(u, q, m, r);
    if x.nextIndex == y.nextIndex {
      assert y.nextIndex[q := x.nextIndex[q]] == y.nextIndex;
    }
  }

  lemma SameSnapshotReply(p: Peer, u: Peer, G: Log, q: nat, m: InstallSnapshotArgs, r: InstallSnapshotReply)
    requires Expands(p, u, G) && q < p.n
    ensures u.Valid() && Expands(SnapshotReply(p, q, m, r), SnapshotReply(u, q, m, r), G)
  {
    SameEnds(p, u, G);
  }

  // ---------- the applier and compaction ----------

  lemma {:induction false} SameBatch(p: Peer, u: Peer, G: Log, i: nat)
    requires Expands(p, u, G) && p.commitIndex <= p.GetLastLogIndex() && p.lastIncludedIndex <= i
    ensures u.Valid() && u.commitIndex <= u.GetLastLogIndex() && Batch(p, i) == Batch(u, i)
    decreases p.commitIndex - i
  {
    SameEnds(p, u, G);
    if i < p.commitIndex {
      SameBatch(p, u, G, i + 1);
      SameIndex(p, u, G, i + 1);
    }
  }

  /** Snapshot changes only the representation of the prefix it cuts off. */
  lemma CompactIsInvisible(p: Peer, u: Peer, G: Log, index: nat, data: GroupState)
    requires Expands(p, u, G) && index <= p.commitIndex && index <= p.GetLastLogIndex()
    ensures Expands(Compact(p, index, data), u, G)
  {
    SameEnds(p, u, G);
    if index > p.lastIncludedIndex {
      SameIndex(p, u, G, index);
      var p' := Compact(p, index, data);
      forall k: nat | 0 < k < |p'.log| ensures p'.log[k] == G[index + k] {
        assert p'.log[k] == p.log[index - p.lastIncludedIndex + k];
      }
    }
  }

  /** So does InstallSnapshot when the log already has the snapshot's last entry. */
  lemma InstallIsInvisible(p: Peer, u: Peer, G: Log, m: InstallSnapshotArgs)
    requires Expands(p, u, G) && p.lastIncludedIndex < m.lastIncludedIndex < |G|
    requires G[m.lastIncludedIndex].term == m.lastIncludedTerm
    ensures var p' := InstallInTerm(p, m);
            Expands(p', u.(commitIndex := p'.commitIndex, lastApplied := p'.lastApplied), G)
  {
    SameEnds(p, u, G);
    SameIndex(p, u, G, m.lastIncludedIndex);
    var p' := InstallInTerm(p, m);
    var d := m.lastIncludedIndex - p.lastIncludedIndex;
    forall k: nat | 0 < k < |p'.log| ensures p'.log[k] == G[m.lastIncludedIndex + k] {
      assert p'.log[k] == p.log[d + k];
    }
  }

  /** A snapshot past the base is installed the same, in every branch: kept suffix or discarded log,
      the two peers become one. */
  lemma SameInstallInTerm(p: Peer, u: Peer, G: Log, m: InstallSnapshotArgs)
    requires Expands(p, u, G) && p.lastIncludedIndex < m.lastIncludedIndex
    ensures u.Valid() && InstallInTerm(p, m) == InstallInTerm(u, m)
  {
    SameEnds(p, u, G);
    var i := m.lastIncludedIndex;
    if i < |G| {
      SameIndex(p, u, G, i);
      var s, t := p.log[i - p.lastIncludedIndex + 1..], G[i + 1..];
      assert |s| == |t|;
      forall k | 0 <= k < |s| ensures s[k] == t[k] {
        assert p.log[i - p.lastIncludedIndex + 1 + k] == G[i + 1 + k];
      }
      assert s == t;
    }
  }

  /** The whole handler: same answer; the same peer after a snapshot past the base; and a snapshot at
      or before the base is ignored, which loses nothing the full log would have dropped. */
  lemma SameInstall(p: Peer, u: Peer, G: Log, m: InstallSnapshotArgs)
    requires Expands(p, u, G)
    ensures u.Valid() && InstallSnapshot(p, m).1 == InstallSnapshot(u, m).1
    ensures m.term < p.currentTerm ==> Expands(InstallSnapshot(p, m).0, InstallSnapshot(u, m).0, G)
    ensures m.term >= p.currentTerm && m.lastIncludedIndex > p.lastIncludedIndex ==>
              InstallSnapshot(p, m).0 == InstallSnapshot(u, m).0
    ensures m.term >= p.currentTerm && m.lastIncludedIndex <= p.lastIncludedIndex ==>
              && Expands(InstallSnapshot(p, m).0, HeedLeader(u, m.term), G)
              && (G[m.lastIncludedIndex].term == m.lastIncludedTerm ==> Refines(InstallSnapshot(u, m).0, G))
  {
    SameEnds(p, u, G);
    if m.term >= p.currentTerm {
      var p1, u1 := HeedLeader(p, m.term), HeedLeader(u, m.term);
      assert Expands(p1, u1, G);
      if m.lastIncludedIndex > p.lastIncludedIndex {
        SameInstallInTerm(p1, u1, G, m);
      }
    }
  }
}
