// What each critical section does, step by step of any run: the peer after it and the messages it
// sends, told by the peer before it and the full log that peer stands for.
module Handlers {
  import opened Core
  import opened RaftTypes
  import opened RaftPeer
  import opened Cluster
  import P = Protocol
  import opened ProtocolProof
  import opened ClusterInvariant
  import opened ElectionProof
  import opened ReplicationProof
  import Safety = RaftSafety

  /** In this step peer p becomes y and the messages go out; all else stays. */
  ghost predicate Becomes(c: Cluster, p: nat, y: Peer, sent: set<Msg>, c': Cluster) {
    p < |c.peers| && c' == Cluster(c.peers[p := y], c.net + sent)
  }

  function Max(a: int, b: int): int {
    if a < b then b else a
  }

  /** The protocol state behind a step, and the full log of the peer that takes it. */
  lemma StepFrom(cs: seq<Cluster>, steps: seq<Step>, k: nat) returns (a: P.State, G: Log)
    requires Run(cs, steps) && k < |steps|
    ensures Transition(cs[k], steps[k], cs[k + 1]) && ClusterOk(cs[k], a)
    ensures NodeOk(a, Actor(steps[k]), cs[k].peers[Actor(steps[k])])
    ensures G == a.log[Actor(steps[k])] && Refines(cs[k].peers[Actor(steps[k])], G) && |G| > 0
    ensures cs[k].peers[Actor(steps[k])].n == |cs[k].peers| && cs[k].peers[Actor(steps[k])].me == Actor(steps[k])
    ensures P.WfLog(a, G, cs[k].peers[Actor(steps[k])].currentTerm)
  {
    hide Transition, MsgOk, P.KeptOk, P.SafeOk, P.ReignsOk, P.RecordsOk;
    var hs := Safety.RunExplained(cs, steps);
    a := hs[k];
    assert ClusterOk(cs[k], a) && Transition(cs[k], steps[k], cs[k + 1]);
    var p := Actor(steps[k]);
    ActorExists(cs[k], steps[k], cs[k + 1]);
    assert NodeOk(a, p, cs[k].peers[p]) && P.PeerOk(a, p);
    G := a.log[p];
  }

  lemma ActorExists(c: Cluster, step: Step, c': Cluster)
    requires Transition(c, step, c')
    ensures Actor(step) < |c.peers|
  {
  }

  // ---------- elections ----------

  /** A timeout: the next term, a vote for itself, and a request to everyone else that tells the end
      of the full log. */
  lemma TimeoutIs(cs: seq<Cluster>, steps: seq<Step>, k: nat, p: nat) returns (y: Peer, G: Log)
    requires Run(cs, steps) && k < |steps| && steps[k] == ElectionTimeout(p)
    ensures p < |cs[k].peers| && Refines(cs[k].peers[p], G) && |G| > 0
    ensures var x := cs[k].peers[p];
            var v := RequestVoteArgs(x.currentTerm + 1, p, |G| - 1, LastTerm(G));
            && Becomes(cs[k], p, y, set q | q in Peers(x.n) - {p} :: VoteReq(q, v), cs[k + 1])
            && y == x.(currentTerm := x.currentTerm + 1, role := Candidate, votedFor := p, votes := 1,
                       waiting := Peers(x.n) - {p}, disk := y.disk)
  {
    var a;
    a, G := StepFrom(cs, steps, k);
    var x := cs[k].peers[p];
    y := cs[k + 1].peers[p];
    RefinesLast(x, G);
    var v := RequestVoteArgs(x.currentTerm + 1, p, |G| - 1, LastTerm(G));
    assert (set q | q in Peers(x.n) - {p} :: VoteReq(q, v)) == Sent(cs[k], steps[k]);
  }

  /** Every request for a vote was sent by a candidate just standing. */
  lemma {:induction false} VoteReqSent(cs: seq<Cluster>, steps: seq<Step>, k: nat, m: Msg) returns (j: nat)
    requires Run(cs, steps) && k < |cs| && m in cs[k].net && m.VoteReq?
    ensures j < k && steps[j] == ElectionTimeout(m.vote.candidateId)
    ensures m in cs[j + 1].net && m !in cs[j].net
  {
    hide Transition;
    if m in cs[k - 1].net {
      j := VoteReqSent(cs, steps, k - 1, m);
    } else {
      j := k - 1;
      SentVoteReq(cs, steps, j, m);
    }
  }

  lemma SentVoteReq(cs: seq<Cluster>, steps: seq<Step>, j: nat, m: Msg)
    requires Run(cs, steps) && j < |steps| && m in cs[j + 1].net && m !in cs[j].net && m.VoteReq?
    ensures steps[j] == ElectionTimeout(m.vote.candidateId)
  {
    assert Transition(cs[j], steps[j], cs[j + 1]);
    if steps[j].ElectionTimeout? {
      var y, G := TimeoutIs(cs, steps, j, steps[j].p);
    }
  }

  /** A request for a vote is granted if and only if its term is not behind, the vote of that term is
      free or the candidate's already, and the candidate's full log, as it stood, is at least as up to
      date as the voter's. */
  lemma VoteIs(cs: seq<Cluster>, steps: seq<Step>, k: nat, p: nat, v: RequestVoteArgs)
    returns (y: Peer, r: RequestVoteReply, G: Log, j: nat, C: Log)
    requires Run(cs, steps) && k < |steps| && steps[k] == Deliver(VoteReq(p, v))
    ensures p < |cs[k].peers| && Refines(cs[k].peers[p], G) && |G| > 0
    ensures j < k && steps[j] == ElectionTimeout(v.candidateId) && v.candidateId < |cs[j + 1].peers|
    ensures var c := cs[j + 1].peers[v.candidateId];
            c.role == Candidate && c.currentTerm == v.term && Refines(c, C) && |C| > 0
    ensures var x := cs[k].peers[p];
            && Becomes(cs[k], p, y, {VoteRep(p, v, r)}, cs[k + 1])
            && r.term == x.currentTerm
            && (r.voteGranted <==>
                  && v.term >= x.currentTerm
                  && (v.term > x.currentTerm || x.votedFor == -1 || x.votedFor == v.candidateId)
                  && UpToDate(C, G))
            && y == x.(currentTerm := Max(x.currentTerm, v.term),
                       role := if v.term > x.currentTerm then Follower else x.role,
                       votedFor := if r.voteGranted then v.candidateId
                                   else if v.term > x.currentTerm then -1 else x.votedFor,
                       disk := y.disk)
  {
    var a, c;
    a, G := StepFrom(cs, steps, k);
    j := VoteReqSent(cs, steps, k, VoteReq(p, v));
    c, C := TimeoutIs(cs, steps, j, v.candidateId);
    Asked(cs, steps, j, p, v, c, C);
    var x := cs[k].peers[p];
    y, r := cs[k + 1].peers[p], RequestVote(x, v).1;
    hide RequestVote, UpToDate;
    VoteAnswers(x, G, v, C);
  }

  lemma VoteAnswers(x: Peer, G: Log, v: RequestVoteArgs, C: Log)
    requires x.Valid() && Refines(x, G) && |C| > 0 && v.lastLogIndex == |C| - 1 && v.lastLogTerm == LastTerm(C)
    ensures |G| > 0
    ensures var y, r := RequestVote(x, v).0, RequestVote(x, v).1;
            && r.term == x.currentTerm
            && (r.voteGranted <==>
                  && v.term >= x.currentTerm
                  && (v.term > x.currentTerm || x.votedFor == -1 || x.votedFor == v.candidateId)
                  && UpToDate(C, G))
            && y == x.(currentTerm := Max(x.currentTerm, v.term),
                       role := if v.term > x.currentTerm then Follower else x.role,
                       votedFor := if r.voteGranted then v.candidateId
                                   else if v.term > x.currentTerm then -1 else x.votedFor,
                       disk := y.disk)
  {
    RefinesLast(x, G);
  }

  /** The request tells the end of the log its candidate stood with, and the candidate still has it. */
  lemma Asked(cs: seq<Cluster>, steps: seq<Step>, j: nat, p: nat, v: RequestVoteArgs, c: Peer, C: Log)
    requires Run(cs, steps) && j < |steps| && steps[j] == ElectionTimeout(v.candidateId)
    requires VoteReq(p, v) in cs[j + 1].net && VoteReq(p, v) !in cs[j].net
    requires v.candidateId < |cs[j].peers| && Refines(cs[j].peers[v.candidateId], C) && |C| > 0
    requires var x := cs[j].peers[v.candidateId];
             var w := RequestVoteArgs(x.currentTerm + 1, v.candidateId, |C| - 1, LastTerm(C));
             && Becomes(cs[j], v.candidateId, c, set q | q in Peers(x.n) - {v.candidateId} :: VoteReq(q, w), cs[j + 1])
             && c == x.(currentTerm := x.currentTerm + 1, role := Candidate, votedFor := c.votedFor, votes := 1,
                        waiting := c.waiting, disk := c.disk)
    ensures v.lastLogIndex == |C| - 1 && v.lastLogTerm == LastTerm(C) && v.term == c.currentTerm
    ensures v.candidateId < |cs[j + 1].peers| && cs[j + 1].peers[v.candidateId] == c
    ensures c.role == Candidate && Refines(c, C)
  {
  }

  /** A reply to a candidate of its term: a higher term ends the candidacy, a refusal is counted off,
      a grant is counted, and the candidate leads as soon as those counted are a majority. */
  lemma VoteReplyIs(cs: seq<Cluster>, steps: seq<Step>, k: nat, q: nat, v: RequestVoteArgs, r: RequestVoteReply)
    returns (y: Peer, G: Log, g: set<nat>)
    requires Run(cs, steps) && k < |steps| && steps[k] == Deliver(VoteRep(q, v, r))
    ensures v.candidateId < |cs[k].peers| && Refines(cs[k].peers[v.candidateId], G)
    ensures Becomes(cs[k], v.candidateId, y, {}, cs[k + 1])
    ensures var x := cs[k].peers[v.candidateId];
            if x.role != Candidate || x.currentTerm != v.term then y == x
            else if r.term > x.currentTerm then
              y == x.(currentTerm := r.term, role := Follower, votedFor := -1, waiting := x.waiting - {q}, disk := y.disk)
            else if !r.voteGranted then y == x.(waiting := x.waiting - {q})
            else
              && Safety.Counts(cs[k], v.candidateId, g) && q !in g
              && y == x.(waiting := x.waiting - {q}, votes := x.votes + 1,
                         role := y.role, nextIndex := y.nextIndex, matchIndex := y.matchIndex)
              && if Majority(g + {q}, x.n)
                 then y.role == Leader && y.nextIndex == seq(x.n, i => |G|) && y.matchIndex == seq(x.n, i => 0)
                 else y.role == Candidate && y.nextIndex == x.nextIndex && y.matchIndex == x.matchIndex
  {
    var a;
    a, G := StepFrom(cs, steps, k);
    var x := cs[k].peers[v.candidateId];
    RefinesLast(x, G);
    y := cs[k + 1].peers[v.candidateId];
    g := {};
    if x.role == Candidate && x.currentTerm == v.term {
      g := Safety.VotesAreCounted(cs, steps, k, v.candidateId);
      assert MsgOk(a, VoteRep(q, v, r));
      if r.term <= x.currentTerm && r.voteGranted {
        GrantIs(x, G, q, r, g);
      }
    }
  }

  /** One more grant, counted by the candidate. */
  lemma GrantIs(x: Peer, G: Log, q: nat, r: RequestVoteReply, g: set<nat>)
    requires x.Valid() && Refines(x, G) && x.role == Candidate && r.term <= x.currentTerm && r.voteGranted
    requires |g| == x.votes && q !in g && q < x.n && forall i | i in g :: i < x.n
    ensures var y := VoteReply(x, q, x.currentTerm, r);
            && y == x.(waiting := x.waiting - {q}, votes := x.votes + 1,
                       role := y.role, nextIndex := y.nextIndex, matchIndex := y.matchIndex)
            && if Majority(g + {q}, x.n)
               then y.role == Leader && y.nextIndex == seq(x.n, i => |G|) && y.matchIndex == seq(x.n, i => 0)
               else y.role == Candidate && y.nextIndex == x.nextIndex && y.matchIndex == x.matchIndex
  {
    RefinesLast(x, G);
    assert |g + {q}| == |g| + 1;
    var y := VoteReply(x, q, x.currentTerm, r);
    assert y.role == Leader ==> y.nextIndex == seq(x.n, i => |G|);
  }

  // ---------- the leader ----------

  /** A command at a leader goes to the end of its log, and anywhere else nowhere. */
  lemma CommandIs(cs: seq<Cluster>, steps: seq<Step>, k: nat, p: nat, command: Command) returns (y: Peer, G: Log)
    requires Run(cs, steps) && k < |steps| && steps[k] == ClientCommand(p, command)
    ensures p < |cs[k].peers| && Refines(cs[k].peers[p], G) && Becomes(cs[k], p, y, {}, cs[k + 1])
    ensures var x := cs[k].peers[p];
            if x.role != Leader then y == x
            else y == x.(log := y.log, disk := y.disk) && Refines(y, G + [Entry(x.currentTerm, |G|, command)])
  {
    var a;
    a, G := StepFrom(cs, steps, k);
    RefinesLast(cs[k].peers[p], G);
    y := cs[k + 1].peers[p];
  }

  /** A leader sends q everything from nextIndex on, were it nothing, unless that is behind its base;
      then it sends nothing. */
  lemma SendIs(cs: seq<Cluster>, steps: seq<Step>, k: nat, p: nat, q: nat) returns (G: Log)
    requires Run(cs, steps) && k < |steps| && steps[k] == SendAppend(p, q)
    ensures p < |cs[k].peers| && Refines(cs[k].peers[p], G) && q < |cs[k].peers[p].nextIndex|
    ensures var x := cs[k].peers[p];
            var next := x.nextIndex[q];
            && 1 <= next <= |G|
            && Becomes(cs[k], p, x,
                       if next <= x.lastIncludedIndex then {}
                       else {AppendReq(q, AppendEntriesArgs(x.currentTerm, p, next - 1, G[next - 1].term, G[next..],
                                                            x.commitIndex))},
                       cs[k + 1])
  {
    var a;
    a, G := StepFrom(cs, steps, k);
    var x := cs[k].peers[p];
    SentEntries(x, q, G);
  }

  lemma SentEntries(x: Peer, q: nat, G: Log)
    requires x.Valid() && x.role == Leader && Refines(x, G) && q < x.n && 1 <= x.nextIndex[q] <= x.GetLastLogIndex() + 1
    ensures var next := x.nextIndex[q];
            && next <= |G|
            && AppendRequest(x, q) ==
               if next <= x.lastIncludedIndex then None
               else Some(AppendEntriesArgs(x.currentTerm, x.me, next - 1, G[next - 1].term, G[next..], x.commitIndex))
  {
    RefinesLast(x, G);
    var next := x.nextIndex[q];
    if next > x.lastIncludedIndex {
      RefinesTerm(x, G, next - 1);
      var s, t := x.log[next - x.lastIncludedIndex..], G[next..];
      forall i | 0 <= i < |s| ensures s[i] == t[i] {
        assert x.log[next - x.lastIncludedIndex + i] == G[next + i];
      }
      assert s == t;
    }
  }

  /** A majority, the leader included, is known to hold entry k of the leader's own term. */
  ghost predicate HeldByMajority(x: Peer, G: Log, k: nat) {
    && k < |G| && G[k].term == x.currentTerm
    && exists Q: set<nat> {:trigger Majority(Q, x.n)} :: Majority(Q, x.n) && HoldAll(x, Q, k)
  }

  ghost predicate HoldAll(x: Peer, Q: set<nat>, k: nat) {
    forall q | q in Q && q != x.me :: q < |x.matchIndex| && x.matchIndex[q] >= k
  }

  lemma CommitIs(x: Peer, G: Log)
    requires x.Valid() && Refines(x, G)
    ensures var c := NewCommit(x, x.GetLastLogIndex());
            && x.commitIndex <= c
            && (c > x.commitIndex ==> HeldByMajority(x, G, c))
            && forall k: nat {:trigger HeldByMajority(x, G, k)} | HeldByMajority(x, G, k) :: k <= c
  {
    RefinesLast(x, G);
    var c := NewCommit(x, x.GetLastLogIndex());
    if c > x.commitIndex {
      RefinesTerm(x, G, c);
      var Q := Holders(x, c) + {x.me};
      assert |Q| == |Holders(x, c)| + 1;
      assert Majority(Q, x.n) && HoldAll(x, Q, c);
    }
    forall k: nat | HeldByMajority(x, G, k) && k > x.commitIndex ensures k <= c {
      RefinesTerm(x, G, k);
      var Q: set<nat> :| Majority(Q, x.n) && HoldAll(x, Q, k);
      SubsetSize(Q, Holders(x, k) + {x.me});
      assert |Holders(x, k) + {x.me}| == |Holders(x, k)| + 1;
      assert CanCommit(x, k);
    }
  }

  /** Where a rejection sends the leader: to the follower's length, or past the last entry of the
      conflicting term it still has, or to the follower's first index of that term; never below 1. */
  ghost predicate GoesBackTo(x: Peer, G: Log, r: AppendEntriesReply, next: nat) {
    if r.xTerm == -1 then next == Max(r.xLen, 1)
    else
      || (x.lastIncludedIndex < next <= |G| && G[next - 1].term == r.xTerm
          && forall u: nat | next <= u < |G| :: G[u].term != r.xTerm)
      || (next == Max(r.xIndex, 1)
          && forall u: nat | x.lastIncludedIndex <= u < |G| :: G[u].term != r.xTerm)
  }

  lemma BacktrackIs(x: Peer, G: Log, r: AppendEntriesReply)
    requires x.Valid() && Refines(x, G)
    ensures GoesBackTo(x, G, r, Backtrack(x, r))
  {
    RefinesLast(x, G);
    if r.xTerm != -1 {
      forall u: nat | x.lastIncludedIndex <= u < |G| ensures x.InLog(u) && x.GetLogTerm(u) == G[u].term {
        RefinesTerm(x, G, u);
      }
    }
  }

  /** A reply to an entry message in the leader's own term: a higher term ends its leadership; a
      success moves q's indices and commits whatever a majority, it included, is known to hold of the
      leader's own term, and no more; a rejection moves nextIndex of q alone. */
  lemma AppendReplyIs(cs: seq<Cluster>, steps: seq<Step>, k: nat, q: nat, e: AppendEntriesArgs, r: AppendEntriesReply)
    returns (y: Peer, G: Log)
    requires Run(cs, steps) && k < |steps| && steps[k] == Deliver(AppendRep(q, e, r))
    ensures e.leaderId < |cs[k].peers| && Refines(cs[k].peers[e.leaderId], G)
    ensures Becomes(cs[k], e.leaderId, y, {}, cs[k + 1])
    ensures var x := cs[k].peers[e.leaderId];
            && q < |x.nextIndex| && q < |x.matchIndex| && q < |y.nextIndex|
            && if x.role != Leader || x.currentTerm != e.term then y == x
               else if r.term > x.currentTerm then
                 y == x.(currentTerm := r.term, role := Follower, votedFor := -1, disk := y.disk)
               else if r.success then
                 var m := Max(x.matchIndex[q], e.prevLogIndex + |e.entries|);
                 && y == x.(matchIndex := x.matchIndex[q := m], nextIndex := x.nextIndex[q := m + 1],
                            commitIndex := y.commitIndex)
                 && x.commitIndex <= y.commitIndex
                 && (y.commitIndex > x.commitIndex ==> HeldByMajority(y, G, y.commitIndex))
                 && (forall i: nat {:trigger HeldByMajority(y, G, i)} | HeldByMajority(y, G, i) :: i <= y.commitIndex)
               else
                 && y == x.(nextIndex := x.nextIndex[q := y.nextIndex[q]])
                 && GoesBackTo(x, G, r, y.nextIndex[q])
  {
    var a;
    a, G := StepFrom(cs, steps, k);
    var x := cs[k].peers[e.leaderId];
    y := cs[k + 1].peers[e.leaderId];
    if x.role == Leader && x.currentTerm == e.term && r.term <= x.currentTerm {
      AppendReplied(x, G, q, e, r);
    }
  }

  lemma AppendReplied(x: Peer, G: Log, q: nat, e: AppendEntriesArgs, r: AppendEntriesReply)
    requires x.Valid() && Refines(x, G) && q < x.n && x.role == Leader && x.currentTerm == e.term && r.term <= x.currentTerm
    ensures var y := AppendReply(x, q, e, r);
            && q < |y.nextIndex|
            && if r.success then
                 var m := Max(x.matchIndex[q], e.prevLogIndex + |e.entries|);
                 && y == x.(matchIndex := x.matchIndex[q := m], nextIndex := x.nextIndex[q := m + 1],
                            commitIndex := y.commitIndex)
                 && x.commitIndex <= y.commitIndex
                 && (y.commitIndex > x.commitIndex ==> HeldByMajority(y, G, y.commitIndex))
                 && (forall i: nat {:trigger HeldByMajority(y, G, i)} | HeldByMajority(y, G, i) :: i <= y.commitIndex)
               else
                 && y == x.(nextIndex := x.nextIndex[q := y.nextIndex[q]])
                 && GoesBackTo(x, G, r, y.nextIndex[q])
  {
    if r.success {
      var z := Progress(x, q, e.prevLogIndex + |e.entries|);
      CommitIs(z, G);
      var y := AppendReply(x, q, e, r);
      forall i: nat ensures HeldByMajority(y, G, i) == HeldByMajority(z, G, i) {
        SameHeld(z, y, G, i);
      }
    } else {
      BacktrackIs(x, G, r);
    }
  }

  lemma SameHeld(x: Peer, y: Peer, G: Log, k: nat)
    requires y.matchIndex == x.matchIndex && y.currentTerm == x.currentTerm && y.n == x.n && y.me == x.me
    ensures HeldByMajority(y, G, k) == HeldByMajority(x, G, k)
  {
    forall Q ensures HoldAll(y, Q, k) == HoldAll(x, Q, k) {
    }
  }

  // ---------- the follower ----------

  /** What every message from a leader of no earlier term does first. */
  function Heard(x: Peer, term: nat, y: Peer): Peer {
    x.(currentTerm := term, role := Follower, votedFor := if term > x.currentTerm then -1 else x.votedFor, disk := y.disk)
  }

  /** The full log has the entry the message builds on, where the peer can still see it. */
  predicate Fits(x: Peer, G: Log, e: AppendEntriesArgs) {
    x.lastIncludedIndex <= e.prevLogIndex < |G| && G[e.prevLogIndex].term == e.prevLogTerm
  }

  /** The log as the message has it. */
  function Told(G: Log, e: AppendEntriesArgs): Log
    requires e.prevLogIndex < |G|
  {
    G[..e.prevLogIndex + 1] + e.entries
  }

  /** What a rejection answers: the length of a log too short; the index after the base if the message
      builds on something behind it; or the conflicting term, with the first index in sight of the run
      of it that ends there. */
  ghost predicate Explains(x: Peer, G: Log, e: AppendEntriesArgs, r: AppendEntriesReply) {
    var prev := e.prevLogIndex;
    if prev >= |G| then r.xTerm == -1 && r.xLen == |G|
    else if prev < x.lastIncludedIndex then r.xTerm == -1 && r.xLen == x.lastIncludedIndex + 1
    else
      && r.xTerm == G[prev].term
      && x.lastIncludedIndex <= r.xIndex <= prev
      && (forall u: nat | r.xIndex <= u <= prev :: G[u].term == r.xTerm)
      && (r.xIndex > x.lastIncludedIndex ==> G[r.xIndex - 1].term != r.xTerm)
  }

  /** An entry message: turned down if its term is behind; otherwise its leader is heeded, and it is
      accepted if and only if the full log has the entry it builds on. Then the log is as the message
      has it, unless it has all of that already, and the commit index is not behind the leader's. */
  lemma AppendIs(cs: seq<Cluster>, steps: seq<Step>, k: nat, p: nat, e: AppendEntriesArgs)
    returns (y: Peer, r: AppendEntriesReply, G: Log)
    requires Run(cs, steps) && k < |steps| && steps[k] == Deliver(AppendReq(p, e))
    ensures p < |cs[k].peers| && Refines(cs[k].peers[p], G)
    ensures Becomes(cs[k], p, y, {AppendRep(p, e, r)}, cs[k + 1])
    ensures var x := cs[k].peers[p];
            && r.term == x.currentTerm
            && (r.success <==> e.term >= x.currentTerm && Fits(x, G, e))
            && if e.term < x.currentTerm then y == x
               else if r.success then
                 && Refines(y, if Told(G, e) <= G then G else Told(G, e))
                 && y == Heard(x, e.term, y).(log := y.log, commitIndex := Max(x.commitIndex, e.leaderCommit))
               else y == Heard(x, e.term, y) && Explains(x, G, e, r)
  {
    var a;
    a, G := StepFrom(cs, steps, k);
    var x := cs[k].peers[p];
    y, r := cs[k + 1].peers[p], AppendEntries(x, e).1;
    assert MsgOk(a, AppendReq(p, e));
    hide AppendEntries, NodeOk, AppendArgsOk, P.WfLog, P.Inv;
    Answers(a, p, x, G, e);
  }

  lemma HeardIs(a: P.State, p: nat, x: Peer, term: nat, leader: nat) returns (h: Peer)
    requires P.Inv(a) && NodeOk(a, p, x) && FromLeader(a, term, leader) && leader != p && x.currentTerm <= term
    ensures h == HeedLeader(x, term) == Heard(x, term, h) && h.Valid()
    ensures Refines(h, a.log[p]) && DiskOk(h) && h.disk.snapshot == x.disk.snapshot
  {
    hide P.Inv;
    var a1 := HeedLeaderOk(a, p, x, term, leader);
    h := HeedLeader(x, term);
  }

  lemma Answers(a: P.State, p: nat, x: Peer, G: Log, e: AppendEntriesArgs)
    requires P.Inv(a) && NodeOk(a, p, x) && x.Valid() && G == a.log[p] && P.WfLog(a, G, x.currentTerm)
    requires AppendArgsOk(a, e) && e.leaderId != p && e.leaderId < a.n
    ensures var y, r := AppendEntries(x, e).0, AppendEntries(x, e).1;
            && r.term == x.currentTerm
            && (r.success <==> e.term >= x.currentTerm && Fits(x, G, e))
            && if e.term < x.currentTerm then y == x
               else if r.success then
                 && Refines(y, if Told(G, e) <= G then G else Told(G, e))
                 && y == Heard(x, e.term, y).(log := y.log, commitIndex := Max(x.commitIndex, e.leaderCommit))
               else y == Heard(x, e.term, y) && Explains(x, G, e, r)
  {
    hide NodeOk, P.Inv, AppendInTerm, HeedLeader, Told, P.WfLog, DiskOk, Refines;
    if e.term >= x.currentTerm {
      var h := HeardIs(a, p, x, e.term, e.leaderId);
      InTermIs(a, x, h, G, e);
    }
  }

  /** The message is heeded already. */
  lemma InTermIs(a: P.State, x: Peer, h: Peer, G: Log, e: AppendEntriesArgs)
    requires P.Inv(a) && P.WfLog(a, G, x.currentTerm) && x.currentTerm <= e.term && AppendArgsOk(a, e)
    requires h.Valid() && Refines(h, G) && DiskOk(h)
    ensures var y, r := AppendInTerm(h, e, x.currentTerm).0, AppendInTerm(h, e, x.currentTerm).1;
            && r.term == x.currentTerm && (r.success <==> Fits(h, G, e))
            && if r.success then
                 && Refines(y, if Told(G, e) <= G then G else Told(G, e))
                 && y == h.(log := y.log, commitIndex := Max(h.commitIndex, e.leaderCommit), disk := y.disk)
               else y == h && Explains(h, G, e, r)
  {
    RefinesLast(h, G);
    if Fits(h, G, e) {
      RefinesTerm(h, G, e.prevLogIndex);
      Takes(a, x, h, G, e);
      Commits(a, h, e);
    } else {
      RejectionIs(h, G, e, x.currentTerm);
    }
  }

  lemma Takes(a: P.State, x: Peer, h: Peer, G: Log, e: AppendEntriesArgs)
    requires P.Inv(a) && P.WfLog(a, G, x.currentTerm) && x.currentTerm <= e.term && AppendArgsOk(a, e)
    requires h.Valid() && Refines(h, G) && DiskOk(h) && h.InLog(e.prevLogIndex) && Fits(h, G, e)
    ensures Refines(TakeEntries(h, e), if Told(G, e) <= G then G else Told(G, e))
  {
    hide TakeEntries, Matched, Refines, Told;
    var R := a.reigns[e.term].log;
    WfLogGrows(a, a, G, x.currentTerm, e.term);
    assert P.ReignOk(a, e.term);
    TakenRefines(a, h, G, R, e.term, e);
    P.LogMatching(a, R, e.term, G, e.term, e.prevLogIndex);
    TakenIsTold(G, R, e);
  }

  /** The leader's commit index is within the message, and so within the log that has taken it. */
  lemma Commits(a: P.State, h: Peer, e: AppendEntriesArgs)
    requires AppendArgsOk(a, e) && h.Valid() && h.InLog(e.prevLogIndex)
    ensures |TakeEntries(h, e).log| > 0
    ensures var y := FollowCommit(TakeEntries(h, e), e.leaderCommit);
            && y.log == TakeEntries(h, e).log && y.disk == TakeEntries(h, e).disk
            && y.lastIncludedIndex == h.lastIncludedIndex && y.lastIncludedTerm == h.lastIncludedTerm
            && y == h.(log := y.log, commitIndex := Max(h.commitIndex, e.leaderCommit), disk := y.disk)
  {
    TakenFields(h, e);
    Safety.TakenReaches(h, e);
    hide TakeEntries;
  }

  lemma TakenFields(h: Peer, e: AppendEntriesArgs)
    requires h.Valid() && h.InLog(e.prevLogIndex)
    ensures var y := TakeEntries(h, e); y == h.(log := y.log, disk := y.disk)
  {
  }

  lemma TakenIsTold(G: Log, R: Log, e: AppendEntriesArgs)
    requires Carries(e, R) && Agree(R, G, e.prevLogIndex + 1)
    ensures P.Adopted(G, R, Reach(e)) == if Told(G, e) <= G then G else Told(G, e)
  {
    var T := Told(G, e);
    forall i | 0 <= i < |T| ensures T[i] == R[i] {
      if i > e.prevLogIndex {
        assert e.entries[i - e.prevLogIndex - 1] == R[i];
      }
    }
    assert R[..Reach(e)] == T;
    if Agree(R, G, Reach(e)) {
      assert G[..|T|] == T;
    }
  }

  lemma RejectionIs(h: Peer, G: Log, e: AppendEntriesArgs, replyTerm: nat)
    requires h.Valid() && Refines(h, G) && !Fits(h, G, e)
    ensures var out := AppendInTerm(h, e, replyTerm);
            out.0 == h && !out.1.success && out.1.term == replyTerm && Explains(h, G, e, out.1)
  {
    RefinesLast(h, G);
    var prev := e.prevLogIndex;
    if h.lastIncludedIndex <= prev < |G| {
      RefinesTerm(h, G, prev);
      FirstIs(h, G, prev);
    }
  }

  lemma {:induction false} FirstIs(h: Peer, G: Log, i: nat)
    requires Refines(h, G) && |h.log| > 0 && h.InLog(i)
    ensures i < |G|
    ensures var f := FirstOfTerm(h, i);
            && h.lastIncludedIndex <= f <= i
            && (forall u: nat | f <= u <= i :: G[u].term == G[i].term)
            && (f > h.lastIncludedIndex ==> G[f - 1].term != G[i].term)
    decreases i
  {
    RefinesTerm(h, G, i);
    if i > h.lastIncludedIndex {
      RefinesTerm(h, G, i - 1);
      if G[i - 1].term == G[i].term {
        FirstIs(h, G, i - 1);
      }
    }
  }

  // ---------- snapshots ----------

  /** A leader's snapshot message tells its base, and carries what it saved there. */
  lemma SnapshotSentIs(cs: seq<Cluster>, steps: seq<Step>, k: nat, p: nat, q: nat) returns (G: Log)
    requires Run(cs, steps) && k < |steps| && steps[k] == SendSnapshot(p, q)
    ensures p < |cs[k].peers| && Refines(cs[k].peers[p], G)
    ensures var x := cs[k].peers[p];
            var b := x.lastIncludedIndex;
            Becomes(cs[k], p, x, {SnapReq(q, InstallSnapshotArgs(x.currentTerm, p, b, G[b].term, x.disk.snapshot))}, cs[k + 1])
  {
    var a;
    a, G := StepFrom(cs, steps, k);
  }

  /** A snapshot message: turned down if its term is behind; otherwise its leader is heeded, and a
      snapshot past the base becomes the base, is saved, and waits for the service. The log after it is
      kept if and only if it has the snapshot's last entry. */
  lemma InstallIs(cs: seq<Cluster>, steps: seq<Step>, k: nat, p: nat, m: InstallSnapshotArgs)
    returns (y: Peer, r: InstallSnapshotReply, G: Log)
    requires Run(cs, steps) && k < |steps| && steps[k] == Deliver(SnapReq(p, m))
    ensures p < |cs[k].peers| && Refines(cs[k].peers[p], G)
    ensures Becomes(cs[k], p, y, {SnapRep(p, m, r)}, cs[k + 1])
    ensures var x, i := cs[k].peers[p], m.lastIncludedIndex;
            && r.term == x.currentTerm
            && if m.term < x.currentTerm then y == x
               else if i <= x.lastIncludedIndex then
                 y == Heard(x, m.term, y) && y.disk.snapshot == x.disk.snapshot
               else
                 && y == Heard(x, m.term, y).(
                      log := y.log, lastIncludedIndex := i, lastIncludedTerm := m.lastIncludedTerm,
                      commitIndex := Max(x.commitIndex, i), lastApplied := Max(x.lastApplied, i),
                      pending := Some(Snapshot(i, m.lastIncludedTerm, m.data)))
                 && y.disk.snapshot == m.data
                 && if i < |G| && G[i].term == m.lastIncludedTerm then Refines(y, G)
                    else y.log == [Entry(m.lastIncludedTerm, i, NoCommand)]
  {
    var a;
    a, G := StepFrom(cs, steps, k);
    var x := cs[k].peers[p];
    y, r := cs[k + 1].peers[p], InstallSnapshot(x, m).1;
    assert MsgOk(a, SnapReq(p, m));
    hide InstallSnapshot, NodeOk, SnapArgsOk, P.Inv;
    InstallAnswers(a, p, x, G, m);
  }

  lemma InstallAnswers(a: P.State, p: nat, x: Peer, G: Log, m: InstallSnapshotArgs)
    requires P.Inv(a) && NodeOk(a, p, x) && x.Valid() && G == a.log[p]
    requires SnapArgsOk(a, m) && m.leaderId != p && m.leaderId < a.n
    ensures var y, r, i := InstallSnapshot(x, m).0, InstallSnapshot(x, m).1, m.lastIncludedIndex;
            && r.term == x.currentTerm
            && if m.term < x.currentTerm then y == x
               else if i <= x.lastIncludedIndex then
                 y == Heard(x, m.term, y) && y.disk.snapshot == x.disk.snapshot
               else
                 && y == Heard(x, m.term, y).(
                      log := y.log, lastIncludedIndex := i, lastIncludedTerm := m.lastIncludedTerm,
                      commitIndex := Max(x.commitIndex, i), lastApplied := Max(x.lastApplied, i),
                      pending := Some(Snapshot(i, m.lastIncludedTerm, m.data)))
                 && y.disk.snapshot == m.data
                 && if i < |G| && G[i].term == m.lastIncludedTerm then Refines(y, G)
                    else y.log == [Entry(m.lastIncludedTerm, i, NoCommand)]
  {
    if m.term >= x.currentTerm {
      var h := HeardIs(a, p, x, m.term, m.leaderId);
      if m.lastIncludedIndex > x.lastIncludedIndex {
        Installs(h, G, m);
      }
    }
  }

  lemma Installs(h: Peer, G: Log, m: InstallSnapshotArgs)
    requires h.Valid() && Refines(h, G) && m.lastIncludedIndex > h.lastIncludedIndex
    ensures var y, i := InstallInTerm(h, m), m.lastIncludedIndex;
            && y == h.(log := y.log, lastIncludedIndex := i, lastIncludedTerm := m.lastIncludedTerm,
                       commitIndex := Max(h.commitIndex, i), lastApplied := Max(h.lastApplied, i),
                       pending := Some(Snapshot(i, m.lastIncludedTerm, m.data)), disk := y.disk)
            && y.disk.snapshot == m.data
            && if i < |G| && G[i].term == m.lastIncludedTerm then Refines(y, G)
               else y.log == [Entry(m.lastIncludedTerm, i, NoCommand)]
  {
    RefinesLast(h, G);
    var y, i := InstallInTerm(h, m), m.lastIncludedIndex;
    if i < |G| {
      RefinesTerm(h, G, i);
      if G[i].term == m.lastIncludedTerm {
        forall u: nat | 0 < u < |y.log| ensures y.log[u] == G[i + u] {
          assert y.log[u] == h.log[i - h.lastIncludedIndex + u];
        }
      }
    }
  }

  /** The answer to a snapshot in the leader's own term: what is known of q is at least the snapshot's
      index, the next message starts right after what is known, and it is an entry message again
      unless the base has moved beyond that. */
  lemma SnapshotReplyIs(cs: seq<Cluster>, steps: seq<Step>, k: nat, q: nat, m: InstallSnapshotArgs, r: InstallSnapshotReply)
    returns (y: Peer, G: Log)
    requires Run(cs, steps) && k < |steps| && steps[k] == Deliver(SnapRep(q, m, r))
    ensures m.leaderId < |cs[k].peers| && Refines(cs[k].peers[m.leaderId], G)
    ensures Becomes(cs[k], m.leaderId, y, {}, cs[k + 1])
    ensures var x := cs[k].peers[m.leaderId];
            && q < |x.nextIndex| && q < |x.matchIndex|
            && if x.role != Leader || x.currentTerm != m.term then y == x
               else if r.term > x.currentTerm then
                 y == x.(currentTerm := r.term, role := Follower, votedFor := -1, disk := y.disk)
               else
                 var known := Max(x.matchIndex[q], m.lastIncludedIndex);
                 && y == x.(matchIndex := x.matchIndex[q := known], nextIndex := x.nextIndex[q := known + 1])
                 && y.Valid() && known + 1 <= y.GetLastLogIndex() + 1
                 && (AppendRequest(y, q).Some? <==> y.lastIncludedIndex <= known)
  {
    var a;
    a, G := StepFrom(cs, steps, k);
    var x := cs[k].peers[m.leaderId];
    y := cs[k + 1].peers[m.leaderId];
    if x.role == Leader && x.currentTerm == m.term && r.term <= x.currentTerm {
      NextSafe(cs, steps, k, m.leaderId, q);
    }
  }

  /** In every reachable state a leader's next index is within its log. */
  lemma NextSafe(cs: seq<Cluster>, steps: seq<Step>, k: nat, p: nat, q: nat)
    requires Run(cs, steps) && k < |steps| && p < |cs[k + 1].peers|
    ensures var y := cs[k + 1].peers[p];
            y.Valid() && (y.role == Leader && q < y.n ==> 1 <= y.nextIndex[q] <= y.GetLastLogIndex() + 1)
  {
    Safety.IndexOrder(cs, steps, k + 1, p);
  }

  /** The service's snapshot at an index past the base: it becomes the base and is saved, and the full
      log stays as it was. */
  lemma CompactIs(cs: seq<Cluster>, steps: seq<Step>, k: nat, p: nat, index: nat, data: GroupState)
    returns (y: Peer, G: Log)
    requires Run(cs, steps) && k < |steps| && steps[k] == ServiceSnapshot(p, index, data)
    ensures p < |cs[k].peers| && Refines(cs[k].peers[p], G) && Becomes(cs[k], p, y, {}, cs[k + 1])
    ensures var x := cs[k].peers[p];
            if index <= x.lastIncludedIndex then y == x
            else
              && index < |G| && Refines(y, G) && y.disk.snapshot == Some(data)
              && y == x.(log := y.log, lastIncludedIndex := index, lastIncludedTerm := G[index].term, disk := y.disk)
  {
    var a;
    a, G := StepFrom(cs, steps, k);
    var x := cs[k].peers[p];
    y := cs[k + 1].peers[p];
    RefinesLast(x, G);
    if index > x.lastIncludedIndex {
      RefinesTerm(x, G, index);
      forall u: nat | 0 < u < |y.log| ensures y.log[u] == G[index + u] {
        assert y.log[u] == x.log[index - x.lastIncludedIndex + u];
      }
    }
  }

  // ---------- the applier and restarts ----------

  /** What an applier round hands over: a pending snapshot alone, which then pends no longer, or else
      the commands of the full log after lastApplied up to the commit index, each at its index. */
  lemma ApplyIs(x: Peer, G: Log)
    requires x.Valid() && Refines(x, G) && x.lastIncludedIndex <= x.lastApplied <= x.commitIndex < |G|
    ensures x.commitIndex <= x.GetLastLogIndex()
    ensures var y, out := Apply(x).0, Apply(x).1;
            match x.pending
            case Some(s) => y == x.(pending := None) && out == [SnapshotMsg(s)]
            case None =>
              && y == x.(lastApplied := x.commitIndex)
              && |out| == x.commitIndex - x.lastApplied
              && forall i: nat {:trigger out[i]} | i < |out| ::
                   out[i] == CommandMsg(G[x.lastApplied + 1 + i].command, x.lastApplied + 1 + i)
  {
    RefinesLast(x, G);
    if x.pending.None? {
      BatchIs(x, G, x.lastApplied);
    }
  }

  lemma {:induction false} BatchIs(x: Peer, G: Log, from: nat)
    requires x.Valid() && Refines(x, G) && x.lastIncludedIndex <= from <= x.commitIndex < |G|
    requires x.commitIndex <= x.GetLastLogIndex()
    ensures |Batch(x, from)| == x.commitIndex - from
    ensures forall i: nat {:trigger Batch(x, from)[i]} | i < x.commitIndex - from ::
              Batch(x, from)[i] == CommandMsg(G[from + 1 + i].command, from + 1 + i)
    decreases x.commitIndex - from
  {
    if from < x.commitIndex {
      BatchIs(x, G, from + 1);
      assert x.log[from + 1 - x.lastIncludedIndex] == G[from + 1];
      forall i: nat | i < x.commitIndex - from
        ensures Batch(x, from)[i] == CommandMsg(G[from + 1 + i].command, from + 1 + i)
      {
        if i > 0 {
          assert Batch(x, from)[i] == Batch(x, from + 1)[i - 1];
        }
      }
    }
  }

  /** A restart: term, vote, log and base are back, everything behind the base counts as committed and
      applied, and nothing else is remembered. */
  lemma RestartIs(cs: seq<Cluster>, steps: seq<Step>, k: nat, p: nat) returns (y: Peer, G: Log)
    requires Run(cs, steps) && k < |steps| && steps[k] == Restart(p)
    ensures p < |cs[k].peers| && Refines(cs[k].peers[p], G) && Refines(y, G) && Becomes(cs[k], p, y, {}, cs[k + 1])
    ensures var x := cs[k].peers[p];
            y == x.(commitIndex := x.lastIncludedIndex, lastApplied := x.lastIncludedIndex, role := Follower,
                    nextIndex := seq(x.n, i => 0), matchIndex := seq(x.n, i => 0), votes := 0, waiting := {}, pending := None)
  {
    var a;
    a, G := StepFrom(cs, steps, k);
    y := cs[k + 1].peers[p];
  }
}
