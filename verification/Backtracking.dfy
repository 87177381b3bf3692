// How fast a leader finds the place where a follower's log departs from its own.
module Backtracking {
  import opened Core
  import opened RaftTypes
  import opened RaftPeer
  import opened Cluster
  import P = Protocol
  import opened ProtocolProof
  import opened ClusterInvariant
  import opened ElectionProof
  import Safety = RaftSafety

  /** One exchange: the leader as it sent, the follower as it answered, the leader as it handles the
      answer. In between the leader may have taken commands, compacted its log, heard from others. */
  datatype Probe = Probe(sender: Peer, follower: Peer, handler: Peer)

  function Reply(e: Probe, q: nat): AppendEntriesReply
    requires Sends(e, q)
  {
    AppendEntries(e.follower, AppendRequest(e.sender, q).value).1
  }

  predicate Sends(e: Probe, q: nat) {
    && e.sender.Valid() && e.follower.Valid() && q < e.sender.n && e.sender.role == Leader
    && 1 <= e.sender.nextIndex[q] <= e.sender.GetLastLogIndex() + 1
    && AppendRequest(e.sender, q).Some?
  }

  /** A follower of no later term turns the message down, and the leader of that term hears of it. */
  predicate Rejected(e: Probe, q: nat) {
    && Sends(e, q) && e.follower.currentTerm <= e.sender.currentTerm && !Reply(e, q).success
    && e.handler.Valid() && q < e.handler.n && e.handler.role == Leader
    && e.handler.currentTerm == e.sender.currentTerm
  }

  /** Where the leader goes on from. */
  function NextTry(e: Probe, q: nat): nat
    requires Rejected(e, q)
  {
    AppendReply(e.handler, q, AppendRequest(e.sender, q).value, Reply(e, q)).nextIndex[q]
  }

  /** Leader p's log is the first part of R. */
  ghost predicate Leading(p: Peer, R: Log) {
    && p.Valid() && p.role == Leader
    && p.GetLastLogIndex() < |R|
    && Refines(p, R[..p.GetLastLogIndex() + 1])
  }

  /** The exchange is between leaders of term t, whose log ends as R, and an uncompacted follower
      with log M, in one history. */
  ghost predicate Between(a: P.State, e: Probe, q: nat, R: Log, M: Log, t: nat) {
    && P.Inv(a) && P.WfLog(a, R, t) && P.WfLog(a, M, t)
    && Leading(e.sender, R) && Leading(e.handler, R)
    && e.follower.Valid() && Refines(e.follower, M) && e.follower.lastIncludedIndex == 0
  }

  /** Two logs of one history that both have entries of a term have the same entries up to there. */
  lemma SameRun(a: P.State, L: Log, tl: nat, M: Log, tm: nat, i: nat, j: nat)
    requires P.WfLog(a, L, tl) && P.WfLog(a, M, tm) && i < |M| && i <= j < |L| && M[i].term == L[j].term
    ensures M[i] == L[i]
  {
    assert P.EntryOk(a, L, tl, j) && P.EntryOk(a, M, tm, i);
  }

  lemma TermZero(a: P.State, L: Log, t: nat, i: nat)
    requires P.Inv(a) && P.WfLog(a, L, t) && i < |L| && L[i].term == 0
    ensures i == 0
  {
    assert P.EntryOk(a, L, t, i);
  }

  lemma TermsInOrder(a: P.State, L: Log, t: nat, i: nat, j: nat)
    requires P.WfLog(a, L, t) && i <= j < |L|
    ensures L[i].term <= L[j].term
  {
    assert P.InOrder(L, i, j);
  }

  lemma LeadingTerm(p: Peer, R: Log, i: nat)
    requires Leading(p, R) && p.InLog(i)
    ensures i < |R| && p.GetLogTerm(i) == R[i].term
  {
    RefinesTerm(p, R[..p.GetLastLogIndex() + 1], i);
  }

  /** What a rejection says: too short, or a conflict at the message's previous index, with the
      conflicting term and the first index that has it. */
  lemma RejectionMeans(a: P.State, e: Probe, q: nat, R: Log, M: Log, t: nat)
    requires Between(a, e, q, R, M, t) && Rejected(e, q)
    ensures var prev, r := e.sender.nextIndex[q] - 1, Reply(e, q);
            && 0 < prev < |R| && r.term <= e.sender.currentTerm
            && if prev >= |M| then r.xTerm == -1 && r.xLen == |M|
               else
                 && M[prev].term != R[prev].term && r.xTerm == M[prev].term > 0
                 && 0 < r.xIndex <= prev && M[r.xIndex].term == M[prev].term
                 && M[r.xIndex - 1].term < M[prev].term
  {
    var m := AppendRequest(e.sender, q).value;
    var prev := e.sender.nextIndex[q] - 1;
    LeadingTerm(e.sender, R, prev);
    var f := HeedLeader(e.follower, m.term);
    assert Refines(f, M) && f.lastIncludedIndex == 0;
    RefinesLast(f, M);
    if prev < |M| {
      RefinesTerm(f, M, prev);
      if M[prev].term == 0 {
        TermZero(a, M, t, prev);
      }
      FirstOfTermMeans(a, f, M, t, prev);
    }
  }

  lemma {:induction false} FirstOfTermMeans(a: P.State, f: Peer, M: Log, tm: nat, i: nat)
    requires P.Inv(a) && P.WfLog(a, M, tm) && Refines(f, M) && f.lastIncludedIndex == 0 && 0 < i < |M| && M[i].term > 0
    ensures f.InLog(i)
    ensures var x := FirstOfTerm(f, i);
            0 < x <= i && M[x].term == M[i].term && M[x - 1].term < M[i].term
    decreases i
  {
    RefinesTerm(f, M, i);
    RefinesTerm(f, M, i - 1);
    TermsInOrder(a, M, tm, i - 1, i);
    if M[i - 1].term == M[i].term {
      FirstOfTermMeans(a, f, M, tm, i - 1);
    }
  }

  /** Every rejection lowers nextIndex, although the leader looks for the term from its last index,
      whatever that has become, rather than from the previous index it sent; and a conflict is next
      met, if at all, at a strictly smaller term. */
  lemma RejectionFalls(a: P.State, e: Probe, q: nat, R: Log, M: Log, t: nat)
    requires Between(a, e, q, R, M, t) && Rejected(e, q)
    ensures var prev, prev' := e.sender.nextIndex[q] - 1, NextTry(e, q) - 1;
            && 0 <= prev' < prev < |R| && prev' < |M|
            && (prev < |M| ==> M[prev'].term < M[prev].term || M[prev'] == R[prev'])
  {
    RejectionMeans(a, e, q, R, M, t);
    var prev, p := e.sender.nextIndex[q] - 1, e.handler;
    if prev < |M| {
      var j := LastWithTerm(p, p.GetLastLogIndex(), Reply(e, q).xTerm);
      if j != -1 {
        LeadingTerm(p, R, j);
        if prev <= j {
          SameRun(a, R, t, M, t, prev, j);
        }
        TermsInOrder(a, M, t, j, prev);
        if M[j].term == M[prev].term {
          SameRun(a, M, t, R, t, j, prev);
        }
      }
    }
  }

  // ---------- the bound ----------

  /** The second message is sent from where the first rejection left the leader. */
  predicate Continues(e: Probe, e': Probe, q: nat) {
    Rejected(e, q) && Rejected(e', q) && e'.sender.nextIndex[q] == NextTry(e, q)
  }

  /** A series of rejections, one leading to the next. */
  ghost predicate InTurn(es: seq<Probe>, q: nat) {
    && (forall k: nat {:trigger es[k]} | k < |es| :: Rejected(es[k], q))
    && (forall k: nat {:trigger es[k]} | k < |es| - 1 :: Continues(es[k], es[k + 1], q))
  }

  ghost predicate AllBetween(a: P.State, es: seq<Probe>, q: nat, R: Log, M: Log, t: nat) {
    forall k: nat {:trigger Between(a, es[k], q, R, M, t)} | k < |es| :: Between(a, es[k], q, R, M, t)
  }

  /** The distinct terms among M's entries up to term x, leaving out the dummy. */
  ghost function TermsUpTo(M: Log, x: int): set<nat> {
    set k: nat | 0 < k < |M| && M[k].term <= x :: M[k].term
  }

  lemma FewerTerms(M: Log, x: int, y: int)
    requires x < y && y >= 0 && y in TermsUpTo(M, y)
    ensures |TermsUpTo(M, x)| < |TermsUpTo(M, y)|
  {
    assert TermsUpTo(M, x) <= TermsUpTo(M, y) - {y};
    SubsetSize(TermsUpTo(M, x), TermsUpTo(M, y) - {y});
  }

  lemma InTurnTail(a: P.State, es: seq<Probe>, q: nat, R: Log, M: Log, t: nat)
    requires |es| > 0 && InTurn(es, q) && AllBetween(a, es, q, R, M, t)
    ensures InTurn(es[1..], q) && AllBetween(a, es[1..], q, R, M, t)
  {
    hide Rejected, Between, Continues;
    var rest := es[1..];
    forall k: nat | k < |rest| ensures Between(a, rest[k], q, R, M, t) {
      assert Between(a, es[k + 1], q, R, M, t);
    }
  }

  /** After a rejection within the follower's log fewer terms are left to conflict at. */
  lemma OneTermLess(a: P.State, e: Probe, e': Probe, q: nat, R: Log, M: Log, t: nat)
    requires Between(a, e, q, R, M, t) && Rejected(e, q) && e.sender.nextIndex[q] - 1 < |M|
    requires Between(a, e', q, R, M, t) && Continues(e, e', q)
    ensures var n, n' := e.sender.nextIndex[q] - 1, e'.sender.nextIndex[q] - 1;
            0 <= n' < |M| && 0 <= n && |TermsUpTo(M, M[n'].term)| < |TermsUpTo(M, M[n].term)|
  {
    RejectionMeans(a, e, q, R, M, t);
    RejectionMeans(a, e', q, R, M, t);
    RejectionFalls(a, e, q, R, M, t);
    var n, n' := e.sender.nextIndex[q] - 1, e'.sender.nextIndex[q] - 1;
    assert M[n].term in TermsUpTo(M, M[n].term);
    FewerTerms(M, M[n'].term, M[n].term);
  }

  lemma {:induction false} ConflictsBounded(a: P.State, es: seq<Probe>, q: nat, R: Log, M: Log, t: nat)
    requires |es| > 0 && InTurn(es, q) && AllBetween(a, es, q, R, M, t)
    requires Rejected(es[0], q) && es[0].sender.nextIndex[q] - 1 < |M|
    ensures 0 <= es[0].sender.nextIndex[q] - 1
    ensures |es| <= |TermsUpTo(M, M[es[0].sender.nextIndex[q] - 1].term)|
    decreases |es|
  {
    hide Between, Reply, NextTry;
    assert Between(a, es[0], q, R, M, t);
    RejectionMeans(a, es[0], q, R, M, t);
    var n := es[0].sender.nextIndex[q] - 1;
    assert M[n].term in TermsUpTo(M, M[n].term);
    if |es| > 1 {
      assert Between(a, es[1], q, R, M, t) && Continues(es[0], es[1], q);
      OneTermLess(a, es[0], es[1], q, R, M, t);
      InTurnTail(a, es, q, R, M, t);
      ConflictsBounded(a, es[1..], q, R, M, t);
    }
  }

  lemma ProbesBounded(a: P.State, es: seq<Probe>, q: nat, R: Log, M: Log, t: nat)
    requires InTurn(es, q) && AllBetween(a, es, q, R, M, t)
    ensures |es| <= 1 + |TermsUpTo(M, t)|
  {
    hide Reply, NextTry, TermsUpTo;
    if |es| > 1 {
      assert Between(a, es[0], q, R, M, t) && Continues(es[0], es[1], q);
      RejectionFalls(a, es[0], q, R, M, t);
      InTurnTail(a, es, q, R, M, t);
      ConflictsBounded(a, es[1..], q, R, M, t);
      LessTerms(a, M, t, es[1].sender.nextIndex[q] - 1);
    }
  }

  lemma LessTerms(a: P.State, M: Log, t: nat, i: nat)
    requires P.WfLog(a, M, t) && i < |M|
    ensures |TermsUpTo(M, M[i].term)| <= |TermsUpTo(M, t)|
  {
    assert P.EntryOk(a, M, t, i);
    SubsetSize(TermsUpTo(M, M[i].term), TermsUpTo(M, t));
  }

  // ---------- in a run ----------

  /** Peer p was x at some moment of the run. */
  ghost predicate Seen(cs: seq<Cluster>, p: nat, x: Peer) {
    exists k: nat {:trigger cs[k]} :: k < |cs| && p < |cs[k].peers| && cs[k].peers[p] == x
  }

  /** An exchange of the run: each of its three states was there at some moment, q's with log M. */
  ghost predicate Observed(cs: seq<Cluster>, e: Probe, p: nat, q: nat, t: nat, M: Log) {
    && Seen(cs, p, e.sender) && Seen(cs, q, e.follower) && Seen(cs, p, e.handler)
    && e.sender.currentTerm == t && e.follower.log == M && e.follower.lastIncludedIndex == 0
  }

  /** All a leader of term t ever holds in a run is the first part of one log. */
  lemma LeaderSeen(cs: seq<Cluster>, steps: seq<Step>, hs: seq<P.State>, p: nat, x: Peer)
    requires Safety.Explains(cs, steps, hs) && Seen(cs, p, x) && x.role == Leader
    ensures x.currentTerm in hs[|steps|].reigns && P.WfLog(hs[|steps|], hs[|steps|].reigns[x.currentTerm].log, x.currentTerm)
    ensures Leading(x, hs[|steps|].reigns[x.currentTerm].log)
  {
    var n := |steps|;
    var k: nat :| k < |cs| && p < |cs[k].peers| && cs[k].peers[p] == x;
    Safety.HistoryGrows(cs, steps, hs, k, n);
    assert ClusterOk(cs[n], hs[n]) && ClusterOk(cs[k], hs[k]) && NodeOk(hs[k], p, x);
    assert ReignGrows(hs[k], hs[n], x.currentTerm) && P.ReignOk(hs[n], x.currentTerm);
    RefinesLast(x, hs[k].log[p]);
    assert hs[k].log[p] == hs[n].reigns[x.currentTerm].log[..x.GetLastLogIndex() + 1];
  }

  lemma FollowerSeen(cs: seq<Cluster>, steps: seq<Step>, hs: seq<P.State>, q: nat, f: Peer, t: nat)
    requires Safety.Explains(cs, steps, hs) && Seen(cs, q, f) && f.lastIncludedIndex == 0 && f.currentTerm <= t
    ensures f.Valid() && Refines(f, f.log) && P.WfLog(hs[|steps|], f.log, t)
  {
    var n := |steps|;
    var k: nat :| k < |cs| && q < |cs[k].peers| && cs[k].peers[q] == f;
    Safety.HistoryGrows(cs, steps, hs, k, n);
    assert ClusterOk(cs[k], hs[k]) && NodeOk(hs[k], q, f) && P.PeerOk(hs[k], q);
    assert f.log == hs[k].log[q];
    WfLogGrows(hs[k], hs[n], f.log, f.currentTerm, t);
  }

  lemma ObservedBetween(cs: seq<Cluster>, steps: seq<Step>, hs: seq<P.State>, e: Probe, p: nat, q: nat, t: nat, M: Log)
    requires Safety.Explains(cs, steps, hs) && Observed(cs, e, p, q, t, M) && Rejected(e, q)
    ensures t in hs[|steps|].reigns && Between(hs[|steps|], e, q, hs[|steps|].reigns[t].log, M, t)
  {
    hide P.Inv;
    assert ClusterOk(cs[|steps|], hs[|steps|]);
    LeaderSeen(cs, steps, hs, p, e.sender);
    LeaderSeen(cs, steps, hs, p, e.handler);
    FollowerSeen(cs, steps, hs, q, e.follower, t);
  }

  /** Fast backtracking: in any run, against a follower whose log is uncompacted and stays the same,
      a leader whose messages to it go out in turn is rejected at most once per distinct term in the
      follower's log, plus once, whatever else it does meanwhile. */
  lemma BacktrackingIsFast(cs: seq<Cluster>, steps: seq<Step>, p: nat, q: nat, t: nat, M: Log, es: seq<Probe>)
    requires Run(cs, steps) && InTurn(es, q)
    requires forall k: nat {:trigger es[k]} | k < |es| :: Observed(cs, es[k], p, q, t, M)
    ensures |es| <= 1 + |set i | 0 < i < |M| :: M[i].term|
  {
    if |es| > 0 {
      var hs := Safety.RunExplained(cs, steps);
      var a := hs[|steps|];
      assert Observed(cs, es[0], p, q, t, M) && Rejected(es[0], q);
      ObservedBetween(cs, steps, hs, es[0], p, q, t, M);
      var R := a.reigns[t].log;
      forall k: nat | k < |es| ensures Between(a, es[k], q, R, M, t) {
        assert Observed(cs, es[k], p, q, t, M) && Rejected(es[k], q);
        ObservedBetween(cs, steps, hs, es[k], p, q, t, M);
      }
      ProbesBounded(a, es, q, R, M, t);
      SubsetSize(TermsUpTo(M, t), set i | 0 < i < |M| :: M[i].term);
    }
  }
}
