// Safety of every run of the cluster: the Raft paper's properties (Figure 3), index safety, and
// what a crash preserves.
module RaftSafety {
  import opened Core
  import opened RaftTypes
  import opened RaftPeer
  import opened Cluster
  import P = Protocol
  import opened ProtocolProof
  import opened ClusterInvariant
  import opened ElectionProof
  import opened ReplicationProof
  import opened SnapshotProof

  // ---------- one step ----------

  /** No reachable critical section indexes out of range. */
  lemma IndexSafety(c: Cluster, a: P.State, step: Step)
    requires ClusterOk(c, a) && Enabled(c, step)
    ensures Defined(c, step)
  {
    var i := Actor(step);
    var p := c.peers[i];
    assert NodeOk(a, i, p);
    match step
    case SendAppend(_, q) => AppendRequestOk(a, i, p, q);
    case Deliver(m) => assert MsgOk(a, m);
    case ServiceSnapshot(_, index, data) => CompactOk(a, i, p, index, data);
    case ApplierRound(_) => ApplyOk(a, i, p);
    case _ => NodeValid(a, i, p);
  }

  ghost predicate AllOk(a: P.State, ms: set<Msg>) {
    forall m {:trigger MsgOk(a, m)} | m in ms :: MsgOk(a, m)
  }

  predicate IsReply(m: Msg) {
    m.VoteRep? || m.AppendRep? || m.SnapRep?
  }

  /** A delivered request moves the callee along the protocol, and its answer is sound. */
  lemma RequestOk(a: P.State, i: nat, p: Peer, m: Msg) returns (a': P.State)
    requires P.Inv(a) && NodeOk(a, i, p) && p.Valid() && MsgOk(a, m) && Receiver(m) == i && !IsReply(m)
    ensures Acts(a, a', i) && NodeOk(a', i, Receive(p, m))
    ensures AllOk(a', Answer(p, m))
  {
    if m.VoteReq? {
      a' := RequestVoteOk(a, i, p, m.vote);
    } else if m.AppendReq? {
      a' := AppendEntriesOk(a, i, p, m.append);
      AppendAnswerOk(a', i, p, m);
    } else {
      a' := InstallSnapshotOk(a, i, p, m.snap);
      SnapAnswerOk(a', i, p, m);
    }
  }

  lemma AppendAnswerOk(a: P.State, i: nat, p: Peer, m: Msg)
    requires m.AppendReq? && p.Valid() && m.to == i < a.n && m.append.leaderId < a.n
    requires AppendReplyOk(a, i, m.append, AppendEntries(p, m.append).1)
    ensures AllOk(a, Answer(p, m))
  {
  }

  lemma SnapAnswerOk(a: P.State, i: nat, p: Peer, m: Msg)
    requires m.SnapReq? && p.Valid() && m.to == i < a.n && m.snap.leaderId < a.n
    requires SnapReplyOk(a, i, m.snap, InstallSnapshot(p, m.snap).1)
    ensures AllOk(a, Answer(p, m))
  {
  }

  /** A delivered reply moves the caller along the protocol. */
  lemma ReplyOk(a: P.State, i: nat, p: Peer, m: Msg) returns (a': P.State)
    requires P.Inv(a) && NodeOk(a, i, p) && p.Valid() && MsgOk(a, m) && Receiver(m) == i && IsReply(m)
    requires m.VoteRep? && p.role == Candidate && p.currentTerm == m.vote.term ==> m.from in p.waiting
    ensures m.from < p.n && Acts(a, a', i) && NodeOk(a', i, Receive(p, m))
  {
    match m
    case VoteRep(q, v, r) => a' := VoteReplyOk(a, i, p, q, v.term, r);
    case AppendRep(q, e, r) => a' := AppendReplyStepOk(a, i, p, q, e, r);
    case SnapRep(q, s, r) => a' := SnapshotReplyOk(a, i, p, q, s, r);
  }

  /** Only a client's command at a leader appends to a leader's log, and it appends that command. */
  ghost predicate StepHistory(c: Cluster, a: P.State, step: Step, a': P.State)
    requires P.Shape(a) && Actor(step) < |c.peers| && Actor(step) < a.n
  {
    if step.ClientCommand? && c.peers[step.p].role == Leader then
      && a.term[step.p] in a.reigns
      && a' == P.Propose(a, step.p, Entry(a.term[step.p], |a.log[step.p]|, step.command))
    else Quiet(a, a')
  }

  /** A crash between two saves of a handler leaves a peer the protocol can explain. */
  lemma CrashInOk(a: P.State, i: nat, p: Peer, m: Msg, written: nat) returns (a': P.State)
    requires P.Inv(a) && NodeOk(a, i, p) && p.Valid() && MsgOk(a, m) && Receiver(m) == i && !IsReply(m)
    requires m.AppendReq? ==> written <= |m.append.entries|
    ensures Acts(a, a', i) && NodeOk(a', i, Make(p.me, p.n, Interrupted(p, m, written).disk))
  {
    hide P.PeersOk, P.ReignsOk, P.RecordsOk, P.KeptOk, P.SafeOk;
    a' := a;
    ActsNone(a, i);
    match m {
      case VoteReq(_, v) =>
        if v.term > p.currentTerm {
          a' := StepDownOk(a, i, p, v.term);
        }
      case AppendReq(_, e) => a' := AppendSavedOk(a, i, p, e, written);
      case SnapReq(_, s) =>
        if s.term >= p.currentTerm {
          a' := HeedLeaderOk(a, i, p, s.term, s.leaderId);
        }
      case _ =>
    }
    RestartOk(a', i, Interrupted(p, m, written));
  }

  /** A new candidate, and its requests to all others. */
  lemma TimeoutOk(c: Cluster, a: P.State, step: Step) returns (a': P.State)
    requires ClusterOk(c, a) && Enabled(c, step) && Defined(c, step) && step.ElectionTimeout?
    ensures Acts(a, a', step.p) && NodeOk(a', step.p, ActorNext(c, step))
    ensures AllOk(a', Sent(c, step))
  {
    hide P.PeersOk, P.ReignsOk, P.RecordsOk, P.KeptOk, P.SafeOk, StartElection;
    assert NodeOk(a, step.p, c.peers[step.p]);
    a' := StartElectionOk(a, step.p, c.peers[step.p]);
  }

  lemma ActorOk(c: Cluster, a: P.State, step: Step) returns (a': P.State)
    requires ClusterOk(c, a) && Enabled(c, step) && Defined(c, step)
    ensures Moves(a, a', Actor(step)) && NodeOk(a', Actor(step), ActorNext(c, step))
    ensures AllOk(a', Sent(c, step))
    ensures StepHistory(c, a, step, a')
  {
    hide P.PeersOk, P.ReignsOk, P.RecordsOk, P.KeptOk, P.SafeOk;
    hide StartElection, Receive, Compact, Apply, Make, Interrupted, Moves, MsgOk;
    var i := Actor(step);
    var p := c.peers[i];
    assert NodeOk(a, i, p);
    match step
    case ElectionTimeout(_) => a' := TimeoutOk(c, a, step);
    case ClientCommand(_, command) => a' := StartOk(a, i, p, command);
    case CrashIn(m, written) => a' := CrashInOk(a, i, p, m, written);
    case Deliver(m) =>
      assert MsgOk(a, m);
      if IsReply(m) {
        a' := ReplyOk(a, i, p, m);
      } else {
        a' := RequestOk(a, i, p, m);
      }
    case _ =>
      a' := a;
      ActsNone(a, i);
      QuietStepOk(c, a, step);
  }

  lemma QuietStepOk(c: Cluster, a: P.State, step: Step)
    requires ClusterOk(c, a) && Enabled(c, step) && Defined(c, step)
    requires !step.ElectionTimeout? && !step.ClientCommand? && !step.Deliver? && !step.CrashIn?
    ensures NodeOk(a, Actor(step), ActorNext(c, step)) && AllOk(a, Sent(c, step))
  {
    var i := Actor(step);
    var p := c.peers[i];
    assert NodeOk(a, i, p);
    match step
    case SendAppend(_, q) => AppendRequestOk(a, i, p, q);
    case SendSnapshot(_, q) => SnapshotRequestOk(a, i, p);
    case ServiceSnapshot(_, index, data) => CompactOk(a, i, p, index, data);
    case ApplierRound(_) => ApplyOk(a, i, p);
    case Restart(_) => RestartOk(a, i, p);
  }

  lemma StepOk(c: Cluster, a: P.State, step: Step, c': Cluster) returns (a': P.State)
    requires ClusterOk(c, a) && Transition(c, step, c')
    ensures ClusterOk(c', a') && Moves(a, a', Actor(step)) && StepHistory(c, a, step, a')
  {
    a' := ActorOk(c, a, step);
    Assemble(c, a, a', Actor(step), ActorNext(c, step), Sent(c, step));
  }

  lemma InitialOk(c: Cluster) returns (a: P.State)
    requires Initial(c)
    ensures ClusterOk(c, a) && a.reigns.Keys == {0}
  {
    hide P.PeersOk, P.ReignsOk, P.RecordsOk, P.KeptOk, P.SafeOk;
    var n := |c.peers|;
    a := P.State(n, seq(n, i => 0), seq(n, i => [DUMMY]), map[0 := P.Reign(0, Peers(n), [], [DUMMY])],
                 map q: nat, t: nat | q in Peers(n) && t == 0 :: (q, t) := 1, map[], map[]);
    InitialInv(a);
    forall i: nat | i < n ensures NodeOk(a, i, c.peers[i]) {
      InitialNodeOk(a, i, c.peers[i]);
    }
  }

  lemma InitialNodeOk(a: P.State, i: nat, p: Peer)
    requires P.Initial(a) && i < a.n && p == Make(i, a.n, Disk(None, None))
    ensures NodeOk(a, i, p)
  {
    assert P.Taken(a, 0, 1, Peers(a.n));
    assert P.Committed(a, 0, 1);
    assert P.CommittedTo(a, a.log[i], 1, 0);
  }

  lemma InitialInv(a: P.State)
    requires P.Initial(a)
    ensures P.Inv(a)
  {
    forall q: nat | q < a.n ensures P.PeerOk(a, q) {
      assert P.EntryOk(a, [DUMMY], 0, 0);
    }
    assert P.ReignOk(a, 0) by {
      assert P.EntryOk(a, [DUMMY], 0, 0);
    }
    forall q: nat, t, i: nat | q < a.n && t in a.reigns && t <= a.term[q] && i <= P.Ack(a, q, t)
      ensures P.Kept(a, t, i, a.log[q], a.term[q])
    {
      assert Agree(a.reigns[0].log, a.log[q], i);
    }
  }

  // ---------- runs ----------

  /** The protocol states behind the states of a run. */
  ghost predicate Explains(cs: seq<Cluster>, steps: seq<Step>, hs: seq<P.State>) {
    && |hs| == |cs| == |steps| + 1
    && (forall k: nat {:trigger ClusterOk(cs[k], hs[k])} | k < |cs| :: ClusterOk(cs[k], hs[k]))
    && (forall k: nat {:trigger Moves(hs[k], hs[k + 1], Actor(steps[k]))} | k < |steps| ::
          Moves(hs[k], hs[k + 1], Actor(steps[k])))
  }

  lemma {:induction false} RunExplained(cs: seq<Cluster>, steps: seq<Step>) returns (hs: seq<P.State>)
    requires Run(cs, steps)
    ensures Explains(cs, steps, hs)
    decreases |steps|
  {
    if steps == [] {
      var a := InitialOk(cs[0]);
      hs := [a];
    } else {
      var n := |steps| - 1;
      forall k: nat | k < n ensures Transition(cs[..n + 1][k], steps[..n][k], cs[..n + 1][k + 1]) {
        assert Transition(cs[k], steps[k], cs[k + 1]);
      }
      var hs' := RunExplained(cs[..n + 1], steps[..n]);
      assert ClusterOk(cs[..n + 1][n], hs'[n]);
      assert Transition(cs[n], steps[n], cs[n + 1]);
      var a := StepOk(cs[n], hs'[n], steps[n], cs[n + 1]);
      hs := hs' + [a];
      ExplainsMore(cs, steps, hs', a);
    }
  }

  lemma ExplainsMore(cs: seq<Cluster>, steps: seq<Step>, hs: seq<P.State>, a: P.State)
    requires |steps| > 0 && |cs| == |steps| + 1
    requires Explains(cs[..|steps|], steps[..|steps| - 1], hs)
    requires ClusterOk(cs[|steps|], a) && Moves(hs[|steps| - 1], a, Actor(steps[|steps| - 1]))
    ensures Explains(cs, steps, hs + [a])
  {
    var n := |steps| - 1;
    var hs' := hs + [a];
    forall k: nat | k < |cs| ensures ClusterOk(cs[k], hs'[k]) {
      if k < |cs| - 1 {
        assert ClusterOk(cs[..n + 1][k], hs[k]);
      }
    }
    forall k: nat | k < |steps| ensures Moves(hs'[k], hs'[k + 1], Actor(steps[k])) {
      if k < n {
        assert Moves(hs[k], hs[k + 1], Actor(steps[..n][k]));
      }
    }
  }

  lemma {:induction false} HistoryGrows(cs: seq<Cluster>, steps: seq<Step>, hs: seq<P.State>, j: nat, k: nat)
    requires Explains(cs, steps, hs) && j <= k < |hs|
    ensures Grows(hs[j], hs[k])
    decreases k - j
  {
    assert ClusterOk(cs[j], hs[j]);
    if j < k {
      assert Moves(hs[j], hs[j + 1], Actor(steps[j]));
      HistoryGrows(cs, steps, hs, j + 1, k);
      GrowsTransitive(hs[j], hs[j + 1], hs[k]);
    }
  }

  /** What is committed in a peer's log at one point of a run is in its log ever after. */
  lemma {:induction false} HistoryKeepsCommitted(
    cs: seq<Cluster>, steps: seq<Step>, hs: seq<P.State>, j: nat, k: nat, q: nat, m: nat)
    requires Explains(cs, steps, hs) && j <= k < |hs| && P.Shape(hs[j]) && P.Shape(hs[k])
    requires q < hs[j].n == hs[k].n && P.CommittedTo(hs[j], hs[j].log[q], m, hs[j].term[q])
    ensures Agree(hs[j].log[q], hs[k].log[q], m)
    decreases k - j
  {
    if j < k {
      assert Moves(hs[j], hs[j + 1], Actor(steps[j]));
      if q == Actor(steps[j]) {
        assert LogKept(hs[j], hs[j + 1], q);
      } else {
        assert Untouched(hs[j], hs[j + 1], q);
      }
      assert hs[j + 1].term[q] >= hs[j].term[q];
      CommittedToGrows(hs[j], hs[j + 1], hs[j].log[q], m, hs[j].term[q], hs[j + 1].term[q]);
      CommittedLike(hs[j + 1], hs[j].log[q], hs[j + 1].log[q], m, hs[j + 1].term[q]);
      HistoryKeepsCommitted(cs, steps, hs, j + 1, k, q, m);
    }
  }

  // ---------- the theorems ----------

  /** Election safety: whoever leads a term at any two points of a run is the same peer. */
  lemma ElectionSafety(cs: seq<Cluster>, steps: seq<Step>, j: nat, k: nat, p: nat, q: nat)
    requires Run(cs, steps) && j <= k < |cs| && p < |cs[j].peers| && q < |cs[k].peers|
    requires cs[j].peers[p].role == Leader && cs[k].peers[q].role == Leader
    requires cs[j].peers[p].currentTerm == cs[k].peers[q].currentTerm
    ensures p == q
  {
    var hs := RunExplained(cs, steps);
    HistoryGrows(cs, steps, hs, j, k);
    assert ClusterOk(cs[j], hs[j]) && ClusterOk(cs[k], hs[k]);
    assert NodeOk(hs[j], p, cs[j].peers[p]) && NodeOk(hs[k], q, cs[k].peers[q]);
    assert ReignGrows(hs[j], hs[k], cs[j].peers[p].currentTerm);
  }

  /** One vote a term: no peer ever promises its vote to two candidates of one term, restarts included. */
  lemma OneVotePerTerm(cs: seq<Cluster>, steps: seq<Step>, k: nat, m1: Msg, m2: Msg)
    requires Run(cs, steps) && k < |cs| && m1 in cs[k].net && m2 in cs[k].net && m1.VoteRep? && m2.VoteRep?
    requires m1.from == m2.from && m1.vote.term == m2.vote.term
    requires m1.voteReply.voteGranted && m2.voteReply.voteGranted
    ensures m1.vote.candidateId == m2.vote.candidateId
  {
    var hs := RunExplained(cs, steps);
    assert ClusterOk(cs[k], hs[k]);
    assert MsgOk(hs[k], m1) && MsgOk(hs[k], m2);
  }

  /** A reply in which q grants p its vote was sent. */
  ghost predicate Granted(c: Cluster, q: nat, p: nat, term: nat) {
    exists m {:trigger m in c.net} ::
      && m in c.net && m.VoteRep? && m.voteReply.voteGranted
      && m.from == q && m.vote.candidateId == p && m.vote.term == term
  }

  /** The votes peer p counts are its own and those of other peers that granted it theirs, each once. */
  ghost predicate Counts(c: Cluster, p: nat, g: set<nat>)
    requires p < |c.peers|
  {
    var x := c.peers[p];
    && |g| == x.votes && p in g && g !! x.waiting
    && forall q {:trigger q in g} | q in g :: q < |c.peers| && (q == p || Granted(c, q, p, x.currentTerm))
  }

  ghost predicate CountOk(c: Cluster, p: nat)
    requires p < |c.peers|
  {
    var x := c.peers[p];
    && x.me == p && x.n == |c.peers|
    && (forall q {:trigger q in x.waiting} | q in x.waiting :: q < |c.peers|)
    && (x.role != Follower ==> exists g: set<nat> {:trigger Counts(c, p, g)} :: Counts(c, p, g))
    && (x.role == Leader ==> x.votes > x.n / 2)
  }

  predicate SameCount(x: Peer, y: Peer) {
    && y.me == x.me && y.n == x.n
    && (|| (y.role == Follower && y.waiting == x.waiting)
        || (y.role == x.role && y.currentTerm == x.currentTerm && y.votes == x.votes && y.waiting == x.waiting))
  }

  /** Only an election and a reply to it touch the count. */
  lemma CountFrame(c: Cluster, step: Step)
    requires Actor(step) < |c.peers| && Defined(c, step)
    requires !step.ElectionTimeout? && !(step.Deliver? && step.m.VoteRep?) && !step.Restart? && !step.CrashIn?
    ensures SameCount(c.peers[Actor(step)], ActorNext(c, step))
  {
    var x := c.peers[Actor(step)];
    if step.Deliver? {
      match step.m
      case VoteReq(_, a) => assert SameCount(x, RequestVote(x, a).0);
      case AppendReq(_, a) =>
        if a.term >= x.currentTerm {
          assert SameCount(x, HeedLeader(x, a.term));
        }
      case AppendRep(q, a, r) => assert SameCount(x, AppendReply(x, q, a, r));
      case SnapReq(_, a) => assert SameCount(x, InstallSnapshot(x, a).0);
      case SnapRep(q, a, r) => assert SameCount(x, SnapshotReply(x, q, a, r));
    }
  }

  lemma GrantedStays(c: Cluster, c': Cluster, p: nat, g: set<nat>)
    requires p < |c.peers| == |c'.peers| && c.net <= c'.net && Counts(c, p, g)
    requires c'.peers[p].currentTerm == c.peers[p].currentTerm && c'.peers[p].votes == c.peers[p].votes
    requires c'.peers[p].waiting == c.peers[p].waiting
    ensures Counts(c', p, g)
  {
    forall q | q in g && q != p ensures Granted(c', q, p, c'.peers[p].currentTerm) {
      assert Granted(c, q, p, c.peers[p].currentTerm);
      var m :| m in c.net && m.VoteRep? && m.voteReply.voteGranted
               && m.from == q && m.vote.candidateId == p && m.vote.term == c.peers[p].currentTerm;
      assert m in c'.net;
    }
  }

  /** A reply handled by the candidate it answers: a grant adds the peer it came from, which was awaited. */
  lemma ReplyCounted(c: Cluster, m: Msg, c': Cluster)
    requires Transition(c, Deliver(m), c') && m.VoteRep? && m.vote.candidateId < |c.peers| && CountOk(c, m.vote.candidateId)
    ensures CountOk(c', m.vote.candidateId)
  {
    var p := m.vote.candidateId;
    var x, y := c.peers[p], c'.peers[p];
    if x.role != Follower {
      var g: set<nat> :| Counts(c, p, g);
      var z := c'.(peers := c.peers);
      GrantedStays(c, z, p, g);
      if y.role != Follower {
        if y.votes == x.votes {
          assert Counts(c', p, g);
        } else {
          assert Granted(c', m.from, p, y.currentTerm);
          assert |g + {m.from}| == |g| + 1;
          forall q | q in g + {m.from} ensures q < |c'.peers| && (q == p || Granted(c', q, p, y.currentTerm)) {
            assert q in g && q != p ==> Granted(z, q, p, x.currentTerm) && Granted(c', q, p, x.currentTerm);
          }
          assert Counts(c', p, g + {m.from});
        }
      }
    }
  }

  lemma StepCounted(c: Cluster, step: Step, c': Cluster, p: nat)
    requires Transition(c, step, c') && p < |c.peers| && CountOk(c, p)
    ensures CountOk(c', p)
  {
    var x, y := c.peers[p], c'.peers[p];
    if Actor(step) == p && step.ElectionTimeout? {
      assert Counts(c', p, {p});
    } else if Actor(step) == p && step.Deliver? && step.m.VoteRep? {
      ReplyCounted(c, step.m, c');
    } else {
      if Actor(step) == p && !step.Restart? && !step.CrashIn? {
        CountFrame(c, step);
      }
      if y.role != Follower {
        var g: set<nat> :| Counts(c, p, g);
        GrantedStays(c, c', p, g);
      }
    }
  }

  lemma {:induction false} RunCounted(cs: seq<Cluster>, steps: seq<Step>, k: nat, p: nat)
    requires Run(cs, steps) && k < |cs| && p < |cs[k].peers|
    ensures CountOk(cs[k], p)
  {
    if k > 0 {
      assert Transition(cs[k - 1], steps[k - 1], cs[k]);
      RunCounted(cs, steps, k - 1, p);
      StepCounted(cs[k - 1], steps[k - 1], cs[k], p);
    }
  }

  /** The counter of a candidate, and of a leader, is the number of distinct peers it counts, itself
      and those whose grants of its term it has handled; so a leader was elected by a majority. */
  lemma VotesAreCounted(cs: seq<Cluster>, steps: seq<Step>, k: nat, p: nat) returns (g: set<nat>)
    requires Run(cs, steps) && k < |cs| && p < |cs[k].peers| && cs[k].peers[p].role != Follower
    ensures Counts(cs[k], p, g)
    ensures cs[k].peers[p].role == Leader ==> Majority(g, |cs[k].peers|)
  {
    RunCounted(cs, steps, k, p);
    g :| Counts(cs[k], p, g);
  }

  /** A vote is kept: while a peer stays in a term its votedFor never goes back to -1 or to another
      candidate, restarts included. */
  lemma VoteIsKept(cs: seq<Cluster>, steps: seq<Step>, j: nat, k: nat, p: nat)
    requires Run(cs, steps) && j <= k < |cs| && p < |cs[j].peers| && p < |cs[k].peers|
    requires cs[j].peers[p].votedFor != -1 && cs[j].peers[p].currentTerm == cs[k].peers[p].currentTerm
    ensures cs[k].peers[p].votedFor == cs[j].peers[p].votedFor
  {
    var hs := RunExplained(cs, steps);
    HistoryGrows(cs, steps, hs, j, k);
    assert ClusterOk(cs[j], hs[j]) && ClusterOk(cs[k], hs[k]);
    assert NodeOk(hs[j], p, cs[j].peers[p]) && NodeOk(hs[k], p, cs[k].peers[p]);
    assert (p, cs[j].peers[p].currentTerm) in hs[k].votes;
  }

  /** Every AppendEntries message ever sent reaches as far as the commit index it announces. So the
      follower's rule, which caps the commit index by the length of its whole log, is the rule that
      caps it by the last new entry, and commits nothing past what was just matched. */
  lemma FollowerCommitRule(cs: seq<Cluster>, steps: seq<Step>, k: nat, m: Msg)
    requires Run(cs, steps) && k < |cs| && m in cs[k].net && m.AppendReq?
    ensures m.to < |cs[k].peers| && cs[k].peers[m.to].Valid()
    ensures m.append.leaderCommit <= m.append.prevLogIndex + |m.append.entries|
    ensures var x, a := cs[k].peers[m.to], m.append;
            var y := AppendEntries(x, a);
            y.0.commitIndex ==
              if y.1.success && a.leaderCommit > x.commitIndex
              then (if a.leaderCommit < a.prevLogIndex + |a.entries| then a.leaderCommit else a.prevLogIndex + |a.entries|)
              else x.commitIndex
  {
    var hs := RunExplained(cs, steps);
    assert ClusterOk(cs[k], hs[k]);
    assert MsgOk(hs[k], m) && NodeOk(hs[k], m.to, cs[k].peers[m.to]);
    var x, a := cs[k].peers[m.to], m.append;
    NodeValid(hs[k], m.to, x);
    if a.term >= x.currentTerm {
      var x1 := HeedLeader(x, a.term);
      if x1.InLog(a.prevLogIndex) {
        TakenReaches(x1, a);
      }
    }
  }

  /** After taking a message's entries the log goes at least as far as the message. */
  lemma {:induction false} TakenReaches(p: Peer, a: AppendEntriesArgs)
    requires p.Valid() && p.InLog(a.prevLogIndex)
    ensures |TakeEntries(p, a).log| > 0 && TakeEntries(p, a).GetLastLogIndex() >= a.prevLogIndex + |a.entries|
    ensures TakeEntries(p, a).commitIndex == p.commitIndex
  {
    TakeUnfolds(p, a, Matched(p.log, a.prevLogIndex + 1 - p.lastIncludedIndex, a.entries, 0));
  }

  /** Log matching, on the parts of two logs that are not compacted away. */
  lemma LogMatching(cs: seq<Cluster>, steps: seq<Step>, k: nat, p: nat, q: nat, i: nat, j: nat)
    requires Run(cs, steps) && k < |cs| && p < |cs[k].peers| && q < |cs[k].peers|
    requires |cs[k].peers[p].log| > 0 && |cs[k].peers[q].log| > 0
    requires cs[k].peers[p].InLog(i) && cs[k].peers[q].InLog(i)
    requires cs[k].peers[p].GetLogTerm(i) == cs[k].peers[q].GetLogTerm(i)
    requires cs[k].peers[p].lastIncludedIndex < j <= i && cs[k].peers[q].lastIncludedIndex < j
    ensures cs[k].peers[p].GetLogEntry(j) == cs[k].peers[q].GetLogEntry(j)
    ensures cs[k].peers[p].GetLogEntry(j).index == j
  {
    hide Moves, P.ReignsOk, P.RecordsOk, P.KeptOk, P.SafeOk, Transition, Initial, MsgOk;
    var hs := RunExplained(cs, steps);
    var a := hs[k];
    var x, y := cs[k].peers[p], cs[k].peers[q];
    assert ClusterOk(cs[k], a);
    assert NodeOk(a, p, x) && NodeOk(a, q, y);
    RefinesTerm(x, a.log[p], i);
    RefinesTerm(y, a.log[q], i);
    assert P.PeerOk(a, p) && P.PeerOk(a, q);
    P.LogMatching(a, a.log[p], a.term[p], a.log[q], a.term[q], i);
    assert P.EntryOk(a, a.log[p], a.term[p], j);
    assert x.log[j - x.lastIncludedIndex] == a.log[p][j];
    assert y.log[j - y.lastIncludedIndex] == a.log[q][j];
  }

  /** The entry peer x holds at index j counts as committed for it. */
  predicate ShowsCommitted(x: Peer, j: nat) {
    |x.log| > 0 && x.InLog(j) && x.lastIncludedIndex < j <= x.commitIndex
  }

  /** An entry shown committed at one point of a run stands in the full log then, and that prefix
      is committed at every later point. */
  lemma ShownIsCommitted(cs: seq<Cluster>, steps: seq<Step>, hs: seq<P.State>, j: nat, k: nat, p: nat, i: nat)
    requires Explains(cs, steps, hs) && j <= k < |cs| && p < |cs[j].peers|
    requires ShowsCommitted(cs[j].peers[p], i)
    ensures p < |hs[j].log| && i < |hs[j].log[p]| && hs[j].log[p][i] == cs[j].peers[p].GetLogEntry(i)
    ensures P.CommittedTo(hs[k], hs[j].log[p], i + 1, cs[j].peers[p].currentTerm)
  {
    var a := hs[j];
    var x := cs[j].peers[p];
    assert ClusterOk(cs[j], a) && NodeOk(a, p, x);
    HistoryGrows(cs, steps, hs, j, k);
    CommittedToGrows(a, hs[k], a.log[p], x.commitIndex + 1, x.currentTerm, x.currentTerm);
    CommittedLess(hs[k], a.log[p], x.commitIndex + 1, i + 1, x.currentTerm);
    assert x.log[i - x.lastIncludedIndex] == a.log[p][i];
  }

  /** A peer whose full log agrees with L up to i shows L's entry there, unless compacted. */
  lemma ShowsEntry(a: P.State, q: nat, y: Peer, L: Log, i: nat)
    requires NodeOk(a, q, y) && Agree(L, a.log[q], i + 1)
    ensures |y.log| > 0 && i <= y.GetLastLogIndex()
    ensures y.lastIncludedIndex < i ==> y.GetLogEntry(i) == L[i]
  {
    if y.lastIncludedIndex < i {
      assert y.log[i - y.lastIncludedIndex] == a.log[q][i];
    }
  }

  /** State machine safety: any two peers, at any two points of any run, agree on every entry that
      both have committed and not compacted away. */
  lemma StateMachineSafety(cs: seq<Cluster>, steps: seq<Step>, j: nat, k: nat, p: nat, q: nat, i: nat)
    requires Run(cs, steps) && j <= k < |cs| && p < |cs[j].peers| && q < |cs[k].peers|
    requires ShowsCommitted(cs[j].peers[p], i) && ShowsCommitted(cs[k].peers[q], i)
    ensures cs[j].peers[p].GetLogEntry(i) == cs[k].peers[q].GetLogEntry(i)
  {
    var hs := RunExplained(cs, steps);
    ShownIsCommitted(cs, steps, hs, j, k, p, i);
    ShownIsCommitted(cs, steps, hs, k, k, q, i);
    assert ClusterOk(cs[k], hs[k]);
    P.CommittedAgree(hs[k], hs[j].log[p], i + 1, cs[j].peers[p].currentTerm,
                     hs[k].log[q], i + 1, cs[k].peers[q].currentTerm);
  }

  /** No later truncation, InstallSnapshot or restart takes a committed entry away from a peer:
      it is still there, unchanged, or behind the snapshot base. */
  lemma CommittedEntryStays(cs: seq<Cluster>, steps: seq<Step>, j: nat, k: nat, p: nat, i: nat)
    requires Run(cs, steps) && j <= k < |cs| && p < |cs[j].peers| && p < |cs[k].peers|
    requires ShowsCommitted(cs[j].peers[p], i)
    ensures |cs[k].peers[p].log| > 0 && i <= cs[k].peers[p].GetLastLogIndex()
    ensures cs[k].peers[p].lastIncludedIndex < i ==>
              cs[k].peers[p].GetLogEntry(i) == cs[j].peers[p].GetLogEntry(i)
  {
    var hs := RunExplained(cs, steps);
    ShownIsCommitted(cs, steps, hs, j, j, p, i);
    HistoryGrows(cs, steps, hs, j, k);
    assert ClusterOk(cs[j], hs[j]) && NodeOk(hs[j], p, cs[j].peers[p]);
    assert ClusterOk(cs[k], hs[k]) && NodeOk(hs[k], p, cs[k].peers[p]);
    HistoryKeepsCommitted(cs, steps, hs, j, k, p, i + 1);
    ShowsEntry(hs[k], p, cs[k].peers[p], hs[j].log[p], i);
  }

  /** A later term's leader held from its start what some peer comes to show committed afterwards. */
  lemma HeldFromStart(cs: seq<Cluster>, steps: seq<Step>, hs: seq<P.State>, j: nat, k: nat, p: nat, q: nat, i: nat)
    requires Explains(cs, steps, hs) && k <= j < |cs| && p < |cs[j].peers| && q < |cs[k].peers|
    requires ShowsCommitted(cs[j].peers[p], i)
    requires cs[k].peers[q].role == Leader && cs[j].peers[p].currentTerm < cs[k].peers[q].currentTerm
    ensures p < |hs[j].log| && q < |hs[k].log| && Agree(hs[j].log[p], hs[k].log[q], i + 1)
  {
    var t := cs[k].peers[q].currentTerm;
    ShownIsCommitted(cs, steps, hs, j, j, p, i);
    HistoryGrows(cs, steps, hs, k, j);
    assert ClusterOk(cs[j], hs[j]);
    assert ClusterOk(cs[k], hs[k]) && NodeOk(hs[k], q, cs[k].peers[q]);
    assert ReignGrows(hs[k], hs[j], t) && P.ReignOk(hs[k], t);
    P.LaterLeaderStarts(hs[j], hs[j].log[p], i + 1, cs[j].peers[p].currentTerm, t);
  }

  /** Leader completeness: an entry some peer shows committed in term t is in the log, or behind the
      snapshot base, of every leader of a later term at any moment, and of t's own leader from then on. */
  lemma LeaderCompleteness(cs: seq<Cluster>, steps: seq<Step>, j: nat, k: nat, p: nat, q: nat, i: nat)
    requires Run(cs, steps) && j < |cs| && k < |cs| && p < |cs[j].peers| && q < |cs[k].peers|
    requires ShowsCommitted(cs[j].peers[p], i) && cs[k].peers[q].role == Leader
    requires var tp, tq := cs[j].peers[p].currentTerm, cs[k].peers[q].currentTerm;
             tp < tq || (tp == tq && j <= k)
    ensures |cs[k].peers[q].log| > 0 && i <= cs[k].peers[q].GetLastLogIndex()
    ensures cs[k].peers[q].lastIncludedIndex < i ==>
              cs[k].peers[q].GetLogEntry(i) == cs[j].peers[p].GetLogEntry(i)
  {
    var hs := RunExplained(cs, steps);
    var y := cs[k].peers[q];
    assert ClusterOk(cs[k], hs[k]) && NodeOk(hs[k], q, y);
    if j <= k {
      ShownIsCommitted(cs, steps, hs, j, k, p, i);
      P.LeaderHoldsCommitted(hs[k], hs[j].log[p], i + 1, cs[j].peers[p].currentTerm, y.currentTerm);
    } else {
      ShownIsCommitted(cs, steps, hs, j, j, p, i);
      HeldFromStart(cs, steps, hs, j, k, p, q, i);
    }
    ShowsEntry(hs[k], q, y, hs[j].log[p], i);
  }

  /** Leader append-only: between any two moments at which a peer leads one term its log has only
      grown at the end, apart from what went behind its base. */
  lemma LeaderAppendOnly(cs: seq<Cluster>, steps: seq<Step>, j: nat, k: nat, p: nat, i: nat)
    requires Run(cs, steps) && j <= k < |cs| && p < |cs[j].peers| && p < |cs[k].peers|
    requires cs[j].peers[p].role == Leader && cs[k].peers[p].role == Leader
    requires cs[j].peers[p].currentTerm == cs[k].peers[p].currentTerm
    requires |cs[j].peers[p].log| > 0 && cs[j].peers[p].lastIncludedIndex < i <= cs[j].peers[p].GetLastLogIndex()
    ensures |cs[k].peers[p].log| > 0 && i <= cs[k].peers[p].GetLastLogIndex()
    ensures cs[k].peers[p].lastIncludedIndex < i ==>
              cs[k].peers[p].GetLogEntry(i) == cs[j].peers[p].GetLogEntry(i)
  {
    var hs := RunExplained(cs, steps);
    var x, y := cs[j].peers[p], cs[k].peers[p];
    HistoryGrows(cs, steps, hs, j, k);
    assert ClusterOk(cs[j], hs[j]) && NodeOk(hs[j], p, x);
    assert ClusterOk(cs[k], hs[k]) && NodeOk(hs[k], p, y);
    assert ReignGrows(hs[j], hs[k], x.currentTerm);
    assert x.log[i - x.lastIncludedIndex] == hs[j].log[p][i];
    ShowsEntry(hs[k], p, y, hs[j].log[p], i);
  }

  /** Terms never fall along a log, and none is past its peer's current term. */
  lemma TermsInOrder(cs: seq<Cluster>, steps: seq<Step>, k: nat, p: nat, i: nat, j: nat)
    requires Run(cs, steps) && k < |cs| && p < |cs[k].peers| && |cs[k].peers[p].log| > 0
    requires i <= j && cs[k].peers[p].InLog(i) && cs[k].peers[p].InLog(j)
    ensures cs[k].peers[p].GetLogTerm(i) <= cs[k].peers[p].GetLogTerm(j) <= cs[k].peers[p].currentTerm
  {
    var hs := RunExplained(cs, steps);
    var x := cs[k].peers[p];
    assert ClusterOk(cs[k], hs[k]) && NodeOk(hs[k], p, x);
    var G := hs[k].log[p];
    RefinesTerm(x, G, i);
    RefinesTerm(x, G, j);
    assert P.PeerOk(hs[k], p);
    assert P.InOrder(G, i, j) && P.EntryOk(hs[k], G, x.currentTerm, j);
  }

  /** Every step the environment can cause is free of out-of-range accesses, in every reachable state. */
  lemma RunsNeverIndexOutOfRange(cs: seq<Cluster>, steps: seq<Step>, k: nat, step: Step)
    requires Run(cs, steps) && k < |cs| && Enabled(cs[k], step)
    ensures Defined(cs[k], step)
  {
    var hs := RunExplained(cs, steps);
    assert ClusterOk(cs[k], hs[k]);
    IndexSafety(cs[k], hs[k], step);
  }

  /** The index order on every peer, and a leader's view of its followers, in every reachable state. */
  lemma IndexOrder(cs: seq<Cluster>, steps: seq<Step>, k: nat, p: nat)
    requires Run(cs, steps) && k < |cs| && p < |cs[k].peers|
    ensures var x := cs[k].peers[p];
            && x.Valid()
            && x.lastIncludedIndex <= x.lastApplied <= x.commitIndex <= x.GetLastLogIndex()
            && (x.role == Leader ==> forall q: nat | q < x.n ::
                  1 <= x.nextIndex[q] <= x.GetLastLogIndex() + 1 && x.matchIndex[q] <= x.GetLastLogIndex())
  {
    var hs := RunExplained(cs, steps);
    var a := hs[k];
    var x := cs[k].peers[p];
    assert ClusterOk(cs[k], a) && NodeOk(a, p, x);
    RefinesLast(x, a.log[p]);
    if x.role == Leader {
      forall q: nat | q < x.n
        ensures 1 <= x.nextIndex[q] <= x.GetLastLogIndex() + 1 && x.matchIndex[q] <= x.GetLastLogIndex()
      {
        assert FollowerKnown(a, x, a.log[p], q);
        AckBound(a, q, x.currentTerm);
      }
    }
  }

  /** The durable image is the memory: in every reachable state a crash and reload give back the
      term, the vote and the log, and a compacted log has its snapshot on disk. */
  lemma DurableImage(cs: seq<Cluster>, steps: seq<Step>, k: nat, p: nat)
    requires Run(cs, steps) && k < |cs| && p < |cs[k].peers|
    ensures var x := cs[k].peers[p];
            && Make(x.me, x.n, x.disk).SerializeState() == x.SerializeState()
            && (x.lastIncludedIndex > 0 ==> x.disk.snapshot.Some?)
  {
    var hs := RunExplained(cs, steps);
    assert ClusterOk(cs[k], hs[k]);
    assert NodeOk(hs[k], p, cs[k].peers[p]);
  }

  /** A reboot never changes the base: whatever save a crash follows, Make finds the same one. */
  lemma RebootBase(a: P.State, p: nat, x: Peer, c: Cluster, step: Step)
    requires NodeOk(a, p, x) && p == Actor(step) < |c.peers| && x == c.peers[p] && Defined(c, step)
    requires step.Restart? || step.CrashIn?
    ensures ActorNext(c, step).lastIncludedIndex == x.lastIncludedIndex
    ensures ActorNext(c, step).disk.snapshot == x.disk.snapshot
    ensures var x' := ActorNext(c, step); x' == Make(x'.me, x'.n, x'.disk)
  {
    if step.CrashIn? && step.m.AppendReq? && step.m.append.term >= x.currentTerm {
      var y := AppendSaved(x, step.m.append, step.written);
      assert y.disk.state.Some? ==> y.disk.state.value.lastIncludedIndex == x.lastIncludedIndex;
    }
  }

  /** A crash at any point, also between two saves of one handler, takes back nothing that others may
      rely on: the term does not fall, the vote of a term stays, and so do the snapshot and every
      entry shown committed. */
  lemma CrashLosesNothing(cs: seq<Cluster>, steps: seq<Step>, k: nat, i: nat)
    requires Run(cs, steps) && k < |steps| && (steps[k].Restart? || steps[k].CrashIn?)
    ensures Actor(steps[k]) < |cs[k].peers| && Actor(steps[k]) < |cs[k + 1].peers|
    ensures var x, y := cs[k].peers[Actor(steps[k])], cs[k + 1].peers[Actor(steps[k])];
            && x.currentTerm <= y.currentTerm
            && (x.votedFor != -1 && x.currentTerm == y.currentTerm ==> y.votedFor == x.votedFor)
            && x.lastIncludedIndex == y.lastIncludedIndex && x.disk.snapshot == y.disk.snapshot
            && (ShowsCommitted(x, i) ==> |y.log| > 0 && y.InLog(i) && y.GetLogEntry(i) == x.GetLogEntry(i))
  {
    hide Make, Interrupted;
    var p := Actor(steps[k]);
    var hs := RunExplained(cs, steps);
    assert Transition(cs[k], steps[k], cs[k + 1]);
    assert ClusterOk(cs[k], hs[k]) && ClusterOk(cs[k + 1], hs[k + 1]);
    assert NodeOk(hs[k], p, cs[k].peers[p]) && NodeOk(hs[k + 1], p, cs[k + 1].peers[p]);
    HistoryGrows(cs, steps, hs, k, k + 1);
    RebootBase(hs[k], p, cs[k].peers[p], cs[k], steps[k]);
    if cs[k].peers[p].votedFor != -1 && cs[k].peers[p].currentTerm == cs[k + 1].peers[p].currentTerm {
      VoteIsKept(cs, steps, k, k + 1, p);
    }
    if ShowsCommitted(cs[k].peers[p], i) {
      CommittedEntryStays(cs, steps, k, k + 1, p, i);
    }
  }
}
