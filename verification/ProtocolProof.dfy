// Every step of the protocol keeps its invariant.
module ProtocolProof {
  import opened Core
  import opened RaftTypes
  import opened Protocol

  ghost predicate ReignGrows(s: State, s': State, t: nat)
    requires t in s.reigns
  {
    && t in s'.reigns
    && s'.reigns[t].leader == s.reigns[t].leader
    && s'.reigns[t].electors == s.reigns[t].electors
    && s'.reigns[t].start == s.reigns[t].start
    && Agree(s.reigns[t].log, s'.reigns[t].log, |s.reigns[t].log|)
  }

  /** History only grows. Acks of a term freeze when the peer leaves it. */
  ghost predicate Grows(s: State, s': State) {
    && Shape(s) && Shape(s')
    && s'.n == s.n
    && (forall q: nat {:trigger s'.term[q]} | q < s.n :: s.term[q] <= s'.term[q])
    && (forall t {:trigger ReignGrows(s, s', t)} | t in s.reigns :: ReignGrows(s, s', t))
    && (forall q, t {:trigger Ack(s', q, t)} :: Ack(s, q, t) <= Ack(s', q, t))
    && (forall q: nat, t {:trigger Ack(s', q, t)} | q < s.n && t < s.term[q] :: Ack(s, q, t) == Ack(s', q, t))
    && (forall k {:trigger k in s'.votes} | k in s.votes :: k in s'.votes && s'.votes[k] == s.votes[k])
    && (forall k {:trigger k in s'.cands} | k in s.cands :: k in s'.cands && s'.cands[k] == s.cands[k])
  }

  lemma GrowsTransitive(a: State, b: State, c: State)
    requires Grows(a, b) && Grows(b, c)
    ensures Grows(a, c)
  {
    forall q: nat | q < a.n ensures a.term[q] <= c.term[q] {
      assert a.term[q] <= b.term[q];
    }
    forall t | t in a.reigns ensures ReignGrows(a, c, t) {
      assert ReignGrows(a, b, t) && ReignGrows(b, c, t);
    }
    forall q, t ensures Ack(a, q, t) <= Ack(c, q, t) {
      assert Ack(a, q, t) <= Ack(b, q, t) <= Ack(c, q, t);
    }
    forall q: nat, t | q < a.n && t < a.term[q] ensures Ack(a, q, t) == Ack(c, q, t) {
      assert a.term[q] <= b.term[q];
      assert Ack(a, q, t) == Ack(b, q, t) == Ack(c, q, t);
    }
    forall k | k in a.votes ensures k in c.votes && c.votes[k] == a.votes[k] {
      assert k in b.votes;
    }
    forall k | k in a.cands ensures k in c.cands && c.cands[k] == a.cands[k] {
      assert k in b.cands;
    }
  }

  lemma WfLogGrows(s: State, s': State, L: Log, t: nat, t': nat)
    requires Grows(s, s') && WfLog(s, L, t) && t <= t'
    ensures WfLog(s', L, t')
  {
    forall i: nat | i < |L| ensures EntryOk(s', L, t', i) {
      assert EntryOk(s, L, t, i);
      assert ReignGrows(s, s', L[i].term);
    }
  }

  lemma KeptGrows(s: State, s': State, t: nat, i: nat, L: Log, b: nat, b': nat)
    requires Grows(s, s') && t in s.reigns && t in s'.reigns && i <= |s.reigns[t].log| && b <= b'
    requires Kept(s, t, i, L, b)
    ensures Kept(s', t, i, L, b')
  {
    assert ReignGrows(s, s', t);
    if !Agree(s.reigns[t].log, L, i) {
      var u :| t < u <= b && u in s.reigns && Dropped(s, t, i, u);
      assert ReignGrows(s, s', u);
      assert Dropped(s', t, i, u);
    }
  }

  lemma SafeGrows(s: State, s': State, t: nat, i: nat, u: nat)
    requires Inv(s) && Grows(s, s') && t in s.reigns && u in s.reigns && t in s'.reigns && u in s'.reigns
    requires i <= |s.reigns[t].log| && Safe(s, t, i, u)
    ensures Safe(s', t, i, u)
  {
    assert ReignGrows(s, s', t) && ReignGrows(s, s', u);
    if !Agree(s.reigns[t].log, s.reigns[u].start, i) {
      var w :| t < w <= u && w in s.reigns && Blocked(s, t, i, w);
      assert ReignGrows(s, s', w) && ReignOk(s, w);
      forall q | q in s'.reigns[w].electors ensures Ack(s', q, t) < i {
        assert q < s.n && w <= s.term[q];
        assert Ack(s', q, t) == Ack(s, q, t);
      }
      assert Blocked(s', t, i, w);
    }
  }

  lemma CommittedGrows(s: State, s': State, t: nat, i: nat)
    requires Grows(s, s') && Committed(s, t, i)
    ensures Committed(s', t, i)
  {
    assert ReignGrows(s, s', t);
    var Q: set<nat> :| Majority(Q, s.n) && Taken(s, t, i, Q);
    forall q | q in Q ensures Ack(s', q, t) >= i {
      assert Ack(s, q, t) >= i;
    }
    assert Taken(s', t, i, Q);
  }

  /** What is committed stays committed. */
  lemma CommittedToGrows(s: State, s': State, L: Log, m: nat, b: nat, b': nat)
    requires Grows(s, s') && CommittedTo(s, L, m, b) && b <= b'
    ensures CommittedTo(s', L, m, b')
  {
    var t: nat, i: nat :| t <= b && m <= i && Committed(s, t, i) && Agree(L, s.reigns[t].log, m);
    CommittedGrows(s, s', t, i);
    assert ReignGrows(s, s', t);
  }

  lemma ReignKept(s: State, s': State, t: nat)
    requires Inv(s) && Grows(s, s') && t in s.reigns && t in s'.reigns && s'.reigns[t] == s.reigns[t]
    ensures ReignOk(s', t)
  {
    assert ReignOk(s, t);
    var r := s.reigns[t];
    WfLogGrows(s, s', r.log, t, t);
    if t > 0 {
      forall q: nat | q in r.electors ensures VotedFor(s', q, t, r.leader) {
        assert VotedFor(s, q, t, r.leader);
      }
    }
  }

  lemma RecordsKept(s: State, s': State)
    requires Inv(s) && Grows(s, s')
    ensures forall c {:trigger CandOk(s', c)} | c in s.cands :: CandOk(s', c)
    ensures forall k {:trigger VoteOk(s', k)} | k in s.votes :: VoteOk(s', k)
    ensures forall k {:trigger AckOk(s', k)} | k in s.acks && k in s'.acks && s'.acks[k] == s.acks[k] :: AckOk(s', k)
  {
    forall c | c in s.cands ensures CandOk(s', c) {
      assert CandOk(s, c) && c in s'.cands;
      WfLogGrows(s, s', s.cands[c], c.1, c.1);
    }
    forall k | k in s.votes ensures VoteOk(s', k) {
      assert VoteOk(s, k) && k in s'.votes;
      WfLogGrows(s, s', s.votes[k].log, k.1, k.1);
      assert (s.votes[k].cand, k.1) in s'.cands;
    }
    forall k | k in s.acks && k in s'.acks && s'.acks[k] == s.acks[k] ensures AckOk(s', k) {
      assert AckOk(s, k);
      assert ReignGrows(s, s', k.1);
    }
  }

  lemma AckBound(s: State, q: nat, t: nat)
    requires Inv(s)
    ensures Ack(s, q, t) > 0 ==> q < s.n && t in s.reigns && t <= s.term[q] && Ack(s, q, t) <= |s.reigns[t].log|
  {
    if (q, t) in s.acks {
      assert AckOk(s, (q, t));
    }
  }

  /** A peer has no record of a term it has not reached. */
  lemma RecordsPast(s: State, p: nat, t: nat)
    requires Inv(s)
    ensures (p, t) in s.votes ==> p < s.n && t <= s.term[p]
    ensures (p, t) in s.cands ==> p < s.n && t <= s.term[p]
    ensures (p, t) in s.acks ==> p < s.n && t <= s.term[p]
  {
    assert (p, t) in s.acks ==> AckOk(s, (p, t));
    assert (p, t) in s.votes ==> VoteOk(s, (p, t));
    assert (p, t) in s.cands ==> CandOk(s, (p, t));
  }

  /** A step taken by peer q: what it must show about its own changes for the whole invariant to hold. */
  ghost predicate ActsAlone(s: State, s': State, q: nat) {
    && Grows(s, s')
    && q < s.n
    && (forall p: nat {:trigger s'.log[p]} | p < s.n && p != q :: s'.log[p] == s.log[p] && s'.term[p] == s.term[p])
    && (forall p, t {:trigger Ack(s', p, t)} | p != q || t != s'.term[q] :: Ack(s', p, t) == Ack(s, p, t))
    && (forall k {:trigger AckOk(s', k)} | k in s'.acks && k != (q, s'.term[q]) :: k in s.acks && s'.acks[k] == s.acks[k])
  }

  ghost predicate ActorKept(s': State, q: nat)
    requires Shape(s') && q < s'.n
  {
    forall t, i: nat {:trigger Kept(s', t, i, s'.log[q], s'.term[q])} |
      t in s'.reigns && t <= s'.term[q] && i <= Ack(s', q, t) ::
      Kept(s', t, i, s'.log[q], s'.term[q])
  }

  ghost predicate VoteKept(s': State, k: (nat, nat))
    requires k in s'.votes
  {
    forall t, i: nat {:trigger Kept(s', t, i, s'.votes[k].log, k.1)} |
      t in s'.reigns && t < k.1 && i <= Ack(s', k.0, t) ::
      Kept(s', t, i, s'.votes[k].log, k.1)
  }

  lemma StepKeeps(s: State, s': State, q: nat)
    requires Inv(s) && ActsAlone(s, s', q)
    requires PeerOk(s', q)
    requires 0 in s.reigns && 0 in s'.reigns && s'.reigns[0] == s.reigns[0]
    requires forall t {:trigger ReignOk(s', t)} | t in s'.reigns && !(t in s.reigns && s'.reigns[t] == s.reigns[t]) :: ReignOk(s', t)
    requires forall c {:trigger CandOk(s', c)} | c in s'.cands && c !in s.cands :: CandOk(s', c)
    requires forall k {:trigger VoteOk(s', k)} | k in s'.votes && k !in s.votes :: VoteOk(s', k)
    requires forall k {:trigger VoteKept(s', k)} | k in s'.votes && k !in s.votes :: VoteKept(s', k)
    requires (q, s'.term[q]) in s'.acks ==> AckOk(s', (q, s'.term[q]))
    requires ActorKept(s', q)
    requires forall t, u, i {:trigger Safe(s', t, i, u)} |
               t in s'.reigns && u in s'.reigns && t < u && |s'.reigns[t].start| < i <= |s'.reigns[t].log| &&
               !(t in s.reigns && u in s.reigns && i <= |s.reigns[t].log|) ::
               Safe(s', t, i, u)
    ensures Inv(s')
  {
    OthersKeep(s, s', q);
    forall t | t in s'.reigns ensures ReignOk(s', t) {
      if t in s.reigns && s'.reigns[t] == s.reigns[t] {
        ReignKept(s, s', t);
      }
    }
    RecordsKept(s, s');
    KeptKept(s, s', q);
    forall t, u, i | t in s'.reigns && u in s'.reigns && t < u && |s'.reigns[t].start| < i <= |s'.reigns[t].log|
      ensures Safe(s', t, i, u)
    {
      if t in s.reigns && u in s.reigns && i <= |s.reigns[t].log| {
        assert ReignGrows(s, s', t);
        assert Safe(s, t, i, u);
        SafeGrows(s, s', t, i, u);
      }
    }
  }

  lemma OthersKeep(s: State, s': State, q: nat)
    requires Inv(s) && ActsAlone(s, s', q) && PeerOk(s', q)
    ensures PeersOk(s')
  {
    forall p: nat | p < s'.n ensures PeerOk(s', p) {
      if p != q {
        assert PeerOk(s, p);
        WfLogGrows(s, s', s.log[p], s.term[p], s.term[p]);
        assert s'.log[p] == s.log[p];
      }
    }
  }

  lemma KeptKept(s: State, s': State, q: nat)
    requires Inv(s) && ActsAlone(s, s', q) && ActorKept(s', q)
    requires forall k {:trigger VoteKept(s', k)} | k in s'.votes && k !in s.votes :: VoteKept(s', k)
    ensures KeptOk(s')
  {
    forall p: nat, t, i: nat | p < s'.n && t in s'.reigns && t <= s'.term[p] && i <= Ack(s', p, t)
      ensures Kept(s', t, i, s'.log[p], s'.term[p])
    {
      if p != q && i > 0 {
        AckBound(s, p, t);
        assert s'.log[p] == s.log[p];
        assert Kept(s, t, i, s.log[p], s.term[p]);
        KeptGrows(s, s', t, i, s.log[p], s.term[p], s'.term[p]);
      }
    }
    forall k, t, i: nat | k in s'.votes && t in s'.reigns && t < k.1 && i <= Ack(s', k.0, t)
      ensures Kept(s', t, i, s'.votes[k].log, k.1)
    {
      if k in s.votes && i > 0 {
        OldVoteKept(s, s', k, t, i);
      } else if i > 0 {
        assert VoteKept(s', k);
      }
    }
  }

  lemma OldVoteKept(s: State, s': State, k: (nat, nat), t: nat, i: nat)
    requires Inv(s) && Grows(s, s') && k in s.votes && t in s'.reigns && t < k.1 && 0 < i <= Ack(s', k.0, t)
    ensures k in s'.votes && Kept(s', t, i, s'.votes[k].log, k.1)
  {
    assert VoteOk(s, k);
    assert Ack(s', k.0, t) == Ack(s, k.0, t);
    AckBound(s, k.0, t);
    assert Kept(s, t, i, s.votes[k].log, k.1);
    KeptGrows(s, s', t, i, s.votes[k].log, k.1, k.1);
  }

  // ---------- the six steps ----------

  lemma SameHistory(s: State, s': State)
    requires Shape(s) && Shape(s') && s'.reigns == s.reigns && s'.acks == s.acks
    ensures forall t {:trigger ReignGrows(s, s', t)} | t in s.reigns :: ReignGrows(s, s', t)
    ensures forall q, t :: Ack(s', q, t) == Ack(s, q, t)
  {
  }

  /** Nothing of a term a peer has not reached is acked, so widening the bound keeps what it holds. */
  lemma KeptThrough(s: State, s': State, q: nat)
    requires Inv(s) && Grows(s, s') && q < s.n && s'.reigns == s.reigns && s'.acks == s.acks && s'.log[q] == s.log[q]
    ensures ActorKept(s', q)
  {
    forall t, i: nat | t in s'.reigns && t <= s'.term[q] && i <= Ack(s', q, t)
      ensures Kept(s', t, i, s'.log[q], s'.term[q])
    {
      if i > 0 {
        AckBound(s, q, t);
        assert Kept(s, t, i, s.log[q], s.term[q]);
        KeptGrows(s, s', t, i, s.log[q], s.term[q], s'.term[q]);
      }
    }
  }

  lemma BumpKeeps(s: State, q: nat, t: nat)
    requires Inv(s) && q < s.n && s.term[q] <= t
    ensures Inv(Bump(s, q, t)) && Grows(s, Bump(s, q, t))
  {
    var s' := Bump(s, q, t);
    SameHistory(s, s');
    KeptThrough(s, s', q);
    assert PeerOk(s, q);
    WfLogGrows(s, s', s.log[q], s.term[q], t);
    forall k | k in s'.acks && k == (q, t) ensures AckOk(s', k) {
      assert AckOk(s, k);
    }
    StepKeeps(s, s', q);
  }

  lemma StandKeeps(s: State, p: nat, t: nat)
    requires Inv(s) && p < s.n && s.term[p] < t
    ensures Inv(Stand(s, p, t)) && Grows(s, Stand(s, p, t))
  {
    var s' := Stand(s, p, t);
    var L := s.log[p];
    RecordsPast(s, p, t);
    SameHistory(s, s');
    KeptThrough(s, s', p);
    assert PeerOk(s, p);
    WfLogGrows(s, s', L, s.term[p], t);
    assert EntryOk(s, L, s.term[p], |L| - 1);
    assert CandOk(s', (p, t)) && VoteOk(s', (p, t));
    forall r, i: nat | r in s'.reigns && r < t && i <= Ack(s', p, r)
      ensures Kept(s', r, i, L, t)
    {
      assert Kept(s', r, i, s'.log[p], s'.term[p]);
    }
    assert VoteKept(s', (p, t));
    StepKeeps(s, s', p);
  }

  lemma CastVoteKeeps(s: State, q: nat, c: nat)
    requires Inv(s) && q < s.n && (q, s.term[q]) !in s.votes
    requires (c, s.term[q]) in s.cands
    requires |s.cands[(c, s.term[q])]| > 0 && |s.log[q]| > 0 && UpToDate(s.cands[(c, s.term[q])], s.log[q])
    ensures Inv(CastVote(s, q, c)) && Grows(s, CastVote(s, q, c))
  {
    var s' := CastVote(s, q, c);
    var t := s.term[q];
    SameHistory(s, s');
    KeptThrough(s, s', q);
    assert PeerOk(s, q);
    WfLogGrows(s, s', s.log[q], t, t);
    assert VoteOk(s', (q, t));
    forall k | k in s'.acks && k == (q, t) ensures AckOk(s', k) {
      assert AckOk(s, k);
    }
    forall r, i: nat | r in s'.reigns && r < t && i <= Ack(s', q, r)
      ensures Kept(s', r, i, s.log[q], t)
    {
      assert Kept(s', r, i, s'.log[q], s'.term[q]);
    }
    assert VoteKept(s', (q, t));
    StepKeeps(s, s', q);
  }

  ghost predicate CanElect(s: State, p: nat, Q: set<nat>) {
    && Shape(s) && p < s.n
    && Majority(Q, s.n)
    && (p, s.term[p]) in s.cands
    && s.cands[(p, s.term[p])] == s.log[p]
    && (forall q: nat {:trigger VotedFor(s, q, s.term[p], p)} | q in Q :: VotedFor(s, q, s.term[p], p))
  }

  /** Election safety: a term whose leader is someone else cannot be won. */
  lemma OneLeader(s: State, p: nat, Q: set<nat>)
    requires Inv(s) && CanElect(s, p, Q) && s.term[p] in s.reigns
    ensures s.reigns[s.term[p]].leader == p
  {
    var t := s.term[p];
    assert ReignOk(s, t) && CandOk(s, (p, t));
    var q := MajoritiesMeet(Q, s.reigns[t].electors, s.n);
    assert VotedFor(s, q, t, p) && VotedFor(s, q, t, s.reigns[t].leader);
  }

  lemma ElectKeeps(s: State, p: nat, Q: set<nat>)
    requires Inv(s) && CanElect(s, p, Q) && s.term[p] !in s.reigns
    ensures Inv(Elect(s, p, Q)) && Grows(s, Elect(s, p, Q))
  {
    var s' := Elect(s, p, Q);
    var t := s.term[p];
    var L := s.log[p];
    AckBound(s, p, t);
    ElectGrows(s, p, Q);
    assert PeerOk(s, p) && CandOk(s, (p, t));
    WfLogGrows(s, s', L, t, t);
    ElectReignOk(s, p, Q);
    forall r, i: nat | r in s'.reigns && r <= s'.term[p] && i <= Ack(s', p, r)
      ensures Kept(s', r, i, s'.log[p], s'.term[p])
    {
      if r != t && i > 0 {
        AckBound(s, p, r);
        assert Kept(s, r, i, s.log[p], s.term[p]);
        KeptGrows(s, s', r, i, L, t, t);
      }
    }
    forall r, u, i | r in s'.reigns && u in s'.reigns && r < u && |s'.reigns[r].start| < i <= |s'.reigns[r].log|
      && !(r in s.reigns && u in s.reigns && i <= |s.reigns[r].log|)
      ensures Safe(s', r, i, u)
    {
      assert r == t || u == t;
      if u == t {
        ElectSafe(s, p, Q, r, i);
        ElectSafeGrows(s, p, Q, r, i);
      }
    }
    StepKeeps(s, s', p);
  }

  lemma ElectGrows(s: State, p: nat, Q: set<nat>)
    requires Inv(s) && CanElect(s, p, Q) && s.term[p] !in s.reigns
    ensures Grows(s, Elect(s, p, Q))
  {
    AckBound(s, p, s.term[p]);
  }

  lemma ElectReignOk(s: State, p: nat, Q: set<nat>)
    requires Inv(s) && CanElect(s, p, Q) && s.term[p] !in s.reigns
    requires Grows(s, Elect(s, p, Q)) && WfLog(Elect(s, p, Q), s.log[p], s.term[p])
    ensures ReignOk(Elect(s, p, Q), s.term[p])
  {
    var s' := Elect(s, p, Q);
    var t := s.term[p];
    var L := s.log[p];
    assert CandOk(s, (p, t));
    forall i: nat | i < |L| ensures L[i].term < t {
      assert InOrder(L, i, |L| - 1);
    }
    forall q: nat | q in Q ensures VotedFor(s', q, t, p) && t <= s'.term[q] {
      assert VotedFor(s, q, t, p);
      assert VoteOk(s, (q, t));
    }
  }

  /** The heart of the argument. Either no voter took i entries of term r before it voted, or
      one did; then its log passed the vote check, and the winner's last entry leads back either
      to term r's own leader or to a later one that is already known to be safe. */
  lemma ElectSafe(s: State, p: nat, Q: set<nat>, r: nat, i: nat)
    requires Inv(s) && CanElect(s, p, Q) && s.term[p] !in s.reigns
    requires r in s.reigns && r < s.term[p] && |s.reigns[r].start| < i <= |s.reigns[r].log|
    ensures || Agree(s.reigns[r].log, s.log[p], i)
            || (forall q | q in Q :: Ack(s, q, r) < i)
            || exists w {:trigger Blocked(s, r, i, w)} :: r < w < s.term[p] && w in s.reigns && Blocked(s, r, i, w)
  {
    var t := s.term[p];
    if q :| q in Q && Ack(s, q, r) >= i {
      assert VotedFor(s, q, t, p);
      var V := s.votes[(q, t)].log;
      assert VoteOk(s, (q, t));
      assert Kept(s, r, i, V, t);
      if !Agree(s.reigns[r].log, V, i) {
        var u :| r < u <= t && u in s.reigns && Dropped(s, r, i, u);
        assert Safe(s, r, i, u);
      } else {
        UpToDateWinner(s, p, r, i, V);
      }
    }
  }

  lemma UpToDateWinner(s: State, p: nat, r: nat, i: nat, V: Log)
    requires Inv(s) && p < s.n && r in s.reigns && |s.reigns[r].start| < i <= |s.reigns[r].log|
    requires (p, s.term[p]) in s.cands && s.cands[(p, s.term[p])] == s.log[p]
    requires WfLog(s, V, s.term[p]) && Agree(s.reigns[r].log, V, i)
    requires |s.log[p]| > 0 && UpToDate(s.log[p], V)
    ensures || Agree(s.reigns[r].log, s.log[p], i)
            || exists w {:trigger Blocked(s, r, i, w)} :: r < w < s.term[p] && w in s.reigns && Blocked(s, r, i, w)
  {
    var t := s.term[p];
    var C := s.log[p];
    assert CandOk(s, (p, t)) && ReignOk(s, r);
    assert s.reigns[r].log[i - 1].term == r;
    assert InOrder(V, i - 1, |V| - 1);
    assert EntryOk(s, C, t, |C| - 1);
    var w := LastTerm(C);
    assert ReignOk(s, w) && r <= w < t;
    if w == r {
      assert EntryOk(s, V, t, |V| - 1);
      assert |C| >= |V| >= i;
    } else {
      assert Safe(s, r, i, w);
      assert s.reigns[w].log[|C| - 1].term == w;
      assert |C| > |s.reigns[w].start|;
    }
  }

  lemma ElectSafeGrows(s: State, p: nat, Q: set<nat>, r: nat, i: nat)
    requires Inv(s) && CanElect(s, p, Q) && s.term[p] !in s.reigns
    requires r in s.reigns && r < s.term[p] && |s.reigns[r].start| < i <= |s.reigns[r].log|
    requires || Agree(s.reigns[r].log, s.log[p], i)
             || (forall q | q in Q :: Ack(s, q, r) < i)
             || exists w {:trigger Blocked(s, r, i, w)} :: r < w < s.term[p] && w in s.reigns && Blocked(s, r, i, w)
    ensures Safe(Elect(s, p, Q), r, i, s.term[p])
  {
    var s' := Elect(s, p, Q);
    var t := s.term[p];
    if Agree(s.reigns[r].log, s.log[p], i) {
    } else if forall q | q in Q :: Ack(s, q, r) < i {
      assert Blocked(s', r, i, t);
    } else {
      var w :| r < w < t && w in s.reigns && Blocked(s, r, i, w);
      forall q | q in s'.reigns[w].electors ensures Ack(s', q, r) < i {
        assert Ack(s', q, r) == Ack(s, q, r);
      }
      assert Blocked(s', r, i, w);
    }
  }

  ghost predicate Leads(s: State, p: nat) {
    && Shape(s) && p < s.n
    && 0 < s.term[p]
    && s.term[p] in s.reigns
    && s.reigns[s.term[p]].leader == p
    && s.log[p] == s.reigns[s.term[p]].log
  }

  lemma ProposeKeeps(s: State, p: nat, e: Entry)
    requires Inv(s) && Leads(s, p) && e.term == s.term[p] && e.index == |s.log[p]|
    ensures Inv(Propose(s, p, e)) && Grows(s, Propose(s, p, e))
  {
    var s' := Propose(s, p, e);
    var t := s.term[p];
    var L := s.log[p];
    AckBound(s, p, t);
    assert PeerOk(s, p) && ReignOk(s, t);
    ProposeWfLog(s, p, e);
    assert ReignOk(s', t) by {
      forall q: nat | q in s.reigns[t].electors ensures VotedFor(s', q, t, p) {
        assert VotedFor(s, q, t, p);
      }
    }
    forall r, i: nat | r in s'.reigns && r <= s'.term[p] && i <= Ack(s', p, r)
      ensures Kept(s', r, i, s'.log[p], s'.term[p])
    {
      if r != t && i > 0 {
        AckBound(s, p, r);
        assert Kept(s, r, i, L, t);
        ProposeKept(s, p, e, r, i);
      }
    }
    forall r, u, i | r in s'.reigns && u in s'.reigns && r < u && |s'.reigns[r].start| < i <= |s'.reigns[r].log|
      && !(r in s.reigns && u in s.reigns && i <= |s.reigns[r].log|)
      ensures Safe(s', r, i, u)
    {
      ProposeSafe(s, p, e, u);
    }
    StepKeeps(s, s', p);
  }

  lemma ProposeWfLog(s: State, p: nat, e: Entry)
    requires Inv(s) && Leads(s, p) && e.term == s.term[p] && e.index == |s.log[p]|
    ensures Grows(s, Propose(s, p, e))
    ensures WfLog(Propose(s, p, e), Propose(s, p, e).log[p], s.term[p])
  {
    var s' := Propose(s, p, e);
    var t := s.term[p];
    var L := s.log[p];
    AckBound(s, p, t);
    assert PeerOk(s, p);
    WfLogGrows(s, s', L, t, t);
    var L' := s'.log[p];
    forall i: nat | i < |L'| ensures EntryOk(s', L', t, i) {
      if i < |L| {
        assert EntryOk(s', L, t, i);
      }
    }
    forall i: nat, j: nat | i <= j < |L'| ensures InOrder(L', i, j) {
      if j < |L| {
        assert InOrder(L, i, j);
      } else {
        assert EntryOk(s', L', t, i);
      }
    }
  }

  lemma ProposeKept(s: State, p: nat, e: Entry, r: nat, i: nat)
    requires Inv(s) && Leads(s, p) && Grows(s, Propose(s, p, e))
    requires r in s.reigns && r != s.term[p] && i <= |s.reigns[r].log| && Kept(s, r, i, s.log[p], s.term[p])
    ensures Kept(Propose(s, p, e), r, i, s.log[p] + [e], s.term[p])
  {
    var s' := Propose(s, p, e);
    KeptGrows(s, s', r, i, s.log[p], s.term[p], s.term[p]);
  }

  /** An entry appended by a leader that has been succeeded can never commit. */
  lemma ProposeSafe(s: State, p: nat, e: Entry, u: nat)
    requires Inv(s) && Leads(s, p) && u in s.reigns && s.term[p] < u
    ensures Safe(Propose(s, p, e), s.term[p], |s.log[p]| + 1, u)
  {
    var s' := Propose(s, p, e);
    var t := s.term[p];
    assert ReignOk(s, u);
    forall q | q in s'.reigns[u].electors ensures Ack(s', q, t) < |s.log[p]| + 1 {
      assert q != p;
      AckBound(s, q, t);
    }
    assert Blocked(s', t, |s.log[p]| + 1, u);
  }

  lemma AdoptKeeps(s: State, q: nat, m: nat)
    requires Inv(s) && q < s.n && s.term[q] in s.reigns && 0 < m <= |s.reigns[s.term[q]].log|
    ensures Inv(Adopt(s, q, m)) && Grows(s, Adopt(s, q, m))
  {
    var s' := Adopt(s, q, m);
    var t := s.term[q];
    var R := s.reigns[t].log;
    AckBound(s, q, t);
    assert PeerOk(s, q) && ReignOk(s, t);
    assert Grows(s, s');
    AdoptWfLog(s, q, m);
    forall r, i: nat | r in s'.reigns && r <= t && i <= Ack(s', q, r)
      ensures Kept(s', r, i, s'.log[q], t)
    {
      if i > 0 {
        AdoptKept(s, q, m, r, i);
      }
    }
    StepKeeps(s, s', q);
  }

  lemma AdoptWfLog(s: State, q: nat, m: nat)
    requires Inv(s) && q < s.n && s.term[q] in s.reigns && 0 < m <= |s.reigns[s.term[q]].log|
    requires Grows(s, Adopt(s, q, m))
    ensures WfLog(Adopt(s, q, m), Adopt(s, q, m).log[q], s.term[q])
  {
    var s' := Adopt(s, q, m);
    var t := s.term[q];
    var R := s.reigns[t].log;
    assert PeerOk(s, q) && ReignOk(s, t);
    if Agree(R, s.log[q], m) {
      WfLogGrows(s, s', s.log[q], t, t);
    } else {
      WfLogGrows(s, s', R, t, t);
      WfLogPrefix(s', R, t, m);
    }
  }

  lemma WfLogPrefix(s: State, L: Log, t: nat, m: nat)
    requires WfLog(s, L, t) && 0 < m <= |L|
    ensures WfLog(s, L[..m], t)
  {
    var P := L[..m];
    forall i: nat | i < |P| ensures EntryOk(s, P, t, i) {
      assert EntryOk(s, L, t, i);
    }
    forall i: nat, j: nat | i <= j < |P| ensures InOrder(P, i, j) {
      assert InOrder(L, i, j);
    }
  }

  /** Adopting never loses an acked prefix, unless the leader adopted from had started without it. */
  lemma AdoptKept(s: State, q: nat, m: nat, r: nat, i: nat)
    requires Inv(s) && q < s.n && s.term[q] in s.reigns && 0 < m <= |s.reigns[s.term[q]].log|
    requires Grows(s, Adopt(s, q, m))
    requires r in s.reigns && r <= s.term[q] && 0 < i <= Ack(Adopt(s, q, m), q, r)
    ensures Kept(Adopt(s, q, m), r, i, Adopt(s, q, m).log[q], s.term[q])
  {
    var s' := Adopt(s, q, m);
    var t := s.term[q];
    var R := s.reigns[t].log;
    var L := s.log[q];
    assert ReignOk(s, t);
    if i <= Ack(s, q, r) {
      AckBound(s, q, r);
      assert Kept(s, r, i, L, t);
      if r == t {
        assert Agree(R, L, i);
      } else if Agree(s.reigns[r].log, L, i) && !Agree(s.reigns[r].log, s.reigns[t].start, i) {
        assert Dropped(s', r, i, t);
      } else {
        KeptGrows(s, s', r, i, L, t, t);
      }
    }
  }
}
