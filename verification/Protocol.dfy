// The Raft protocol over uncompacted logs, with the history its safety argument needs.
module Protocol {
  import opened Core
  import opened RaftTypes

  /** What is known of a term that has had a leader. start is the leader's log when it won,
      log is everything it has held since; both survive the leader's crash. */
  datatype Reign = Reign(leader: nat, electors: set<nat>, start: Log, log: Log)

  /** The first vote a peer cast in a term and the log it held at that moment. */
  datatype Vote = Vote(cand: nat, log: Log)

  /** Current terms and full logs of peers 0..n-1, and the history. acks records, for a peer
      and a term, how much of that term's leader log the peer has held while in the term. */
  datatype State = State(
    n: nat,
    term: seq<nat>,
    log: seq<Log>,
    reigns: map<nat, Reign>,
    acks: map<(nat, nat), nat>,
    votes: map<(nat, nat), Vote>,
    cands: map<(nat, nat), Log>)

  ghost function Ack(s: State, q: nat, t: nat): nat {
    if (q, t) in s.acks then s.acks[(q, t)] else 0
  }

  // ---------- the inductive invariant ----------
  // Each quantifier is triggered by the predicate it asserts, so a proof names the instances it uses.

  /** L is a log some peer may hold by term t: positions and terms are in order, and each
      prefix ending in an entry of term u is a prefix of the log of u's leader. */
  ghost predicate WfLog(s: State, L: Log, t: nat) {
    && |L| > 0
    && L[0] == DUMMY
    && (forall i: nat {:trigger EntryOk(s, L, t, i)} | i < |L| :: EntryOk(s, L, t, i))
    && (forall i: nat, j: nat {:trigger InOrder(L, i, j)} | i <= j < |L| :: InOrder(L, i, j))
  }

  ghost predicate EntryOk(s: State, L: Log, t: nat, i: nat)
    requires i < |L|
  {
    && L[i].index == i
    && L[i].term <= t
    && L[i].term in s.reigns
    && Agree(L, s.reigns[L[i].term].log, i + 1)
  }

  ghost predicate InOrder(L: Log, i: nat, j: nat)
    requires i <= j < |L|
  {
    L[i].term <= L[j].term
  }

  ghost predicate Shape(s: State) {
    && s.n > 0
    && |s.term| == |s.log| == s.n
  }

  ghost predicate PeerOk(s: State, q: nat)
    requires Shape(s) && q < s.n
  {
    && WfLog(s, s.log[q], s.term[q])
    && Ack(s, q, 0) == 1
  }

  /** The candidacy c = (peer, term): the log the candidate stood with predates its term. */
  ghost predicate CandOk(s: State, c: (nat, nat))
    requires Shape(s) && c in s.cands
  {
    && c.0 < s.n
    && 0 < c.1 <= s.term[c.0]
    && WfLog(s, s.cands[c], c.1)
    && LastTerm(s.cands[c]) < c.1
  }

  /** The vote k = (voter, term): given to a candidate at least as up to date as the voter. */
  ghost predicate VoteOk(s: State, k: (nat, nat))
    requires Shape(s) && k in s.votes
  {
    && k.0 < s.n
    && k.1 <= s.term[k.0]
    && WfLog(s, s.votes[k].log, k.1)
    && (s.votes[k].cand, k.1) in s.cands
    && |s.cands[(s.votes[k].cand, k.1)]| > 0
    && UpToDate(s.cands[(s.votes[k].cand, k.1)], s.votes[k].log)
  }

  ghost predicate VotedFor(s: State, q: nat, t: nat, c: nat) {
    (q, t) in s.votes && s.votes[(q, t)].cand == c
  }

  ghost predicate Elected(s: State, t: nat, r: Reign) {
    forall q: nat {:trigger VotedFor(s, q, t, r.leader)} | q in r.electors :: VotedFor(s, q, t, r.leader)
  }

  ghost predicate Outlived(s: State, t: nat, electors: set<nat>)
    requires Shape(s)
  {
    forall q: nat | q in electors && q < s.n :: t <= s.term[q]
  }

  /** From position |start| on, and only from there, the leader's log holds entries of its own term. */
  ghost predicate OwnEntries(r: Reign, t: nat) {
    forall i: nat {:trigger r.log[i]} | i < |r.log| :: r.log[i].term == t <==> |r.start| <= i
  }

  ghost predicate ReignOk(s: State, t: nat)
    requires Shape(s) && t in s.reigns
  {
    var r := s.reigns[t];
    && WfLog(s, r.log, t)
    && Agree(r.start, r.log, |r.start|)
    && OwnEntries(r, t)
    && Majority(r.electors, s.n)
    && Outlived(s, t, r.electors)
    && (t > 0 ==> r.leader < s.n && |r.start| > 0 && Elected(s, t, r))
  }

  ghost predicate AckOk(s: State, k: (nat, nat))
    requires Shape(s) && k in s.acks
  {
    && k.0 < s.n
    && k.1 in s.reigns
    && s.acks[k] <= |s.reigns[k.1].log|
    && k.1 <= s.term[k.0]
  }

  ghost predicate Dropped(s: State, t: nat, i: nat, u: nat)
    requires t in s.reigns && u in s.reigns
  {
    !Agree(s.reigns[t].log, s.reigns[u].start, i)
  }

  /** L still holds the first i entries of term t's leader log, or a leader of a term in
      (t, bound] started without them. */
  ghost predicate Kept(s: State, t: nat, i: nat, L: Log, bound: nat)
    requires t in s.reigns
  {
    || Agree(s.reigns[t].log, L, i)
    || exists u {:trigger Dropped(s, t, i, u)} :: t < u <= bound && u in s.reigns && Dropped(s, t, i, u)
  }

  ghost predicate KeptOk(s: State)
    requires Shape(s)
  {
    && (forall q: nat, t, i: nat {:trigger Kept(s, t, i, s.log[q], s.term[q])} |
          q < s.n && t in s.reigns && t <= s.term[q] && i <= Ack(s, q, t) ::
          Kept(s, t, i, s.log[q], s.term[q]))
    && (forall k, t, i: nat {:trigger Kept(s, t, i, s.votes[k].log, k.1)} |
          k in s.votes && t in s.reigns && t < k.1 && i <= Ack(s, k.0, t) ::
          Kept(s, t, i, s.votes[k].log, k.1))
  }

  /** No elector of term w had taken i entries of term t when it moved on. */
  ghost predicate Blocked(s: State, t: nat, i: nat, w: nat)
    requires w in s.reigns
  {
    forall q | q in s.reigns[w].electors :: Ack(s, q, t) < i
  }

  /** Term u's leader started with the first i entries of term t, or these can never commit. */
  ghost predicate Safe(s: State, t: nat, i: nat, u: nat)
    requires t in s.reigns && u in s.reigns
  {
    || Agree(s.reigns[t].log, s.reigns[u].start, i)
    || exists w {:trigger Blocked(s, t, i, w)} :: t < w <= u && w in s.reigns && Blocked(s, t, i, w)
  }

  ghost predicate SafeOk(s: State) {
    forall t, u, i {:trigger Safe(s, t, i, u)} |
      t in s.reigns && u in s.reigns && t < u && |s.reigns[t].start| < i <= |s.reigns[t].log| ::
      Safe(s, t, i, u)
  }

  ghost predicate PeersOk(s: State)
    requires Shape(s)
  {
    forall q: nat {:trigger PeerOk(s, q)} | q < s.n :: PeerOk(s, q)
  }

  ghost predicate ReignsOk(s: State)
    requires Shape(s)
  {
    && 0 in s.reigns
    && s.reigns[0].log == [DUMMY]
    && s.reigns[0].start == []
    && forall t {:trigger ReignOk(s, t)} | t in s.reigns :: ReignOk(s, t)
  }

  ghost predicate RecordsOk(s: State)
    requires Shape(s)
  {
    && (forall c {:trigger CandOk(s, c)} | c in s.cands :: CandOk(s, c))
    && (forall k {:trigger VoteOk(s, k)} | k in s.votes :: VoteOk(s, k))
    && (forall k {:trigger AckOk(s, k)} | k in s.acks :: AckOk(s, k))
  }

  ghost predicate Inv(s: State) {
    && Shape(s)
    && PeersOk(s)
    && ReignsOk(s)
    && RecordsOk(s)
    && KeptOk(s)
    && SafeOk(s)
  }

  // ---------- the steps ----------

  ghost predicate Initial(s: State) {
    && Shape(s)
    && (forall q: nat | q < s.n :: s.term[q] == 0 && s.log[q] == [DUMMY] && Ack(s, q, 0) == 1)
    && (forall k | k in s.acks :: k.0 < s.n && k.1 == 0 && s.acks[k] == 1)
    && s.reigns == map[0 := Reign(0, Peers(s.n), [], [DUMMY])]
    && s.votes == map[]
    && s.cands == map[]
  }

  /** q hears of a higher term t. */
  ghost function Bump(s: State, q: nat, t: nat): State
    requires Shape(s) && q < s.n
  {
    s.(term := s.term[q := t])
  }

  /** p enters term t as a candidate and votes for itself. */
  ghost function Stand(s: State, p: nat, t: nat): State
    requires Shape(s) && p < s.n
  {
    s.(term := s.term[p := t],
       cands := s.cands[(p, t) := s.log[p]],
       votes := s.votes[(p, t) := Vote(p, s.log[p])])
  }

  /** q votes for c in its current term. */
  ghost function CastVote(s: State, q: nat, c: nat): State
    requires Shape(s) && q < s.n
  {
    s.(votes := s.votes[(q, s.term[q]) := Vote(c, s.log[q])])
  }

  /** p, still holding the log it stood with, wins its term with the votes of Q. */
  ghost function Elect(s: State, p: nat, Q: set<nat>): State
    requires Shape(s) && p < s.n
  {
    s.(reigns := s.reigns[s.term[p] := Reign(p, Q, s.log[p], s.log[p])],
       acks := s.acks[(p, s.term[p]) := |s.log[p]|])
  }

  /** The leader p appends e to its log. */
  ghost function Propose(s: State, p: nat, e: Entry): State
    requires Shape(s) && p < s.n && s.term[p] in s.reigns
  {
    var t := s.term[p];
    s.(log := s.log[p := s.log[p] + [e]],
       reigns := s.reigns[t := s.reigns[t].(log := s.log[p] + [e])],
       acks := s.acks[(p, t) := |s.log[p]| + 1])
  }

  /** The log after taking over the first m entries of R: unchanged if it has them already. */
  ghost function Adopted(L: Log, R: Log, m: nat): Log
    requires m <= |R|
  {
    if Agree(R, L, m) then L else R[..m]
  }

  /** q takes over the first m entries of its term's leader log. */
  ghost function Adopt(s: State, q: nat, m: nat): State
    requires Shape(s) && q < s.n && s.term[q] in s.reigns && m <= |s.reigns[s.term[q]].log|
  {
    var t := s.term[q];
    s.(log := s.log[q := Adopted(s.log[q], s.reigns[t].log, m)],
       acks := s.acks[(q, t) := if m > Ack(s, q, t) then m else Ack(s, q, t)])
  }

  // ---------- commitment ----------

  /** A majority has taken the first i entries of term t's leader log, the last of them of term t. */
  ghost predicate Committed(s: State, t: nat, i: nat) {
    && t in s.reigns
    && |s.reigns[t].start| < i <= |s.reigns[t].log|
    && exists Q: set<nat> {:trigger Taken(s, t, i, Q)} :: Majority(Q, s.n) && Taken(s, t, i, Q)
  }

  ghost predicate Taken(s: State, t: nat, i: nat, Q: set<nat>) {
    forall q | q in Q :: Ack(s, q, t) >= i
  }

  /** The first m entries of L lie in a prefix committed in a term no later than bound. */
  ghost predicate CommittedTo(s: State, L: Log, m: nat, bound: nat) {
    exists t: nat, i: nat {:trigger Committed(s, t, i)} ::
      t <= bound && m <= i && Committed(s, t, i) && Agree(L, s.reigns[t].log, m)
  }

  /** Leader completeness: a committed prefix is in the log of every later leader from its start. */
  lemma LeaderCompleteness(s: State, t: nat, i: nat, u: nat)
    requires Inv(s) && Committed(s, t, i) && u in s.reigns && t < u
    ensures Agree(s.reigns[t].log, s.reigns[u].start, i)
    ensures Agree(s.reigns[t].log, s.reigns[u].log, i)
  {
    assert Safe(s, t, i, u);
    if !Agree(s.reigns[t].log, s.reigns[u].start, i) {
      var w :| t < w <= u && w in s.reigns && Blocked(s, t, i, w);
      var Q: set<nat> :| Majority(Q, s.n) && Taken(s, t, i, Q);
      assert ReignOk(s, w);
      var q := MajoritiesMeet(Q, s.reigns[w].electors, s.n);
      assert false;
    }
    assert ReignOk(s, u);
  }

  /** Two committed prefixes never disagree: state machine safety on one state. */
  lemma CommittedAgree(s: State, a: Log, m: nat, ta: nat, b: Log, k: nat, tb: nat)
    requires Inv(s) && m <= k && CommittedTo(s, a, m, ta) && CommittedTo(s, b, k, tb)
    ensures Agree(a, b, m)
  {
    var t: nat, i: nat :| t <= ta && m <= i && Committed(s, t, i) && Agree(a, s.reigns[t].log, m);
    var u: nat, j: nat :| u <= tb && k <= j && Committed(s, u, j) && Agree(b, s.reigns[u].log, k);
    if t < u {
      LeaderCompleteness(s, t, i, u);
    } else if u < t {
      LeaderCompleteness(s, u, j, t);
    }
  }

  /** The leader log of a term holds everything committed by then, up to that log's own length. */
  lemma LeaderHoldsCommitted(s: State, L: Log, m: nat, bound: nat, t: nat)
    requires Inv(s) && CommittedTo(s, L, m, bound) && bound <= t && t in s.reigns
    ensures Agree(L, s.reigns[t].log, m)
  {
    var u: nat, i: nat :| u <= bound && m <= i && Committed(s, u, i) && Agree(L, s.reigns[u].log, m);
    if u < t {
      LeaderCompleteness(s, u, i, t);
    }
  }

  /** What was committed in an earlier term the leader of a later one starts with. */
  lemma LaterLeaderStarts(s: State, L: Log, m: nat, bound: nat, t: nat)
    requires Inv(s) && CommittedTo(s, L, m, bound) && bound < t && t in s.reigns
    ensures Agree(L, s.reigns[t].start, m)
  {
    var u: nat, i: nat :| u <= bound && m <= i && Committed(s, u, i) && Agree(L, s.reigns[u].log, m);
    LeaderCompleteness(s, u, i, t);
  }

  /** Log matching: equal terms at one position mean equal logs up to it. */
  lemma LogMatching(s: State, a: Log, ta: nat, b: Log, tb: nat, i: nat)
    requires WfLog(s, a, ta) && WfLog(s, b, tb) && i < |a| && i < |b| && a[i].term == b[i].term
    ensures Agree(a, b, i + 1)
  {
    assert EntryOk(s, a, ta, i) && EntryOk(s, b, tb, i);
  }
}
