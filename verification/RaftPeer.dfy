// One Raft peer (internal/raft) as a value: what each critical section of the source computes.
module RaftPeer {
  import opened Core
  import opened RaftTypes

  datatype Role = Follower | Candidate | Leader

  datatype RequestVoteArgs = RequestVoteArgs(term: nat, candidateId: nat, lastLogIndex: nat, lastLogTerm: nat)
  datatype RequestVoteReply = RequestVoteReply(term: nat, voteGranted: bool)

  datatype AppendEntriesArgs = AppendEntriesArgs(
    term: nat, leaderId: nat, prevLogIndex: nat, prevLogTerm: nat, entries: seq<Entry>, leaderCommit: nat)
  datatype AppendEntriesReply = AppendEntriesReply(term: nat, success: bool, xTerm: int, xIndex: int, xLen: int)

  datatype InstallSnapshotArgs = InstallSnapshotArgs(
    term: nat, leaderId: nat, lastIncludedIndex: nat, lastIncludedTerm: nat, data: Option<GroupState>)
  datatype InstallSnapshotReply = InstallSnapshotReply(term: nat)

  datatype Snapshot = Snapshot(index: nat, term: nat, data: Option<GroupState>)

  datatype ApplyMsg = CommandMsg(command: Command, index: nat) | SnapshotMsg(snapshot: Snapshot)

  datatype Durable = Durable(
    currentTerm: nat, votedFor: int, log: seq<Entry>, lastIncludedIndex: nat, lastIncludedTerm: nat)

  /** The persister: the last saved Raft state and the last saved snapshot. */
  datatype Disk = Disk(state: Option<Durable>, snapshot: Option<GroupState>)

  /** log[0] stands for index lastIncludedIndex. votes and waiting belong to the goroutines of the
      peer's latest election: the count so far and the peers whose reply is still to be handled. */
  datatype Peer = Peer(
    me: nat,
    n: nat,
    currentTerm: nat,
    votedFor: int,
    log: seq<Entry>,
    lastIncludedIndex: nat,
    lastIncludedTerm: nat,
    commitIndex: nat,
    lastApplied: nat,
    role: Role,
    nextIndex: seq<nat>,
    matchIndex: seq<nat>,
    votes: nat,
    waiting: set<nat>,
    pending: Option<Snapshot>,
    disk: Disk)
  {
    /** What the source relies on at every entry to a critical section. */
    predicate Valid() {
      && me < n
      && |log| > 0
      && |nextIndex| == |matchIndex| == n
      && lastIncludedIndex <= commitIndex
    }

    function GetLastLogIndex(): nat
      requires |log| > 0
    {
      lastIncludedIndex + |log| - 1
    }

    function GetLastLogTerm(): nat
      requires |log| > 0
    {
      if |log| == 1 then lastIncludedTerm else log[|log| - 1].term
    }

    predicate InLog(i: int)
      requires |log| > 0
    {
      lastIncludedIndex <= i <= GetLastLogIndex()
    }

    function GetLogEntry(i: nat): Entry
      requires |log| > 0 && InLog(i)
    {
      log[i - lastIncludedIndex]
    }

    function GetLogTerm(i: nat): nat
      requires |log| > 0 && InLog(i)
    {
      if i == lastIncludedIndex then lastIncludedTerm else log[i - lastIncludedIndex].term
    }

    function SerializeState(): Durable {
      Durable(currentTerm, votedFor, log, lastIncludedIndex, lastIncludedTerm)
    }

    function Persist(): Peer {
      this.(disk := Disk(Some(SerializeState()), disk.snapshot))
    }

    function StepDown(term: nat): Peer {
      this.(currentTerm := term, role := Follower, votedFor := -1).Persist()
    }
  }

  // ---------- start and restart ----------

  /** Make: fresh fields, then whatever the persister holds. */
  function Make(me: nat, n: nat, disk: Disk): Peer {
    var d := match disk.state
             case Some(d) => d
             case None => Durable(0, -1, [DUMMY], 0, 0);
    Peer(me, n, d.currentTerm, d.votedFor, d.log, d.lastIncludedIndex, d.lastIncludedTerm,
         d.lastIncludedIndex, d.lastIncludedIndex, Follower,
         seq(n, i => 0), seq(n, i => 0), 0, {}, None, disk)
  }

  // ---------- elections ----------

  function Others(n: nat, me: nat): set<nat> {
    Peers(n) - {me}
  }

  function StartElection(p: Peer): Peer {
    p.(currentTerm := p.currentTerm + 1, role := Candidate, votedFor := p.me,
       votes := 1, waiting := Others(p.n, p.me)).Persist()
  }

  function VoteRequest(p: Peer): RequestVoteArgs
    requires p.Valid()
  {
    RequestVoteArgs(p.currentTerm, p.me, p.GetLastLogIndex(), p.GetLastLogTerm())
  }

  predicate LogUpToDate(p: Peer, a: RequestVoteArgs)
    requires p.Valid()
  {
    || a.lastLogTerm > p.GetLastLogTerm()
    || (a.lastLogTerm == p.GetLastLogTerm() && a.lastLogIndex >= p.GetLastLogIndex())
  }

  function RequestVote(p: Peer, a: RequestVoteArgs): (Peer, RequestVoteReply)
    requires p.Valid()
  {
    if a.term < p.currentTerm then
      (p, RequestVoteReply(p.currentTerm, false))
    else
      var p1 := if a.term > p.currentTerm then p.StepDown(a.term) else p;
      if (p1.votedFor == -1 || p1.votedFor == a.candidateId) && LogUpToDate(p1, a) then
        (p1.(votedFor := a.candidateId).Persist(), RequestVoteReply(p.currentTerm, true))
      else
        (p1, RequestVoteReply(p.currentTerm, false))
  }

  function TransitionToLeader(p: Peer): Peer
    requires p.Valid()
  {
    p.(role := Leader,
       nextIndex := seq(p.n, i => p.GetLastLogIndex() + 1),
       matchIndex := seq(p.n, i => 0))
  }

  /** The goroutine that asked peer q for its vote in the given term gets an answer. */
  function VoteReply(p: Peer, q: nat, term: nat, r: RequestVoteReply): Peer
    requires p.Valid()
  {
    if p.role != Candidate || p.currentTerm != term then p
    else
      var p1 := p.(waiting := p.waiting - {q});
      if r.term > p.currentTerm then p1.StepDown(r.term)
      else if !r.voteGranted then p1
      else
        var p2 := p1.(votes := p.votes + 1);
        if p2.votes > p.n / 2 then TransitionToLeader(p2) else p2
  }

  // ---------- replication ----------

  function Start(p: Peer, command: Command): (Peer, int, nat, bool)
    requires p.Valid()
  {
    if p.role != Leader then (p, -1, p.currentTerm, false)
    else
      var i := p.GetLastLogIndex() + 1;
      (p.(log := p.log + [Entry(p.currentTerm, i, command)]).Persist(), i, p.currentTerm, true)
  }

  /** The message for peer q, or none when q needs a snapshot instead. */
  function AppendRequest(p: Peer, q: nat): Option<AppendEntriesArgs>
    requires p.Valid() && q < p.n
    requires p.role == Leader ==> 1 <= p.nextIndex[q] <= p.GetLastLogIndex() + 1
  {
    if p.role != Leader || p.nextIndex[q] - 1 < p.lastIncludedIndex then None
    else
      var prev := p.nextIndex[q] - 1;
      Some(AppendEntriesArgs(p.currentTerm, p.me, prev, p.GetLogTerm(prev),
                             p.log[prev + 1 - p.lastIncludedIndex..], p.commitIndex))
  }

  /** How many leading entries are already in the log from position off on, by term;
      the first j are known to be. */
  function Matched(log: seq<Entry>, off: nat, entries: seq<Entry>, j: nat): (k: nat)
    requires j <= |entries| && off + j <= |log|
    ensures j <= k <= |entries| && off + k <= |log|
    decreases |entries| - j
  {
    if j == |entries| || off + j >= |log| || log[off + j].term != entries[j].term then j
    else Matched(log, off, entries, j + 1)
  }

  /** The matched entries are there, with the same terms. */
  lemma {:induction false} MatchedAt(log: seq<Entry>, off: nat, entries: seq<Entry>, j: nat, i: nat)
    requires j <= |entries| && off + j <= |log| && j <= i < Matched(log, off, entries, j)
    ensures log[off + i].term == entries[i].term
    decreases |entries| - j
  {
    if j < i {
      MatchedAt(log, off, entries, j + 1, i);
    }
  }

  /** The first unmatched entry is not. */
  lemma {:induction false} MatchedEnds(log: seq<Entry>, off: nat, entries: seq<Entry>, j: nat)
    requires j <= |entries| && off + j <= |log|
    ensures var k := Matched(log, off, entries, j);
            k < |entries| ==> off + k == |log| || log[off + k].term != entries[k].term
    decreases |entries| - j
  {
    if j < |entries| && off + j < |log| && log[off + j].term == entries[j].term {
      MatchedEnds(log, off, entries, j + 1);
    }
  }

  /** The log after the entries from position off on: cut at the first conflict, then extended. */
  function Merge(log: seq<Entry>, off: nat, entries: seq<Entry>): seq<Entry>
    requires off <= |log|
  {
    var k := Matched(log, off, entries, 0);
    if k == |entries| then log else log[..off + k] + entries[k..]
  }

  /** The first index of the run of equal terms that ends at i, not looking below the base. */
  function FirstOfTerm(p: Peer, i: nat): (f: nat)
    requires |p.log| > 0 && p.InLog(i)
    ensures p.lastIncludedIndex <= f <= i
    decreases i
  {
    if i > p.lastIncludedIndex && p.GetLogTerm(i - 1) == p.GetLogTerm(i) then FirstOfTerm(p, i - 1) else i
  }

  /** Hearing from the leader of a term at least as high as one's own. */
  function HeedLeader(p: Peer, term: nat): Peer {
    if term > p.currentTerm then p.StepDown(term)
    else if p.role == Candidate then p.(role := Follower)
    else p
  }

  function AppendEntries(p: Peer, a: AppendEntriesArgs): (Peer, AppendEntriesReply)
    requires p.Valid()
  {
    if a.term < p.currentTerm then (p, AppendEntriesReply(p.currentTerm, false, 0, 0, 0))
    else AppendInTerm(HeedLeader(p, a.term), a, p.currentTerm)
  }

  /** replyTerm is the term the follower was in when the message arrived. */
  function AppendInTerm(p: Peer, a: AppendEntriesArgs, replyTerm: nat): (Peer, AppendEntriesReply)
    requires p.Valid()
  {
    var last := p.GetLastLogIndex();
    if a.prevLogIndex > last then
      (p, AppendEntriesReply(replyTerm, false, -1, -1, last + 1))
    else if a.prevLogIndex < p.lastIncludedIndex then
      (p, AppendEntriesReply(replyTerm, false, -1, -1, p.lastIncludedIndex + 1))
    else if p.GetLogTerm(a.prevLogIndex) != a.prevLogTerm then
      (p, AppendEntriesReply(replyTerm, false, p.GetLogTerm(a.prevLogIndex),
                             FirstOfTerm(p, a.prevLogIndex), last + 1))
    else
      (FollowCommit(TakeEntries(p, a), a.leaderCommit), AppendEntriesReply(replyTerm, true, 0, 0, 0))
  }

  function TakeEntries(p: Peer, a: AppendEntriesArgs): Peer
    requires p.Valid() && p.InLog(a.prevLogIndex)
  {
    var off := a.prevLogIndex + 1 - p.lastIncludedIndex;
    if Matched(p.log, off, a.entries, 0) == |a.entries| then p
    else Overwrite(p, Merge(p.log, off, a.entries))
  }

  /** The follower once it is known from where on the message's entries are new to it. */
  function TakenAt(p: Peer, at: nat, rest: seq<Entry>): Peer
    requires at <= |p.log|
  {
    if |rest| == 0 then p else Overwrite(p, p.log[..at] + rest)
  }

  lemma {:induction false} TakeUnfolds(p: Peer, a: AppendEntriesArgs, k: nat)
    requires p.Valid() && p.InLog(a.prevLogIndex)
    requires k == Matched(p.log, a.prevLogIndex + 1 - p.lastIncludedIndex, a.entries, 0)
    ensures TakeEntries(p, a) == TakenAt(p, a.prevLogIndex + 1 - p.lastIncludedIndex + k, a.entries[k..])
  {
  }

  /** The message with the first i of its entries. */
  function First(a: AppendEntriesArgs, i: nat): AppendEntriesArgs
    requires i <= |a.entries|
  {
    a.(entries := a.entries[..i])
  }

  lemma {:induction false} MatchedFirst(log: seq<Entry>, off: nat, entries: seq<Entry>, i: nat, j: nat)
    requires j <= i <= |entries| && off + j <= |log|
    ensures Matched(log, off, entries[..i], j)
            == if i <= Matched(log, off, entries, j) then i else Matched(log, off, entries, j)
    decreases i - j
  {
    if j < i && off + j < |log| && log[off + j].term == entries[j].term {
      MatchedFirst(log, off, entries, i, j + 1);
    }
  }

  /** Taking over entry by entry: what the first i entries of the message leave. */
  lemma {:induction false} TakeFirst(p: Peer, a: AppendEntriesArgs, k: nat, i: nat)
    requires p.Valid() && p.InLog(a.prevLogIndex) && i <= |a.entries|
    requires k == Matched(p.log, a.prevLogIndex + 1 - p.lastIncludedIndex, a.entries, 0)
    ensures TakeEntries(p, First(a, i)) ==
            if i <= k then p
            else Overwrite(p, p.log[..a.prevLogIndex + 1 - p.lastIncludedIndex + k] + a.entries[k..i])
  {
    hide Matched, TakeEntries;
    MatchedFirst(p.log, a.prevLogIndex + 1 - p.lastIncludedIndex, a.entries, i, 0);
    TakeUnfolds(p, First(a, i), if i <= k then i else k);
    if i > k {
      assert a.entries[..i][k..] == a.entries[k..i];
    }
  }

  /** What the follower has saved of a message once it has written the first i entries of it. */
  function AppendSaved(p: Peer, a: AppendEntriesArgs, i: nat): Peer
    requires p.Valid() && i <= |a.entries|
  {
    if a.term < p.currentTerm then p
    else
      var p1 := HeedLeader(p, a.term);
      if p1.InLog(a.prevLogIndex) && p1.GetLogTerm(a.prevLogIndex) == a.prevLogTerm
      then TakeEntries(p1, First(a, i))
      else p1
  }

  function Overwrite(p: Peer, log: seq<Entry>): Peer {
    p.(log := log).Persist()
  }

  /** The follower's commit rule, capped by the length of its whole log. */
  function FollowCommit(p: Peer, leaderCommit: nat): Peer
    requires |p.log| > 0
  {
    if leaderCommit <= p.commitIndex then p
    else p.(commitIndex := if p.GetLastLogIndex() < leaderCommit then p.GetLastLogIndex() else leaderCommit)
  }

  /** The peers other than the leader known to hold index k. */
  function Holders(p: Peer, k: int): set<nat>
    requires |p.matchIndex| == p.n
  {
    set q: nat | q < p.n && q != p.me && p.matchIndex[q] >= k
  }

  predicate CanCommit(p: Peer, k: nat)
    requires p.Valid() && p.InLog(k)
  {
    p.GetLogTerm(k) == p.currentTerm && 1 + |Holders(p, k)| > p.n / 2
  }

  /** The commit index after scanning down from k. */
  function NewCommit(p: Peer, k: nat): (c: nat)
    requires p.Valid() && k <= p.GetLastLogIndex()
    ensures c == p.commitIndex || (p.commitIndex < c <= k && CanCommit(p, c))
    ensures forall j: nat | p.commitIndex < j <= k && c < j :: !CanCommit(p, j)
  {
    if k <= p.commitIndex then p.commitIndex
    else if CanCommit(p, k) then k
    else NewCommit(p, k - 1)
  }

  /** The last index at or below i, down to the base, holding the given term; -1 if none. */
  function LastWithTerm(p: Peer, i: nat, term: int): (j: int)
    requires |p.log| > 0 && p.InLog(i)
    ensures j == -1 || (p.lastIncludedIndex <= j <= i && p.GetLogTerm(j) == term)
    ensures forall k: nat | p.lastIncludedIndex <= k <= i && k > j :: p.GetLogTerm(k) != term
    decreases i
  {
    if p.GetLogTerm(i) == term then i
    else if i == p.lastIncludedIndex then -1
    else LastWithTerm(p, i - 1, term)
  }

  function Backtrack(p: Peer, r: AppendEntriesReply): nat
    requires p.Valid()
  {
    var next :=
      if r.xTerm == -1 then r.xLen
      else
        var last := LastWithTerm(p, p.GetLastLogIndex(), r.xTerm);
        if last != -1 then last + 1 else r.xIndex;
    if next < 1 then 1 else next
  }

  /** Leader p handles q's reply to the message a. */
  function AppendReply(p: Peer, q: nat, a: AppendEntriesArgs, r: AppendEntriesReply): Peer
    requires p.Valid() && q < p.n
  {
    if p.role != Leader || p.currentTerm != a.term then p
    else if r.term > p.currentTerm then p.StepDown(r.term)
    else if r.success then
      var p1 := Progress(p, q, a.prevLogIndex + |a.entries|);
      p1.(commitIndex := NewCommit(p1, p1.GetLastLogIndex()))
    else
      p.(nextIndex := p.nextIndex[q := Backtrack(p, r)])
  }

  function Progress(p: Peer, q: nat, index: nat): Peer
    requires p.Valid() && q < p.n
  {
    var m := if index > p.matchIndex[q] then index else p.matchIndex[q];
    p.(matchIndex := p.matchIndex[q := m], nextIndex := p.nextIndex[q := m + 1])
  }

  // ---------- snapshots ----------

  function SnapshotRequest(p: Peer): InstallSnapshotArgs {
    InstallSnapshotArgs(p.currentTerm, p.me, p.lastIncludedIndex, p.lastIncludedTerm, p.disk.snapshot)
  }

  function InstallSnapshot(p: Peer, a: InstallSnapshotArgs): (Peer, InstallSnapshotReply)
    requires p.Valid()
  {
    (if a.term < p.currentTerm then p else InstallInTerm(HeedLeader(p, a.term), a),
     InstallSnapshotReply(p.currentTerm))
  }

  function InstallInTerm(p: Peer, a: InstallSnapshotArgs): Peer
    requires p.Valid()
  {
    if a.lastIncludedIndex <= p.lastIncludedIndex then p
    else
      var base := Entry(a.lastIncludedTerm, a.lastIncludedIndex, NoCommand);
      var keep := p.InLog(a.lastIncludedIndex) && p.GetLogTerm(a.lastIncludedIndex) == a.lastIncludedTerm;
      var p1 := p.(
        log := if keep then [base] + p.log[a.lastIncludedIndex - p.lastIncludedIndex + 1..] else [base],
        lastIncludedIndex := a.lastIncludedIndex,
        lastIncludedTerm := a.lastIncludedTerm,
        commitIndex := if p.commitIndex < a.lastIncludedIndex then a.lastIncludedIndex else p.commitIndex,
        lastApplied := if p.lastApplied < a.lastIncludedIndex then a.lastIncludedIndex else p.lastApplied,
        pending := Some(Snapshot(a.lastIncludedIndex, a.lastIncludedTerm, a.data)));
      p1.(disk := Disk(Some(p1.SerializeState()), a.data))
  }

  /** Leader p handles q's reply to the snapshot a. */
  function SnapshotReply(p: Peer, q: nat, a: InstallSnapshotArgs, r: InstallSnapshotReply): Peer
    requires p.Valid() && q < p.n
  {
    if p.role != Leader || p.currentTerm != a.term then p
    else if r.term > p.currentTerm then p.StepDown(r.term)
    else Progress(p, q, a.lastIncludedIndex)
  }

  /** Snapshot: the service hands over its state as of index, and the log before it is dropped. */
  function Compact(p: Peer, index: nat, data: GroupState): Peer
    requires p.Valid() && index <= p.commitIndex && index <= p.GetLastLogIndex()
  {
    if index <= p.lastIncludedIndex then p
    else
      var term := p.GetLogTerm(index);
      var p1 := p.(
        log := [Entry(term, index, NoCommand)] + p.log[index - p.lastIncludedIndex + 1..],
        lastIncludedIndex := index,
        lastIncludedTerm := term);
      p1.(disk := Disk(Some(p1.SerializeState()), Some(data)))
  }

  // ---------- the applier ----------

  /** The commands after index i up to the commit index, leaving out what the base covers. */
  function Batch(p: Peer, i: nat): seq<ApplyMsg>
    requires p.Valid() && p.commitIndex <= p.GetLastLogIndex()
    decreases p.commitIndex - i
  {
    if i >= p.commitIndex then []
    else if i + 1 <= p.lastIncludedIndex then Batch(p, i + 1)
    else [CommandMsg(p.GetLogEntry(i + 1).command, i + 1)] + Batch(p, i + 1)
  }

  /** One round of the applier under the mutex: a pending snapshot goes first, and alone. */
  function Apply(p: Peer): (Peer, seq<ApplyMsg>)
    requires p.Valid() && p.commitIndex <= p.GetLastLogIndex()
  {
    match p.pending
    case Some(s) => (p.(pending := None), [SnapshotMsg(s)])
    case None => (p.(lastApplied := if p.lastApplied < p.commitIndex then p.commitIndex else p.lastApplied),
                  Batch(p, p.lastApplied))
  }
}
