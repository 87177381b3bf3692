// The Raft struct of internal/raft: fields updated in place under the mutex, one method for each
// critical section. Every method is proved to compute what RaftPeer says.
module RaftServer {
  import opened Core
  import opened RaftTypes
  import opened RaftPeer
  import Spec = RaftPeer

  /** What the persister holds after each of the first entries of a message. */
  ghost predicate Images(p: Peer, args: AppendEntriesArgs, saved: seq<Disk>)
    requires p.Valid() && p.InLog(args.prevLogIndex)
  {
    && |saved| <= |args.entries| + 1
    && forall i: nat {:trigger saved[i]} | i < |saved| :: saved[i] == TakeEntries(p, First(args, i)).disk
  }

  lemma FirstImage(p: Peer, args: AppendEntriesArgs)
    requires p.Valid() && p.InLog(args.prevLogIndex)
    ensures Images(p, args, [TakeEntries(p, First(args, 0)).disk])
  {
  }

  lemma ImagesMore(p: Peer, args: AppendEntriesArgs, saved: seq<Disk>, d: Disk)
    requires p.Valid() && p.InLog(args.prevLogIndex) && 0 < |saved| <= |args.entries| && Images(p, args, saved)
    requires d == TakeEntries(p, First(args, |saved|)).disk
    ensures Images(p, args, saved + [d])
  {
  }

  /** What the next entry of a message does to the log that the ones before it left. */
  lemma OneEntryMore(p: Peer, args: AppendEntriesArgs, k: nat, i: nat)
    requires p.Valid() && p.InLog(args.prevLogIndex) && i < |args.entries|
    requires k == Matched(p.log, args.prevLogIndex + 1 - p.lastIncludedIndex, args.entries, 0)
    ensures var x, y, entry := TakeEntries(p, First(args, i)), TakeEntries(p, First(args, i + 1)), args.entries[i];
            var idx := args.prevLogIndex + 1 + i;
            && x.Valid() && idx <= x.GetLastLogIndex() + 1 && x.lastIncludedIndex == p.lastIncludedIndex
            && y == if idx <= x.GetLastLogIndex() && x.GetLogTerm(idx) == entry.term then x
                    else Overwrite(x, x.log[..idx - x.lastIncludedIndex] + [entry])
  {
    hide Matched, TakeEntries;
    var off := args.prevLogIndex + 1 - p.lastIncludedIndex;
    TakeFirst(p, args, k, i);
    TakeFirst(p, args, k, i + 1);
    if i < k {
      MatchedAt(p.log, off, args.entries, 0, i);
    } else {
      MatchedEnds(p.log, off, args.entries, 0);
      var kept, x := p.log[..off + k], TakeEntries(p, First(args, i));
      assert x.log[..off + i] == kept + args.entries[k..i];
      assert (kept + args.entries[k..i]) + [args.entries[i]] == kept + args.entries[k..i + 1];
    }
  }

  class Raft {
    const me: nat
    const n: nat

    var currentTerm: nat
    var votedFor: int
    var log: seq<Entry>
    var lastIncludedIndex: nat
    var lastIncludedTerm: nat

    var commitIndex: nat
    var lastApplied: nat
    var role: Role

    const nextIndex: array<nat>
    const matchIndex: array<nat>

    var votes: nat
    var waiting: set<nat>
    var pending: Option<Snapshot>
    var disk: Disk

    predicate Valid()
      reads this
    {
      && me < n
      && |log| > 0
      && nextIndex.Length == matchIndex.Length == n
      && nextIndex != matchIndex
      && lastIncludedIndex <= commitIndex
    }

    function State(): Peer
      reads this, nextIndex, matchIndex
    {
      Peer(me, n, currentTerm, votedFor, log, lastIncludedIndex, lastIncludedTerm, commitIndex, lastApplied,
           role, nextIndex[..], matchIndex[..], votes, waiting, pending, disk)
    }

    /** Make: a new peer, or one restarted from what its persister holds. */
    constructor (me: nat, n: nat, disk: Disk)
      requires me < n
      requires disk.state.Some? ==> |disk.state.value.log| > 0
      ensures Valid() && fresh(nextIndex) && fresh(matchIndex)
      ensures State() == Make(me, n, disk)
    {
      this.me, this.n, this.disk := me, n, disk;
      role, votedFor, currentTerm := Follower, -1, 0;
      lastIncludedIndex, lastIncludedTerm := 0, 0;
      log := [DUMMY];
      nextIndex := new nat[n](i => 0);
      matchIndex := new nat[n](i => 0);
      commitIndex, lastApplied := 0, 0;
      votes, waiting, pending := 0, {}, None;
      new;
      if disk.state.Some? {
        var d := disk.state.value;
        currentTerm, votedFor, log := d.currentTerm, d.votedFor, d.log;
        lastIncludedIndex, lastIncludedTerm := d.lastIncludedIndex, d.lastIncludedTerm;
        commitIndex, lastApplied := d.lastIncludedIndex, d.lastIncludedIndex;
      }
      if disk.snapshot.Some? {
        commitIndex, lastApplied := lastIncludedIndex, lastIncludedIndex;
      }
      assert nextIndex[..] == seq(n, i => 0) && matchIndex[..] == seq(n, i => 0);
    }

    function GetLastLogIndex(): nat
      requires |log| > 0
      reads this
    {
      lastIncludedIndex + |log| - 1
    }

    function GetLastLogTerm(): nat
      requires |log| > 0
      reads this
    {
      if |log| == 1 then lastIncludedTerm else log[|log| - 1].term
    }

    function GetLogTerm(i: nat): nat
      requires |log| > 0 && lastIncludedIndex <= i <= GetLastLogIndex()
      reads this
    {
      if i == lastIncludedIndex then lastIncludedTerm else log[i - lastIncludedIndex].term
    }

    method Persist()
      modifies this`disk
      ensures State() == old(State()).Persist()
    {
      var state := Durable(currentTerm, votedFor, log, lastIncludedIndex, lastIncludedTerm);
      disk := Disk(Some(state), disk.snapshot);
    }

    method StepDown(term: nat)
      requires Valid()
      modifies this
      ensures Valid() && State() == old(State()).StepDown(term)
    {
      currentTerm := term;
      role := Follower;
      votedFor := -1;
      Persist();
    }

    // ---------- elections ----------

    method StartElection() returns (args: RequestVoteArgs)
      requires Valid()
      modifies this
      ensures Valid() && State() == Spec.StartElection(old(State()))
      ensures State().Valid() && args == VoteRequest(State())
    {
      currentTerm := currentTerm + 1;
      role := Candidate;
      votedFor := me;
      votes := 1;
      waiting := Others(n, me);
      Persist();
      args := RequestVoteArgs(currentTerm, me, GetLastLogIndex(), GetLastLogTerm());
    }

    method TransitionToLeader()
      requires Valid()
      modifies this`role, nextIndex, matchIndex
      ensures Valid() && State() == Spec.TransitionToLeader(old(State()))
    {
      role := Leader;
      var lastIndex := GetLastLogIndex();
      for i := 0 to n
        invariant Valid() && role == Leader
        invariant forall k | 0 <= k < i :: nextIndex[k] == lastIndex + 1 && matchIndex[k] == 0
      {
        nextIndex[i] := lastIndex + 1;
        matchIndex[i] := 0;
      }
      assert State().nextIndex == Spec.TransitionToLeader(old(State())).nextIndex;
      assert State().matchIndex == Spec.TransitionToLeader(old(State())).matchIndex;
    }

    method RequestVote(args: RequestVoteArgs) returns (reply: RequestVoteReply)
      requires Valid()
      modifies this
      ensures Valid() && (State(), reply) == Spec.RequestVote(old(State()), args)
    {
      reply := RequestVoteReply(currentTerm, false);
      if args.term < currentTerm {
        return;
      }
      if args.term > currentTerm {
        StepDown(args.term);
      }
      var lastLogTerm := GetLastLogTerm();
      var lastLogIndex := GetLastLogIndex();
      var logUpToDate := false;
      if args.lastLogTerm > lastLogTerm {
        logUpToDate := true;
      } else if args.lastLogTerm == lastLogTerm && args.lastLogIndex >= lastLogIndex {
        logUpToDate := true;
      }
      if (votedFor == -1 || votedFor == args.candidateId) && logUpToDate {
        reply := reply.(voteGranted := true);
        votedFor := args.candidateId;
        Persist();
      }
    }

    /** The goroutine that asked q for its vote in the given term handles the reply. */
    method VoteReply(q: nat, term: nat, reply: RequestVoteReply)
      requires Valid()
      modifies this, nextIndex, matchIndex
      ensures Valid() && State() == Spec.VoteReply(old(State()), q, term, reply)
    {
      if role != Candidate || currentTerm != term {
        return;
      }
      waiting := waiting - {q};
      if reply.term > currentTerm {
        StepDown(reply.term);
        return;
      }
      if reply.voteGranted {
        votes := votes + 1;
        if votes > n / 2 {
          TransitionToLeader();
        }
      }
    }

    // ---------- replication: the leader ----------

    method Start(command: Command) returns (index: int, term: nat, isLeader: bool)
      requires Valid()
      modifies this
      ensures Valid() && (State(), index, term, isLeader) == Spec.Start(old(State()), command)
    {
      index := -1;
      term := currentTerm;
      isLeader := role == Leader;
      if isLeader {
        var idx := GetLastLogIndex() + 1;
        log := log + [Entry(term, idx, command)];
        index := idx;
        Persist();
      }
    }

    method AppendRequest(q: nat) returns (args: Option<AppendEntriesArgs>)
      requires Valid() && q < n
      requires role == Leader ==> 1 <= nextIndex[q] <= GetLastLogIndex() + 1
      ensures args == Spec.AppendRequest(State(), q)
    {
      if role != Leader {
        return None;
      }
      var prevLogIndex := nextIndex[q] - 1;
      if prevLogIndex < lastIncludedIndex {
        return None;
      }
      var prevLogTerm := GetLogTerm(prevLogIndex);
      var entries := log[prevLogIndex + 1 - lastIncludedIndex..];
      return Some(AppendEntriesArgs(currentTerm, me, prevLogIndex, prevLogTerm, entries, commitIndex));
    }

    /** How many peers, this one included, are known to hold index k. */
    method CountHolders(k: nat) returns (count: nat)
      requires Valid()
      ensures count == 1 + |Holders(State(), k)|
    {
      count := 1;
      ghost var held: set<nat> := {};
      for q := 0 to n
        invariant held == set p: nat | p < q && p != me && matchIndex[p] >= k
        invariant count == 1 + |held|
      {
        if q != me && matchIndex[q] >= k {
          held := held + {q};
          count := count + 1;
        }
      }
      assert held == Holders(State(), k);
    }

    method AdvanceCommit()
      requires Valid()
      modifies this`commitIndex
      ensures Valid()
      ensures State() == old(State()).(commitIndex := NewCommit(old(State()), old(GetLastLogIndex())))
    {
      ghost var last := GetLastLogIndex();
      var k := GetLastLogIndex();
      while k > commitIndex
        invariant Valid() && 0 <= k <= GetLastLogIndex()
        invariant State() == old(State())
        invariant NewCommit(State(), last) == NewCommit(State(), k)
      {
        if GetLogTerm(k) == currentTerm {
          var count := CountHolders(k);
          if count > n / 2 {
            commitIndex := k;
            return;
          }
        }
        k := k - 1;
      }
    }

    method Advance(q: nat, index: nat)
      requires Valid() && q < n
      modifies nextIndex, matchIndex
      ensures Valid() && State() == Progress(old(State()), q, index)
    {
      if index > matchIndex[q] {
        matchIndex[q] := index;
      }
      nextIndex[q] := matchIndex[q] + 1;
    }

    method AppendReply(q: nat, args: AppendEntriesArgs, reply: AppendEntriesReply)
      requires Valid() && q < n
      modifies this, nextIndex, matchIndex
      ensures Valid() && State() == Spec.AppendReply(old(State()), q, args, reply)
    {
      if role != Leader || currentTerm != args.term {
        return;
      }
      if reply.term > currentTerm {
        StepDown(reply.term);
        return;
      }
      if reply.success {
        Advance(q, args.prevLogIndex + |args.entries|);
        AdvanceCommit();
      } else {
        Rewind(q, reply);
      }
    }

    method Rewind(q: nat, reply: AppendEntriesReply)
      requires Valid() && q < n
      modifies nextIndex
      ensures Valid()
      ensures State() == old(State()).(nextIndex := old(State()).nextIndex[q := Backtrack(old(State()), reply)])
    {
      var next: int;
      if reply.xTerm == -1 {
        next := reply.xLen;
      } else {
        var lastIdxWithTerm := ScanForTerm(reply.xTerm);
        if lastIdxWithTerm != -1 {
          next := lastIdxWithTerm + 1;
        } else {
          next := reply.xIndex;
        }
      }
      if next < 1 {
        next := 1;
      }
      nextIndex[q] := next;
    }

    method ScanForTerm(term: int) returns (found: int)
      requires Valid()
      ensures found == LastWithTerm(State(), GetLastLogIndex(), term)
    {
      var i: int := GetLastLogIndex();
      while i >= lastIncludedIndex
        invariant lastIncludedIndex - 1 <= i <= GetLastLogIndex()
        invariant LastWithTerm(State(), GetLastLogIndex(), term) ==
                  if i < lastIncludedIndex then -1 else LastWithTerm(State(), i, term)
      {
        if GetLogTerm(i) == term {
          return i;
        }
        i := i - 1;
      }
      return -1;
    }

    // ---------- replication: the follower ----------

    method HeedLeader(term: nat)
      requires Valid()
      modifies this
      ensures Valid() && State() == Spec.HeedLeader(old(State()), term)
    {
      if term > currentTerm {
        StepDown(term);
      } else if role == Candidate {
        role := Follower;
      }
    }

    method AppendEntries(args: AppendEntriesArgs) returns (reply: AppendEntriesReply)
      requires Valid()
      modifies this
      ensures Valid() && (State(), reply) == Spec.AppendEntries(old(State()), args)
    {
      var replyTerm := currentTerm;
      if args.term < currentTerm {
        return AppendEntriesReply(replyTerm, false, 0, 0, 0);
      }
      HeedLeader(args.term);
      var lastLogIdx := GetLastLogIndex();
      if args.prevLogIndex > lastLogIdx {
        return AppendEntriesReply(replyTerm, false, -1, -1, lastLogIdx + 1);
      }
      if args.prevLogIndex < lastIncludedIndex {
        return AppendEntriesReply(replyTerm, false, -1, -1, lastIncludedIndex + 1);
      }
      if GetLogTerm(args.prevLogIndex) != args.prevLogTerm {
        var firstIdx := ScanRun(args.prevLogIndex);
        return AppendEntriesReply(replyTerm, false, GetLogTerm(args.prevLogIndex), firstIdx, lastLogIdx + 1);
      }
      ghost var saved := TakeEntries(args);
      lastLogIdx := GetLastLogIndex();
      if args.leaderCommit > commitIndex {
        commitIndex := args.leaderCommit;
        if lastLogIdx < commitIndex {
          commitIndex := lastLogIdx;
        }
      }
      return AppendEntriesReply(replyTerm, true, 0, 0, 0);
    }

    /** The first index of the run of equal terms ending at from. */
    method ScanRun(from: nat) returns (firstIdx: nat)
      requires Valid() && lastIncludedIndex <= from <= GetLastLogIndex()
      ensures firstIdx == FirstOfTerm(State(), from)
    {
      var xTerm := GetLogTerm(from);
      firstIdx := from;
      var i: int := from;
      while i >= lastIncludedIndex
        invariant lastIncludedIndex - 1 <= i <= from
        invariant lastIncludedIndex <= firstIdx <= from
        invariant firstIdx == if i == from then from else i + 1
        invariant GetLogTerm(firstIdx) == xTerm
        invariant FirstOfTerm(State(), from) == FirstOfTerm(State(), firstIdx)
      {
        if GetLogTerm(i) == xTerm {
          firstIdx := i;
        } else {
          break;
        }
        i := i - 1;
      }
    }

    /** One entry of a message: skipped if it is there, otherwise it ends the log from idx on. */
    method TakeEntry(entry: Entry, idx: nat, lastLogIdx: nat)
      requires Valid() && lastLogIdx == GetLastLogIndex() && lastIncludedIndex < idx <= lastLogIdx + 1
      modifies this`log, this`disk
      ensures |log| > 0
      ensures idx <= lastLogIdx && old(GetLogTerm(idx)) == entry.term ==> log == old(log) && disk == old(disk)
      ensures idx > lastLogIdx || old(GetLogTerm(idx)) != entry.term ==>
                && log == old(log)[..idx - lastIncludedIndex] + [entry]
                && disk == Disk(Some(old(State()).SerializeState().(log := log)), old(disk).snapshot)
    {
      if idx <= lastLogIdx {
        if GetLogTerm(idx) != entry.term {
          log := log[..idx - lastIncludedIndex];
          log := log + [entry];
          Persist();
        }
      } else {
        log := log + [entry];
        Persist();
      }
    }

    /** The truncate-and-append loop. It saves after each entry it writes: saved[i] is what the
        persister holds once i entries have been gone through. */
    method TakeEntries(args: AppendEntriesArgs) returns (ghost saved: seq<Disk>)
      requires Valid() && lastIncludedIndex <= args.prevLogIndex <= GetLastLogIndex()
      modifies this`log, this`disk
      ensures Valid() && State() == Spec.TakeEntries(old(State()), args)
      ensures |saved| == |args.entries| + 1 && Images(old(State()), args, saved)
    {
      hide Matched, Spec.TakeEntries, Images;
      ghost var was := State();
      ghost var k := Matched(log, args.prevLogIndex + 1 - lastIncludedIndex, args.entries, 0);
      var lastLogIdx := GetLastLogIndex();
      TakeFirst(was, args, k, 0);
      saved := [disk];
      FirstImage(was, args);
      for i := 0 to |args.entries|
        invariant |log| > 0 && lastLogIdx == GetLastLogIndex()
        invariant State() == Spec.TakeEntries(was, First(args, i))
        invariant |saved| == i + 1 && Images(was, args, saved)
      {
        OneEntryMore(was, args, k, i);
        TakeEntry(args.entries[i], args.prevLogIndex + 1 + i, lastLogIdx);
        lastLogIdx := GetLastLogIndex();
        ImagesMore(was, args, saved, disk);
        saved := saved + [disk];
      }
      assert First(args, |args.entries|) == args;
    }

    // ---------- snapshots ----------

    method SnapshotRequest() returns (args: InstallSnapshotArgs)
      ensures args == Spec.SnapshotRequest(State())
    {
      return InstallSnapshotArgs(currentTerm, me, lastIncludedIndex, lastIncludedTerm, disk.snapshot);
    }

    method InstallSnapshot(args: InstallSnapshotArgs) returns (reply: InstallSnapshotReply)
      requires Valid()
      modifies this
      ensures Valid() && (State(), reply) == Spec.InstallSnapshot(old(State()), args)
    {
      reply := InstallSnapshotReply(currentTerm);
      if args.term < currentTerm {
        return;
      }
      HeedLeader(args.term);
      InstallInTerm(args);
    }

    /** The log from position d on, with its first cell overwritten. */
    method Reslice(d: nat, base: Entry)
      requires d < |log|
      modifies this`log
      ensures log == [base] + old(log)[d + 1..]
    {
      log := log[d..];
      log := log[0 := base];
    }

    /** commitIndex and lastApplied do not stay behind the snapshot. */
    method RaiseTo(index: nat)
      modifies this`commitIndex, this`lastApplied
      ensures commitIndex == if old(commitIndex) < index then index else old(commitIndex)
      ensures lastApplied == if old(lastApplied) < index then index else old(lastApplied)
    {
      if commitIndex < index {
        commitIndex := index;
      }
      if lastApplied < index {
        lastApplied := index;
      }
    }

    /** What is left of the log after a snapshot: the entries past it if it has the snapshot's last
        entry, else none. */
    method CutLog(args: InstallSnapshotArgs)
      requires Valid() && lastIncludedIndex < args.lastIncludedIndex
      modifies this`log
      ensures var was, base := old(State()), Entry(args.lastIncludedTerm, args.lastIncludedIndex, NoCommand);
              log == if was.InLog(args.lastIncludedIndex) && was.GetLogTerm(args.lastIncludedIndex) == args.lastIncludedTerm
                     then [base] + was.log[args.lastIncludedIndex - was.lastIncludedIndex + 1..]
                     else [base]
    {
      var base := Entry(args.lastIncludedTerm, args.lastIncludedIndex, NoCommand);
      var lastLogIdx := GetLastLogIndex();
      if args.lastIncludedIndex <= lastLogIdx && GetLogTerm(args.lastIncludedIndex) == args.lastIncludedTerm {
        Reslice(args.lastIncludedIndex - lastIncludedIndex, base);
      } else {
        log := [base];
      }
    }

    method InstallInTerm(args: InstallSnapshotArgs)
      requires Valid()
      modifies this
      ensures Valid() && State() == Spec.InstallInTerm(old(State()), args)
    {
      if args.lastIncludedIndex <= lastIncludedIndex {
        return;
      }
      CutLog(args);
      lastIncludedIndex := args.lastIncludedIndex;
      lastIncludedTerm := args.lastIncludedTerm;
      RaiseTo(args.lastIncludedIndex);
      disk := Disk(Some(Durable(currentTerm, votedFor, log, lastIncludedIndex, lastIncludedTerm)), args.data);
      pending := Some(RaftPeer.Snapshot(args.lastIncludedIndex, args.lastIncludedTerm, args.data));
    }

    method SnapshotReply(q: nat, args: InstallSnapshotArgs, reply: InstallSnapshotReply)
      requires Valid() && q < n
      modifies this, nextIndex, matchIndex
      ensures Valid() && State() == Spec.SnapshotReply(old(State()), q, args, reply)
    {
      if role != Leader || currentTerm != args.term {
        return;
      }
      if reply.term > currentTerm {
        StepDown(reply.term);
        return;
      }
      Advance(q, args.lastIncludedIndex);
    }

    /** The service hands over its state as of index. */
    method Snapshot(index: nat, data: GroupState)
      requires Valid() && index <= commitIndex && index <= GetLastLogIndex()
      modifies this
      ensures Valid() && State() == Compact(old(State()), index, data)
    {
      if index <= lastIncludedIndex {
        return;
      }
      var term := GetLogTerm(index);
      Reslice(index - lastIncludedIndex, Entry(term, index, NoCommand));
      lastIncludedIndex := index;
      lastIncludedTerm := term;
      disk := Disk(Some(Durable(currentTerm, votedFor, log, lastIncludedIndex, lastIncludedTerm)), Some(data));
    }

    // ---------- the applier ----------

    /** One round of the applier: what it takes out under the mutex, to be sent afterwards. */
    method ApplierRound() returns (msgs: seq<ApplyMsg>)
      requires Valid() && commitIndex <= GetLastLogIndex()
      modifies this`lastApplied, this`pending
      ensures Valid() && (State(), msgs) == Apply(old(State()))
    {
      if pending.Some? {
        msgs := [SnapshotMsg(pending.value)];
        pending := None;
        return;
      }
      msgs := CollectBatch();
    }

    method CollectBatch() returns (msgs: seq<ApplyMsg>)
      requires Valid() && commitIndex <= GetLastLogIndex()
      modifies this`lastApplied
      ensures lastApplied == if old(lastApplied) < commitIndex then commitIndex else old(lastApplied)
      ensures msgs == Batch(old(State()), old(lastApplied))
    {
      msgs := [];
      ghost var was := State();
      ghost var all := Batch(was, lastApplied);
      while lastApplied < commitIndex
        invariant lastApplied <= commitIndex || lastApplied == was.lastApplied
        invariant msgs + Batch(was, lastApplied) == all
      {
        ghost var rest := Batch(was, lastApplied + 1);
        lastApplied := lastApplied + 1;
        var idx := lastApplied;
        if idx <= lastIncludedIndex {
          continue;
        }
        var entry := log[idx - lastIncludedIndex];
        assert msgs + ([CommandMsg(entry.command, idx)] + rest) == (msgs + [CommandMsg(entry.command, idx)]) + rest;
        msgs := msgs + [CommandMsg(entry.command, idx)];
      }
      assert msgs + [] == msgs;
    }
  }
}
