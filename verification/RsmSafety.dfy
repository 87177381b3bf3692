// Runs of the replicated state machine: one log behind every replica, and linearizable Submits.
module RsmSafety {
  import opened Core
  import opened RaftTypes
  import opened RaftPeer
  import opened Cluster
  import P = Protocol
  import opened ProtocolProof
  import opened ClusterInvariant
  import opened ElectionProof
  import opened ShardGroup
  import opened Rsm
  import opened RsmProof
  import Safety = RaftSafety

  // ---------- the remaining events ----------

  /** What a call proposed never changes once Start has placed it. */
  ghost predicate SameCall(c: Call, c': Call) {
    c'.node == c.node && c'.payload == c.payload && c'.index == c.index && c'.term == c.term
  }

  lemma SameCallSameResult(a: P.State, id: int, c: Call, c': Call)
    requires SameCall(c, c')
    ensures forall rep {:trigger ResultOk(a, id, c', rep)} :: ResultOk(a, id, c, rep) ==> ResultOk(a, id, c', rep)
  {
  }

  /** Whatever the reader sends to a waiting Submit is sound. */
  lemma SignalKeepsCalls(a: P.State, s: System, ids: set<int>, r: SubResult)
    requires CallsOk(a, s)
    requires r.id >= 0 && r.id in s.calls ==> r.rep.Some? && ResultOk(a, r.id, s.calls[r.id], r.rep.value)
    ensures CallsOk(a, s.(calls := Signal(s.calls, ids, r)))
    ensures SameProposals(s.calls, Signal(s.calls, ids, r))
  {
    hide ResultOk;
    var calls := Signal(s.calls, ids, r);
    forall id | id in calls ensures SlotOk(a, id, calls[id]) {
      assert SlotOk(a, id, s.calls[id]);
      SameCallSameResult(a, id, s.calls[id], calls[id]);
    }
    forall id | id in s.results ensures id in calls && ResultOk(a, id, calls[id], s.results[id]) {
      assert ResultOk(a, id, s.calls[id], s.results[id]);
      SameCallSameResult(a, id, s.calls[id], calls[id]);
    }
  }

  lemma ReadKeepsCalls(s: System, a: P.State, p: nat)
    requires SystemOk(s, a) && p < a.n && |s.readers[p].channel| > 0 && ValidGroup(s.readers[p].sm)
    ensures CallsOk(a, s.(calls := Read(s.readers[p], s.calls).1))
    ensures SameProposals(s.calls, Read(s.readers[p], s.calls).1)
  {
    var r := s.readers[p];
    match r.channel[0]
    case CommandMsg(NoCommand, _) =>
    case CommandMsg(Submitted(id, payload), index) =>
      HeadResult(s, a, p, id, payload, index);
      SignalKeepsCalls(a, s, Waiting(r, index), SubResult(id, Some(DoOp(r.sm, payload).1)));
    case SnapshotMsg(snap) =>
      SignalKeepsCalls(a, s, WaitingUpTo(r, snap.index), SubResult(-1, None));
  }

  lemma ReadKeeps(s: System, a: P.State, p: nat, s': System)
    requires SystemOk(s, a) && Next(s, ReaderTake(p), s')
    ensures SystemOk(s', a)
  {
    ReadKeepsCalls(s, a, p);
    SameProposalsKeepIds(a, s.calls, s'.calls);
    assert ReplicaOk(a, s, p);
    ReadKeepsStream(s.readers[p], s.calls, s.c.peers[p], a.log[p]);
    forall i: nat | i < a.n ensures ReplicaOk(a, s', i) {
      assert ReplicaOk(a, s, i);
    }
  }

  lemma SendKeeps(s: System, a: P.State, p: nat, s': System)
    requires SystemOk(s, a) && Next(s, ApplierSend(p), s')
    ensures SystemOk(s', a)
  {
    assert ReplicaOk(a, s, p);
    SendKeepsStream(s.readers[p], s.c.peers[p], a.log[p]);
    forall i: nat | i < a.n ensures ReplicaOk(a, s', i) {
      assert ReplicaOk(a, s, i);
    }
    CallsOkSame(a, s, s');
  }

  lemma CallsOkSame(a: P.State, s: System, s': System)
    requires CallsOk(a, s) && s'.calls == s.calls && s'.results == s.results
    ensures CallsOk(a, s')
  {
  }

  /** The stream of a peer as seen after a step that keeps its applied prefix. */
  lemma StreamCarriedOver(s: System, a: P.State, step: Step, c': Cluster, a': P.State)
    requires SystemOk(s, a) && Transition(s.c, step, c') && ClusterOk(c', a') && Moves(a, a', Actor(step))
    ensures var i := Actor(step);
            i < |s.readers| && i < a'.n && StreamOk(s.readers[i], s.c.peers[i], a'.log[i])
  {
    var i := Actor(step);
    assert NodeOk(a, i, s.c.peers[i]) && ReplicaOk(a, s, i);
    AppliedPrefixKept(a, a', i, s.c.peers[i]);
    StreamAgree(s.readers[i], s.c.peers[i], a.log[i], a'.log[i]);
  }

  /** A step of Raft together with an update of its actor's reader. */
  lemma JointStep(s: System, a: P.State, step: Step, a': P.State, r': Reader, calls': map<int, Call>, s': System)
    requires SystemOk(s, a) && Transition(s.c, step, s'.c) && ClusterOk(s'.c, a') && Moves(a, a', Actor(step))
    requires Actor(step) < |s.readers|
    requires s' == s.(c := s'.c, readers := s.readers[Actor(step) := r'], calls := calls')
    requires StreamOk(r', s'.c.peers[Actor(step)], a'.log[Actor(step)])
    requires IdsOk(a', calls') && CallsOk(a', s')
    ensures SystemOk(s', a')
  {
    RaftStepFrame(s, a, step, s'.c, a');
    forall i: nat | i < a'.n ensures ReplicaOk(a', s', i) {
      if i != Actor(step) {
        assert ReplicaOk(a', s.(c := s'.c), i);
      }
    }
  }

  lemma TakeKeeps(s: System, a: P.State, p: nat, s': System) returns (a': P.State)
    requires SystemOk(s, a) && Next(s, ApplierTake(p), s')
    ensures SystemOk(s', a') && Grows(a, a')
  {
    hide Grows, CallsOk, IdsOk;
    var step := ApplierRound(p);
    var x := s.c.peers[p];
    a' := Safety.StepOk(s.c, a, step, s'.c);
    StreamCarriedOver(s, a, step, s'.c, a');
    QuietKeepsIds(a, a', s.calls);
    RaftStepFrame(s, a, step, s'.c, a');
    CallsOkSame(a', s, s');
    var r' := s.readers[p].(outbox := Apply(x).1);
    assert NodeOk(a', p, s'.c.peers[p]) && NodeOk(a, p, x) && P.PeerOk(a', p);
    AppliedRefines(x, a'.log[p]);
    forall k: nat | 0 < k < |a'.log[p]| ensures a'.log[p][k].command.Submitted? {
      EntryIsSubmitted(a', s.calls, a'.log[p], a'.term[p], k);
    }
    TakeKeepsStream(s.readers[p], x, a'.log[p]);
    JointStep(s, a, step, a', r', s.calls, s');
  }

  lemma AppliedRefines(x: Peer, G: Log)
    requires x.Valid() && x.commitIndex <= x.GetLastLogIndex() && Refines(Apply(x).0, G)
    ensures Refines(x, G)
  {
  }

  lemma CompactDefined(a: P.State, p: nat, x: Peer, step: Step, c: Cluster)
    requires Enabled(c, step) && Defined(c, step)
    requires step.ServiceSnapshot? && step.p == p < |c.peers| && c.peers[p] == x && NodeOk(a, p, x)
    ensures x.Valid() && step.index <= x.commitIndex <= x.GetLastLogIndex()
  {
    RefinesLast(x, a.log[p]);
  }

  lemma CompactKeeps(s: System, a: P.State, p: nat, full: bool, s': System) returns (a': P.State)
    requires SystemOk(s, a) && Next(s, ReaderCompact(p, full), s')
    ensures SystemOk(s', a') && Grows(a, a')
  {
    if full {
      a' := SnapshotKeeps(s, a, p, s');
    } else {
      a' := a;
      NoSnapshotKeeps(s, a, p, s');
    }
  }

  lemma SnapshotKeeps(s: System, a: P.State, p: nat, s': System) returns (a': P.State)
    requires SystemOk(s, a) && Next(s, ReaderCompact(p, true), s')
    ensures SystemOk(s', a') && Grows(a, a')
  {
    hide Grows, CallsOk, IdsOk;
    var r, x := s.readers[p], s.c.peers[p];
    var step := ServiceSnapshot(p, r.lastApplied, r.sm);
    a' := Safety.StepOk(s.c, a, step, s'.c);
    StreamCarriedOver(s, a, step, s'.c, a');
    QuietKeepsIds(a, a', s.calls);
    RaftStepFrame(s, a, step, s'.c, a');
    CallsOkSame(a', s, s');
    CompactDefined(a, p, x, step, s.c);
    CompactKeepsStream(r, x, a'.log[p]);
    JointStep(s, a, step, a', r.(compacting := false), s.calls, s');
  }

  lemma NoSnapshotKeeps(s: System, a: P.State, p: nat, s': System)
    requires SystemOk(s, a) && Next(s, ReaderCompact(p, false), s')
    ensures SystemOk(s', a) && Grows(a, a)
  {
    forall i: nat | i < a.n ensures ReplicaOk(a, s', i) {
      assert ReplicaOk(a, s, i);
      assert Queue(s'.readers[i], s.c.peers[i]) == Queue(s.readers[i], s.c.peers[i]);
    }
    CallsOkSame(a, s, s');
  }

  lemma RebootStream(a: P.State, p: nat, x: Peer)
    requires NodeOk(a, p, x) && x == Make(x.me, x.n, x.disk) && x.lastIncludedIndex == 0
    ensures StreamOk(NewReader(), x, a.log[p])
  {
    RebootKeepsStream(x, a.log[p]);
  }

  lemma RebootKeepsCalls(s: System, a: P.State, a': P.State, p: nat, s': System)
    requires CallsOk(a, s) && IdsOk(a, s.calls) && Grows(a, a') && Quiet(a, a') && s'.results == s.results
    requires s'.calls == map i | i in s.calls ::
               if s.calls[i].node == p then s.calls[i].(done := true) else s.calls[i]
    ensures CallsOk(a', s') && IdsOk(a', s'.calls)
  {
    QuietKeepsIds(a, a', s.calls);
    CallsGrow(a, a', s);
    EndedKeepsCalls(a', s, p, s');
    SameProposalsKeepIds(a', s.calls, s'.calls);
  }

  lemma RebootKeeps(s: System, a: P.State, step: Step, s': System) returns (a': P.State)
    requires SystemOk(s, a) && Next(s, Reboot(step), s') && Replays(s, Reboot(step))
    ensures SystemOk(s', a') && Grows(a, a')
  {
    hide Grows, StreamOk, Make, Interrupted;
    var p := Actor(step);
    a' := Safety.StepOk(s.c, a, step, s'.c);
    assert NodeOk(a, p, s.c.peers[p]) && NodeOk(a', p, s'.c.peers[p]);
    Safety.RebootBase(a, p, s.c.peers[p], s.c, step);
    RebootStream(a', p, s'.c.peers[p]);
    RebootKeepsCalls(s, a, a', p, s');
    JointStep(s, a, step, a', NewReader(), s'.calls, s');
  }

  lemma EndedKeepsCalls(a: P.State, s: System, p: nat, s': System)
    requires CallsOk(a, s) && s'.results == s.results
    requires s'.calls == map i | i in s.calls ::
               if s.calls[i].node == p then s.calls[i].(done := true) else s.calls[i]
    ensures CallsOk(a, s')
  {
    forall id | id in s'.calls ensures SlotOk(a, id, s'.calls[id]) {
      assert SlotOk(a, id, s.calls[id]);
      SameCallSameResult(a, id, s.calls[id], s'.calls[id]);
    }
    forall id | id in s'.results ensures id in s'.calls && ResultOk(a, id, s'.calls[id], s'.results[id]) {
      assert ResultOk(a, id, s.calls[id], s.results[id]);
      SameCallSameResult(a, id, s.calls[id], s'.calls[id]);
    }
  }

  /** Every event keeps the system invariant, over a growing history. */
  lemma EventKeeps(s: System, a: P.State, e: Event, s': System) returns (a': P.State)
    requires SystemOk(s, a) && Next(s, e, s') && Replays(s, e)
    ensures SystemOk(s', a') && Grows(a, a')
  {
    a' := a;
    match e
    case Raft(step) => a' := RaftKeeps(s, a, step, s');
    case Submit(p, id, payload) => a' := SubmitKeeps(s, a, p, id, payload, s');
    case Register(id) => CallsOkSame(a, s, s'); QuietEvent(s, a, s');
    case Return(id) => FinishKeeps(s, a, id, s');
    case GiveUp(id) => FinishKeeps(s, a, id, s');
    case ApplierTake(p) => a' := TakeKeeps(s, a, p, s');
    case ApplierSend(p) => SendKeeps(s, a, p, s');
    case ReaderTake(p) => ReadKeeps(s, a, p, s');
    case ReaderCompact(p, full) => a' := CompactKeeps(s, a, p, full, s');
    case Reboot(step) => a' := RebootKeeps(s, a, step, s');
  }

  // ---------- runs ----------

  lemma StartOk0(s: System) returns (a: P.State)
    requires Start0(s)
    ensures SystemOk(s, a) && Grows(a, a)
  {
    a := Safety.InitialOk(s.c);
    forall i: nat | i < a.n ensures ReplicaOk(a, s, i) {
      assert NodeOk(a, i, s.c.peers[i]);
      assert Queue(s.readers[i], s.c.peers[i]) == [];
    }
  }

  /** The protocol states behind the states of a run. */
  ghost predicate Explains(ss: seq<System>, hs: seq<P.State>) {
    && |hs| == |ss|
    && (forall k: nat {:trigger SystemOk(ss[k], hs[k])} | k < |ss| :: SystemOk(ss[k], hs[k]))
    && (forall j: nat, k: nat {:trigger Grows(hs[j], hs[k])} | j <= k < |hs| :: Grows(hs[j], hs[k]))
  }

  lemma {:induction false} RunExplained(ss: seq<System>, es: seq<Event>) returns (hs: seq<P.State>)
    requires Rsm.Run(ss, es)
    ensures Explains(ss, hs)
    decreases |es|
  {
    hide Next, Replays, Start0, SystemOk, Grows;
    if es == [] {
      var a := StartOk0(ss[0]);
      hs := [a];
    } else {
      var n := |es| - 1;
      var ss0, es0 := ss[..n + 1], es[..n];
      forall k: nat | k < n ensures Next(ss0[k], es0[k], ss0[k + 1]) && Replays(ss0[k], es0[k]) {
        assert Next(ss[k], es[k], ss[k + 1]);
      }
      var hs0 := RunExplained(ss0, es0);
      assert SystemOk(ss0[n], hs0[n]);
      assert Next(ss[n], es[n], ss[n + 1]);
      var a := EventKeeps(ss[n], hs0[n], es[n], ss[n + 1]);
      GrowsSelf(ss[n + 1], a);
      hs := hs0 + [a];
      ExplainsMore(ss, hs0, a);
    }
  }

  lemma GrowsSelf(s: System, a: P.State)
    requires SystemOk(s, a)
    ensures Grows(a, a)
  {
  }

  lemma ExplainsMore(ss: seq<System>, hs: seq<P.State>, a: P.State)
    requires |ss| == |hs| + 1 && |hs| > 0 && Explains(ss[..|hs|], hs)
    requires SystemOk(ss[|hs|], a) && Grows(hs[|hs| - 1], a) && Grows(a, a)
    ensures Explains(ss, hs + [a])
  {
    hide SystemOk, Grows;
    var n := |hs|;
    var hs' := hs + [a];
    forall k: nat | k < |ss| ensures SystemOk(ss[k], hs'[k]) {
      assert k < n ==> SystemOk(ss[..n][k], hs[k]);
    }
    forall j: nat, k: nat | j <= k <= n ensures Grows(hs'[j], hs'[k]) {
      if j < n {
        assert Grows(hs[j], hs[if k < n then k else n - 1]);
        if k == n {
          GrowsTransitive(hs[j], hs[n - 1], a);
        }
      }
    }
  }

  // ---------- one log behind a whole run ----------

  lemma {:induction false} Highest(ts: set<nat>) returns (top: nat)
    requires ts != {}
    ensures top in ts && forall t | t in ts :: t <= top
  {
    top :| top in ts;
    var rest := ts - {top};
    assert forall t | t in ts :: t == top || t in rest;
    if rest != {} {
      var t := Highest(rest);
      top := if t > top then t else top;
    }
  }

  /** The leader log of the highest term holds every prefix committed so far. */
  lemma LatestLog(a: P.State) returns (L: Log, top: nat)
    requires P.Inv(a)
    ensures top in a.reigns && L == a.reigns[top].log && P.WfLog(a, L, top)
    ensures forall G: Log, m: nat, b: nat {:trigger P.CommittedTo(a, G, m, b)} ::
              P.CommittedTo(a, G, m, b) ==> Agree(G, L, m)
  {
    top := Highest(a.reigns.Keys);
    L := a.reigns[top].log;
    assert P.ReignOk(a, top);
    forall G: Log, m: nat, b: nat | P.CommittedTo(a, G, m, b) ensures Agree(G, L, m) {
      var t: nat, i: nat :| t <= b && m <= i && P.Committed(a, t, i) && Agree(G, a.reigns[t].log, m);
      if t < top {
        P.LeaderCompleteness(a, t, i, top);
      }
    }
  }

  /** The reply a Submit returned is that of its own operation, which stands in L exactly once, at
      the index Start gave it, applied to the state after everything before it. */
  ghost predicate OwnResult(L: Log, s: System, id: int) {
    && id in s.results && id in s.calls
    && var c := s.calls[id];
       && 0 < c.index < |L|
       && L[c.index].command == Submitted(id, c.payload)
       && L[c.index].term == c.term
       && s.results[id] == DoOp(Fold(L, c.index - 1), c.payload).1
       && forall i: nat {:trigger L[i]} | i < |L| && L[i].command.Submitted? && L[i].command.id == id :: i == c.index
  }

  lemma OwnResultIn(s: System, a: P.State, a': P.State, L: Log, top: nat, id: int, calls: map<int, Call>)
    requires SystemOk(s, a) && Grows(a, a') && id in s.results && id in calls
    requires id in s.calls && SameCall(s.calls[id], calls[id]) && IdsOk(a', calls)
    requires P.Inv(a') && P.WfLog(a', L, top)
    requires forall G: Log, m: nat, b: nat {:trigger P.CommittedTo(a', G, m, b)} ::
               P.CommittedTo(a', G, m, b) ==> Agree(G, L, m)
    ensures OwnResult(L, s, id)
  {
    var c := s.calls[id];
    assert ResultOk(a, id, c, s.results[id]);
    ResultGrows(a, a', id, c, s.results[id]);
    var R := a'.reigns[c.term].log;
    var b: nat :| P.CommittedTo(a', R, c.index + 1, b);
    FoldAgree(R, L, c.index - 1);
    forall i: nat | i < |L| && L[i].command.Submitted? && L[i].command.id == id ensures i == c.index {
      if i > 0 {
        EntryIsSubmitted(a', calls, L, top, i);
      }
    }
    EntryIsSubmitted(a', calls, L, top, c.index);
  }

  lemma StreamIn(s: System, a: P.State, a': P.State, L: Log, p: nat)
    requires SystemOk(s, a) && Grows(a, a') && p < a.n
    requires forall G: Log, m: nat, b: nat {:trigger P.CommittedTo(a', G, m, b)} ::
               P.CommittedTo(a', G, m, b) ==> Agree(G, L, m)
    ensures p < |s.readers| && p < |s.c.peers| && StreamOk(s.readers[p], s.c.peers[p], L)
  {
    var x := s.c.peers[p];
    assert NodeOk(a, p, x) && ReplicaOk(a, s, p);
    CommittedToGrows(a, a', a.log[p], x.commitIndex + 1, x.currentTerm, x.currentTerm);
    StreamAgree(s.readers[p], x, a.log[p], L);
  }

  // ---------- calls over a run ----------

  lemma EventKeepsCall(s: System, e: Event, s': System, id: int)
    requires Next(s, e, s') && id in s.calls
    ensures id in s'.calls && SameCall(s.calls[id], s'.calls[id])
    ensures id in s.results ==> id in s'.results
  {
  }

  lemma {:induction false} RunKeepsCall(ss: seq<System>, es: seq<Event>, j: nat, k: nat, id: int)
    requires Rsm.Run(ss, es) && j <= k < |ss| && id in ss[j].calls
    ensures id in ss[k].calls && SameCall(ss[j].calls[id], ss[k].calls[id])
    ensures id in ss[j].results ==> id in ss[k].results
    decreases k - j
  {
    if j < k {
      assert Next(ss[j], es[j], ss[j + 1]);
      EventKeepsCall(ss[j], es[j], ss[j + 1], id);
      RunKeepsCall(ss, es, j + 1, k, id);
    }
  }

  // ---------- the theorems ----------

  /** Replica p's state is the fold of L up to its position, and what is queued for its reader
      continues that position without gap or repetition. */
  ghost predicate Follows(L: Log, s: System, p: nat) {
    p < |s.readers| ==> p < |s.c.peers| && StreamOk(s.readers[p], s.c.peers[p], L)
  }

  ghost predicate ShowsOnly(L: Log, s: System, p: nat, i: nat) {
    p < |s.c.peers| && Safety.ShowsCommitted(s.c.peers[p], i) ==>
      i < |L| && s.c.peers[p].GetLogEntry(i) == L[i]
  }

  /** Whatever stands in L at or before an operation that has returned has been submitted by now. */
  ghost predicate Precedes(L: Log, s: System, id: int) {
    id in s.calls && forall i: nat {:trigger L[i]} | 0 < i <= s.calls[id].index && i < |L| ::
      L[i].command.Submitted? && L[i].command.id in s.calls
  }

  /** Every replica, every committed entry a peer shows, and every result returned is L's, and L
      respects the order of returns before submissions. */
  ghost predicate Explained(L: Log, s: System) {
    && (forall p: nat {:trigger Follows(L, s, p)} :: Follows(L, s, p))
    && (forall p: nat, i: nat {:trigger ShowsOnly(L, s, p, i)} :: ShowsOnly(L, s, p, i))
    && (forall id {:trigger OwnResult(L, s, id)} | id in s.results :: OwnResult(L, s, id))
    && (forall id {:trigger Precedes(L, s, id)} | id in s.results :: Precedes(L, s, id))
  }

  /** Every entry of L is an operation some Submit placed there, and so stands there only once. */
  ghost predicate Proposed(L: Log, calls: map<int, Call>) {
    forall i: nat {:trigger L[i]} | 0 < i < |L| ::
      && L[i].command.Submitted?
      && L[i].command.id in calls
      && var c := calls[L[i].command.id];
         c.payload == L[i].command.payload && c.index == i && c.term == L[i].term
  }

  /** One log explains a whole run, at every moment of it. It does not matter whether a replica got
      where it is by commands, by another peer's snapshot, or by a mix. */
  lemma OneLog(ss: seq<System>, es: seq<Event>) returns (L: Log)
    requires Rsm.Run(ss, es)
    ensures forall k: nat {:trigger Explained(L, ss[k])} | k < |ss| :: Explained(L, ss[k])
    ensures Proposed(L, ss[|es|].calls)
  {
    hide Next, Replays, Start0, Grows, Explained, SystemOk, Proposed;
    var hs := RunExplained(ss, es);
    var n := |es|;
    assert SystemOk(ss[n], hs[n]);
    SystemInv(ss[n], hs[n]);
    var top;
    L, top := LatestLog(hs[n]);
    forall k: nat | k < |ss| ensures Explained(L, ss[k]) {
      assert SystemOk(ss[k], hs[k]) && Grows(hs[k], hs[n]);
      forall id | id in ss[k].calls ensures id in ss[n].calls && SameCall(ss[k].calls[id], ss[n].calls[id]) {
        RunKeepsCall(ss, es, k, n, id);
      }
      StateExplained(ss[k], hs[k], hs[n], L, top, ss[n].calls);
    }
    AllProposed(hs[n], ss[n].calls, L, top);
  }

  lemma AllProposed(a: P.State, calls: map<int, Call>, L: Log, top: nat)
    requires P.Inv(a) && IdsOk(a, calls) && P.WfLog(a, L, top)
    ensures Proposed(L, calls)
  {
    forall i: nat | 0 < i < |L|
      ensures L[i].command.Submitted? && L[i].command.id in calls
      ensures var c := calls[L[i].command.id];
              c.payload == L[i].command.payload && c.index == i && c.term == L[i].term
    {
      EntryIsSubmitted(a, calls, L, top, i);
    }
  }

  lemma SystemInv(s: System, a: P.State)
    requires SystemOk(s, a)
    ensures P.Inv(a) && IdsOk(a, s.calls)
  {
  }

  lemma StateExplained(s: System, a: P.State, a': P.State, L: Log, top: nat, calls: map<int, Call>)
    requires SystemOk(s, a) && Grows(a, a') && P.Inv(a') && P.WfLog(a', L, top) && IdsOk(a', calls)
    requires forall G: Log, m: nat, b: nat {:trigger P.CommittedTo(a', G, m, b)} ::
               P.CommittedTo(a', G, m, b) ==> Agree(G, L, m)
    requires forall id {:trigger s.calls[id]} | id in s.calls :: id in calls && SameCall(s.calls[id], calls[id])
    ensures Explained(L, s)
  {
    hide Grows, StreamOk;
    forall p: nat ensures Follows(L, s, p) {
      if p < |s.readers| {
        StreamIn(s, a, a', L, p);
      }
    }
    forall p: nat, i: nat ensures ShowsOnly(L, s, p, i) {
      if p < |s.c.peers| && Safety.ShowsCommitted(s.c.peers[p], i) {
        ShownIn(s, a, a', L, p, i);
      }
    }
    forall id | id in s.results ensures OwnResult(L, s, id) {
      assert ResultOk(a, id, s.calls[id], s.results[id]);
      OwnResultIn(s, a, a', L, top, id, calls);
    }
    forall id | id in s.results ensures Precedes(L, s, id) {
      assert ResultOk(a, id, s.calls[id], s.results[id]);
      PrecedesIn(s, a, a', L, id);
    }
  }

  /** Every operation at or before one that has returned was submitted before that return. */
  lemma UpToResultKnown(s: System, a: P.State, a': P.State, L: Log, id: int, i: nat)
    requires SystemOk(s, a) && Grows(a, a') && id in s.calls && id in s.results
    requires ResultOk(a, id, s.calls[id], s.results[id])
    requires forall G: Log, m: nat, b: nat {:trigger P.CommittedTo(a', G, m, b)} ::
               P.CommittedTo(a', G, m, b) ==> Agree(G, L, m)
    ensures 0 < i <= s.calls[id].index ==>
              i < |L| && L[i].command.Submitted? && L[i].command.id in s.calls
  {
    var c := s.calls[id];
    if 0 < i <= c.index {
      var R := a.reigns[c.term].log;
      var b: nat :| P.CommittedTo(a, R, c.index + 1, b);
      CommittedToGrows(a, a', R, c.index + 1, b, b);
      assert P.ReignOk(a, c.term);
      EntryIsSubmitted(a, s.calls, R, c.term, i);
    }
  }

  lemma PrecedesIn(s: System, a: P.State, a': P.State, L: Log, id: int)
    requires SystemOk(s, a) && Grows(a, a') && id in s.calls && id in s.results
    requires ResultOk(a, id, s.calls[id], s.results[id])
    requires forall G: Log, m: nat, b: nat {:trigger P.CommittedTo(a', G, m, b)} ::
               P.CommittedTo(a', G, m, b) ==> Agree(G, L, m)
    ensures Precedes(L, s, id)
  {
    hide SystemOk, Grows, ResultOk;
    forall i: nat | 0 < i <= s.calls[id].index && i < |L|
      ensures L[i].command.Submitted? && L[i].command.id in s.calls
    {
      UpToResultKnown(s, a, a', L, id, i);
    }
  }

  lemma ShownIn(s: System, a: P.State, a': P.State, L: Log, p: nat, i: nat)
    requires SystemOk(s, a) && Grows(a, a') && p < a.n && Safety.ShowsCommitted(s.c.peers[p], i)
    requires forall G: Log, m: nat, b: nat {:trigger P.CommittedTo(a', G, m, b)} ::
               P.CommittedTo(a', G, m, b) ==> Agree(G, L, m)
    ensures i < |L| && s.c.peers[p].GetLogEntry(i) == L[i]
  {
    var x := s.c.peers[p];
    assert NodeOk(a, p, x);
    CommittedToGrows(a, a', a.log[p], x.commitIndex + 1, x.currentTerm, x.currentTerm);
    assert x.log[i - x.lastIncludedIndex] == a.log[p][i];
  }

  /** Replicas never diverge: wherever two replicas stand at the same position, at any two moments
      of a run, their states are equal. */
  lemma ReplicasNeverDiverge(ss: seq<System>, es: seq<Event>, j: nat, k: nat, p: nat, q: nat)
    requires Rsm.Run(ss, es) && j < |ss| && k < |ss| && p < |ss[j].readers| && q < |ss[k].readers|
    requires ss[j].readers[p].lastApplied == ss[k].readers[q].lastApplied
    ensures ss[j].readers[p].sm == ss[k].readers[q].sm
  {
    var L := OneLog(ss, es);
    assert Explained(L, ss[j]) && Explained(L, ss[k]);
    assert Follows(L, ss[j], p) && Follows(L, ss[k], q);
  }

  /** The apply stream has no gap and no repetition: a command reaching the reader is the next one,
      and a snapshot that is not ahead of the reader is ignored. */
  lemma NextCommandFollows(ss: seq<System>, es: seq<Event>, k: nat, p: nat)
    requires Rsm.Run(ss, es) && k < |ss| && p < |ss[k].readers| && |ss[k].readers[p].channel| > 0
    ensures var r := ss[k].readers[p];
            && ValidGroup(r.sm)
            && (r.channel[0].CommandMsg? ==> r.channel[0].index == r.lastApplied + 1 && r.channel[0].command.Submitted?)
            && (r.channel[0].SnapshotMsg? && r.channel[0].snapshot.index <= r.lastApplied ==>
                  Read(r, ss[k].calls) == (r.(channel := r.channel[1..]), ss[k].calls))
            && r.lastApplied <= Read(r, ss[k].calls).0.lastApplied
  {
    var L := OneLog(ss, es);
    var r := ss[k].readers[p];
    assert Explained(L, ss[k]) && Follows(L, ss[k], p);
    assert Queue(r, ss[k].c.peers[p])[0] == r.channel[0];
  }

  /** The reader may always snapshot: Raft accepts the index it has applied. */
  lemma SnapshotIsInRange(ss: seq<System>, es: seq<Event>, k: nat, p: nat)
    requires Rsm.Run(ss, es) && k < |ss| && p < |ss[k].readers|
    ensures var step := ServiceSnapshot(p, ss[k].readers[p].lastApplied, ss[k].readers[p].sm);
            Enabled(ss[k].c, step) && Defined(ss[k].c, step)
  {
    var hs := RunExplained(ss, es);
    assert SystemOk(ss[k], hs[k]) && ReplicaOk(hs[k], ss[k], p);
    var r, x := ss[k].readers[p], ss[k].c.peers[p];
    EndGrows(Queue(r, x), r.lastApplied, hs[k].log[p]);
    Safety.IndexSafety(ss[k].c, hs[k], ServiceSnapshot(p, r.lastApplied, r.sm));
  }

  /** Submit returns its own result: whatever happens between Start and the return, the reply is
      the operation's own, computed at the index Start gave it. */
  lemma SubmitReturnsOwnResult(ss: seq<System>, es: seq<Event>, j: nat, k: nat, p: nat, id: int, payload: Request)
    returns (L: Log)
    requires Rsm.Run(ss, es) && j < |es| && es[j] == Submit(p, id, payload)
    requires id in ss[j + 1].calls && j < k < |ss| && id in ss[k].results
    ensures p < |ss[j].c.peers| && ss[j].c.peers[p].Valid()
    ensures var index := Start(ss[j].c.peers[p], Submitted(id, payload)).1;
            && 0 < index < |L|
            && L[index].command == Submitted(id, payload)
            && (forall i: nat | i < |L| && L[i].command.Submitted? && L[i].command.id == id :: i == index)
            && ss[k].results[id] == DoOp(Fold(L, index - 1), payload).1
    ensures forall m: nat {:trigger Explained(L, ss[m])} | m < |ss| :: Explained(L, ss[m])
  {
    hide StreamOk;
    L := OneLog(ss, es);
    assert Next(ss[j], es[j], ss[j + 1]);
    assert Explained(L, ss[k]) && OwnResult(L, ss[k], id);
    RunKeepsCall(ss, es, j + 1, k, id);
  }

  /** Real-time order: whatever is submitted after an operation has returned stands after it in the
      log, whether its own Submit returns, gives up, is cut off by a reboot or is still waiting.
      With OneLog, whose log this is, Submit is linearizable. */
  lemma RealTimeOrder(ss: seq<System>, es: seq<Event>, j: nat, id: int) returns (L: Log)
    requires Rsm.Run(ss, es) && j < |ss| && id in ss[j].results
    ensures forall m: nat {:trigger Explained(L, ss[m])} | m < |ss| :: Explained(L, ss[m])
    ensures Proposed(L, ss[|es|].calls)
    ensures id in ss[j].calls && ss[j].calls[id].index < |L|
    ensures forall i: nat {:trigger L[i]} | 0 < i < |L| && L[i].command.id !in ss[j].calls :: ss[j].calls[id].index < i
  {
    hide StreamOk;
    L := OneLog(ss, es);
    assert Explained(L, ss[j]) && OwnResult(L, ss[j], id) && Precedes(L, ss[j], id);
  }

  /** In particular two operations that both return stand in the order in which one followed the other. */
  lemma ResultsInOrder(ss: seq<System>, es: seq<Event>, j: nat, k: nat, id1: int, id2: int)
    requires Rsm.Run(ss, es) && j <= k < |ss|
    requires id1 in ss[j].results && id2 !in ss[j].calls && id2 in ss[k].results
    ensures id1 in ss[k].calls && id2 in ss[k].calls
    ensures ss[k].calls[id1].index < ss[k].calls[id2].index
  {
    hide StreamOk;
    var L := RealTimeOrder(ss, es, j, id1);
    assert Explained(L, ss[k]) && OwnResult(L, ss[k], id2);
    RunKeepsCall(ss, es, j, k, id1);
  }
}
