// What reaches the service and the waiting Submits: the applier's round, the reader's turn and the
// return of a call, each told by the full log, the registrations and the reply.
module Delivery {
  import opened Core
  import opened RaftTypes
  import opened RaftPeer
  import opened Cluster
  import opened ClusterInvariant
  import P = Protocol
  import opened ShardGroup
  import opened Rsm
  import opened Handlers
  import Safety = RaftSafety

  lemma EventSteps(s: System, e: Event, s': System) returns (moves: bool, step: Step)
    requires Next(s, e, s')
    ensures if moves then Transition(s.c, step, s'.c) else s'.c == s.c
    ensures |s'.readers| == |s.readers|
  {
    hide Transition;
    moves, step := false, Restart(0);
    match e
    case Raft(st) => moves, step := true, st;
    case Submit(p, id, payload) => moves, step := true, ClientCommand(p, Submitted(id, payload));
    case ApplierTake(p) => moves, step := true, ApplierRound(p);
    case ReaderCompact(p, full) =>
      if full {
        moves, step := true, ServiceSnapshot(p, s.readers[p].lastApplied, s.readers[p].sm);
      }
    case Reboot(st) => moves, step := true, st;
    case _ =>
  }

  /** Raft's invariant holds in every execution, reboots with a compacted log included. */
  lemma {:induction false} ExecutionOk(ss: seq<System>, es: seq<Event>, k: nat) returns (a: P.State)
    requires Execution(ss, es) && k < |ss|
    ensures ClusterOk(ss[k].c, a) && |ss[k].readers| == |ss[k].c.peers|
  {
    hide Transition, Next;
    if k == 0 {
      a := Safety.InitialOk(ss[0].c);
    } else {
      a := ExecutionOk(ss, es, k - 1);
      assert Next(ss[k - 1], es[k - 1], ss[k]);
      var moves, step := EventSteps(ss[k - 1], es[k - 1], ss[k]);
      if moves {
        a := Safety.StepOk(ss[k - 1].c, a, step, ss[k].c);
      }
    }
  }

  /** The applier's round: the batch is the pending snapshot alone, which then pends no longer; or, if
      there is none, every command of the full log after lastApplied up to the commit index, in order
      and each at its index, and all of them count as applied. */
  lemma TakeIs(ss: seq<System>, es: seq<Event>, k: nat, p: nat) returns (y: Peer, out: seq<ApplyMsg>, G: Log)
    requires Execution(ss, es) && k < |es| && es[k] == ApplierTake(p)
    ensures p < |ss[k].c.peers| && p < |ss[k].readers| && Refines(ss[k].c.peers[p], G)
    ensures ss[k + 1] == ss[k].(c := Cluster(ss[k].c.peers[p := y], ss[k].c.net),
                                readers := ss[k].readers[p := ss[k].readers[p].(outbox := out)])
    ensures var x := ss[k].c.peers[p];
            && x.commitIndex < |G|
            && match x.pending
               case Some(s) => y == x.(pending := None) && out == [SnapshotMsg(s)]
               case None =>
                 && y == x.(lastApplied := x.commitIndex)
                 && |out| == x.commitIndex - x.lastApplied
                 && forall i: nat {:trigger out[i]} | i < |out| ::
                      out[i] == CommandMsg(G[x.lastApplied + 1 + i].command, x.lastApplied + 1 + i)
  {
    var s, s' := ss[k], ss[k + 1];
    var a := ExecutionOk(ss, es, k);
    assert Next(s, es[k], s');
    var x := s.c.peers[p];
    assert NodeOk(a, p, x);
    G := a.log[p];
    ApplyIs(x, G);
    y, out := Apply(x).0, Apply(x).1;
    assert s.c.net + {} == s.c.net;
  }

  /** The call's slot after somebody was told something: what was there first stays. */
  function Told(c: Call, r: SubResult): Call {
    if c.slot.None? then c.(slot := Some(r)) else c
  }

  predicate Registered(r: Reader, id: int, index: nat) {
    index in r.notify && r.notify[index] == id
  }

  /** The reader's turn on a command: the service runs it, and the Submit registered at its index, and
      no other, is told its ID and reply. */
  lemma ReadCommandIs(s: System, p: nat, s': System, id: int, payload: Request, index: nat)
    requires Next(s, ReaderTake(p), s') && s.readers[p].channel[0] == CommandMsg(Submitted(id, payload), index)
    ensures ValidGroup(s.readers[p].sm) && s'.calls.Keys == s.calls.Keys
    ensures var r, out := s.readers[p], DoOp(s.readers[p].sm, payload);
            && s' == s.(calls := s'.calls, readers := s.readers[p :=
                 r.(channel := r.channel[1..], sm := out.0, lastApplied := index, compacting := true)])
            && forall c {:trigger s'.calls[c]} | c in s.calls ::
                 s'.calls[c] == if Registered(r, c, index) then Told(s.calls[c], SubResult(id, Some(out.1))) else s.calls[c]
  {
  }

  /** The reader's turn on a snapshot: one ahead of the reader replaces the service's state, and every
      Submit registered at or below its index, and no other, is told that it was jumped over; any
      other snapshot is dropped. */
  lemma ReadSnapshotIs(s: System, p: nat, s': System, snap: Snapshot)
    requires Next(s, ReaderTake(p), s') && s.readers[p].channel[0] == SnapshotMsg(snap)
    ensures s'.calls.Keys == s.calls.Keys
    ensures var r := s.readers[p];
            if snap.index <= r.lastApplied then s' == s.(readers := s.readers[p := r.(channel := r.channel[1..])])
            else
              && s' == s.(calls := s'.calls, readers := s.readers[p :=
                   r.(channel := r.channel[1..], lastApplied := snap.index,
                      sm := if snap.data.Some? then snap.data.value else NewGroup())])
              && forall c {:trigger s'.calls[c]} | c in s.calls ::
                   s'.calls[c] == if exists i: nat :: i <= snap.index && Registered(r, c, i)
                                  then Told(s.calls[c], SubResult(-1, None)) else s.calls[c]
  {
    var r := s.readers[p];
    if snap.index > r.lastApplied {
      forall c | c in s.calls
        ensures c in WaitingUpTo(r, snap.index) <==> exists i: nat :: i <= snap.index && Registered(r, c, i)
      {
        if i: nat :| i <= snap.index && Registered(r, c, i) {
          assert i in r.notify && r.notify[i] == c;
        }
        if c in WaitingUpTo(r, snap.index) {
          var i: nat :| i in r.notify && i <= snap.index && r.notify[i] == c;
          assert Registered(r, c, i);
        }
      }
    }
  }

  /** A Submit that was told its own ID returns that reply, and one told anything else returns none. */
  lemma ReturnIs(s: System, id: int, s': System)
    requires Next(s, Return(id), s')
    ensures id in s.calls && s.calls[id].slot.Some?
    ensures var got := s.calls[id].slot.value;
            s'.results == if got.id == id && got.rep.Some? then s.results[id := got.rep.value] else s.results
    ensures s'.c == s.c && s'.calls == s.calls[id := s.calls[id].(done := true)]
    ensures var n := s.calls[id].node;
            && n < |s.readers|
            && s'.readers == s.readers[n := s.readers[n].(notify := s.readers[n].notify - {s.calls[id].index})]
  {
  }
}
