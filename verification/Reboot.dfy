// What a caller sees of a reboot with a compacted log: which command comes first, and when a later
// reply can differ from the one owed.
module Reboot {
  import opened Core
  import opened RaftTypes
  import opened RaftPeer
  import opened Cluster
  import opened ShardGroup
  import opened Rsm
  import RsmProof

  // ---------- the first command ----------

  /** Nothing has been handed to the new reader of a peer that came up with the given base, and
      nothing will be but what follows the base, unless the base has moved on. */
  ghost predicate Untold(s: System, p: nat, base: nat) {
    && p < |s.readers| && p < |s.c.peers|
    && s.readers[p] == NewReader().(notify := s.readers[p].notify)
    && var x := s.c.peers[p];
       && base <= x.lastIncludedIndex
       && (x.lastIncludedIndex == base ==> x.lastApplied == base && x.pending == None)
  }

  /** The event neither reboots the peer nor has its applier hand anything over. */
  predicate Leaves(e: Event, p: nat) {
    e != ApplierTake(p) && (e.Reboot? ==> Actor(e.step) != p)
  }

  lemma StepLeaves(c: Cluster, step: Step, c': Cluster, p: nat, base: nat)
    requires Transition(c, step, c') && p < |c.peers|
    requires Actor(step) == p ==> !step.ApplierRound? && !step.Restart? && !step.CrashIn?
    requires base <= c.peers[p].lastIncludedIndex
    requires c.peers[p].lastIncludedIndex == base ==> c.peers[p].lastApplied == base && c.peers[p].pending == None
    ensures p < |c'.peers| && base <= c'.peers[p].lastIncludedIndex
    ensures c'.peers[p].lastIncludedIndex == base ==> c'.peers[p].lastApplied == base && c'.peers[p].pending == None
  {
    if Actor(step) == p && !step.ServiceSnapshot? && !(step.Deliver? && step.m.SnapReq?) {
      RsmProof.ActorFrame(c, step);
    }
  }

  lemma EventLeaves(s: System, e: Event, s': System, p: nat, base: nat)
    requires Next(s, e, s') && Untold(s, p, base) && Leaves(e, p)
    ensures Untold(s', p, base)
  {
    match e
    case Raft(step) => StepLeaves(s.c, step, s'.c, p, base);
    case Submit(q, id, payload) => StepLeaves(s.c, ClientCommand(q, Submitted(id, payload)), s'.c, p, base);
    case ApplierTake(q) => StepLeaves(s.c, ApplierRound(q), s'.c, p, base);
    case ReaderCompact(q, full) =>
      if full {
        StepLeaves(s.c, ServiceSnapshot(q, s.readers[q].lastApplied, s.readers[q].sm), s'.c, p, base);
      }
    case Reboot(step) => StepLeaves(s.c, step, s'.c, p, base);
    case _ =>
  }

  lemma {:induction false} StillUntold(ss: seq<System>, es: seq<Event>, j: nat, k: nat, p: nat, base: nat)
    requires Execution(ss, es) && j <= k < |ss| && Untold(ss[j], p, base)
    requires forall i: nat {:trigger es[i]} | j <= i < k :: Leaves(es[i], p)
    ensures Untold(ss[k], p, base)
  {
    if j < k {
      StillUntold(ss, es, j, k - 1, p, base);
      assert Next(ss[k - 1], es[k - 1], ss[k]);
      EventLeaves(ss[k - 1], es[k - 1], ss[k], p, base);
    }
  }

  /** The first command handed over after a reboot is the one after the base, while the reader
      stands at 0: the two fit together if and only if the base is 0. The exception is a snapshot
      received from another peer in the meantime, which moves the base on and the reader with it. */
  lemma FirstCommandAfterReboot(ss: seq<System>, es: seq<Event>, j: nat, k: nat, p: nat)
    requires Execution(ss, es) && j < k < |es|
    requires es[j].Reboot? && Actor(es[j].step) == p && es[k] == ApplierTake(p)
    requires forall i: nat {:trigger es[i]} | j < i < k :: Leaves(es[i], p)
    ensures p < |ss[j + 1].c.peers| && p < |ss[k].c.peers| && p < |ss[k].readers| && p < |ss[k + 1].readers|
    ensures var base, x, r := ss[j + 1].c.peers[p].lastIncludedIndex, ss[k].c.peers[p], ss[k + 1].readers[p];
            x.lastIncludedIndex == base && x.commitIndex > base ==>
              && |r.outbox| > 0 && r.outbox[0].CommandMsg? && r.outbox[0].index == base + 1
              && r.lastApplied == 0
              && (r.outbox[0].index == r.lastApplied + 1 <==> base == 0)
  {
    assert Next(ss[j], es[j], ss[j + 1]);
    var base := ss[j + 1].c.peers[p].lastIncludedIndex;
    assert Untold(ss[j + 1], p, base);
    StillUntold(ss, es, j + 1, k, p, base);
    assert Next(ss[k], es[k], ss[k + 1]);
  }

  // ---------- later replies ----------

  /** The state after a series of operations. */
  function Serve(g: GroupState, ops: seq<Request>): (r: GroupState)
    requires ValidGroup(g)
    ensures ValidGroup(r)
    decreases |ops|
  {
    if ops == [] then g else Serve(DoOp(g, ops[0]).0, ops[1..])
  }

  lemma {:induction false} ServeOneMore(g: GroupState, ops: seq<Request>, op: Request)
    requires ValidGroup(g)
    ensures Serve(g, ops + [op]) == DoOp(Serve(g, ops), op).0
    decreases |ops|
  {
    if ops == [] {
      assert Serve(DoOp(g, op).0, []) == DoOp(g, op).0;
      assert [op][1..] == [];
    } else {
      assert (ops + [op])[1..] == ops[1..] + [op];
      ServeOneMore(DoOp(g, ops[0]).0, ops[1..], op);
    }
  }

  /** The operations of a log after position b, up to k. */
  function Ops(L: Log, b: nat, k: nat): seq<Request>
    requires b <= k < |L| && forall i: nat {:trigger L[i]} | b < i <= k :: L[i].command.Submitted?
  {
    if k == b then [] else Ops(L, b, k - 1) + [L[k].command.payload]
  }

  /** What replies after position k are owed by is the fold at b with the operations between served;
      a reader that starts anew behind b serves the same operations from a fresh group. */
  lemma {:induction false} FoldServes(L: Log, b: nat, k: nat)
    requires b <= k < |L| && forall i: nat {:trigger L[i]} | b < i <= k :: L[i].command.Submitted?
    ensures Serve(Fold(L, b), Ops(L, b, k)) == Fold(L, k)
  {
    if b < k {
      FoldServes(L, b, k - 1);
      ServeOneMore(Fold(L, b), Ops(L, b, k - 1), L[k].command.payload);
    }
  }

  /** No shard is owned and frozen at once; no group ever gets there. */
  predicate Sound(g: GroupState)
    requires ValidGroup(g)
  {
    forall s: Shard :: g.owned[s] ==> !g.frozen[s]
  }

  lemma {:induction false} FoldSound(L: Log, k: nat)
    requires k < |L|
    ensures Sound(Fold(L, k))
  {
    if k > 0 {
      FoldSound(L, k - 1);
    }
  }

  /** The same in everything a reply can depend on. */
  predicate Alike(g: GroupState, h: GroupState) {
    g.shards == h.shards && g.owned == h.owned && g.configNums == h.configNums
  }

  lemma {:induction false} AlikeServe(g: GroupState, h: GroupState, ops: seq<Request>, op: Request)
    requires ValidGroup(g) && ValidGroup(h) && Sound(g) && Sound(h) && Alike(g, h)
    ensures DoOp(Serve(g, ops), op).1 == DoOp(Serve(h, ops), op).1
    decreases |ops|
  {
    if ops != [] {
      AlikeServe(DoOp(g, ops[0]).0, DoOp(h, ops[0]).0, ops[1..], op);
    }
  }

  /** Two states that differ in any of it are told apart by one operation. */
  lemma ToldApart(g: GroupState, h: GroupState) returns (op: Request)
    requires ValidGroup(g) && ValidGroup(h) && Sound(g) && Sound(h) && !Alike(g, h)
    ensures DoOp(g, op).1 != DoOp(h, op).1
  {
    if s: Shard :| g.owned[s] != h.owned[s] {
      op := Get([s as char]);
    } else if s: Shard :| g.configNums[s] != h.configNums[s] {
      op := Install(s, if g.configNums[s] < h.configNums[s] then g.configNums[s] else h.configNums[s], map[]);
    } else {
      assert g.owned == h.owned && g.configNums == h.configNums;
      var s: Shard :| g.shards[s] != h.shards[s];
      op := Freeze(s, g.configNums[s]);
    }
  }

  /** Nothing was ever installed, given away or put. */
  predicate Blank(g: GroupState)
    requires ValidGroup(g)
  {
    forall s: Shard :: !g.owned[s] && g.shards[s] == map[] && g.configNums[s] == 0
  }

  /** When it matters that the reader starts anew behind a base b: whatever is in the log after the
      base, all replies are the ones owed if and only if the commands up to the base have left the
      group as it was in the beginning. */
  lemma RebootRepliesExactly(L: Log, b: nat)
    requires b < |L|
    ensures (forall ops: seq<Request>, op: Request {:trigger DoOp(Serve(NewGroup(), ops), op)} ::
               DoOp(Serve(NewGroup(), ops), op).1 == DoOp(Serve(Fold(L, b), ops), op).1)
            <==> Blank(Fold(L, b))
  {
    var g, h := NewGroup(), Fold(L, b);
    FoldSound(L, b);
    if Blank(h) {
      assert Alike(g, h);
      forall ops: seq<Request>, op: Request ensures DoOp(Serve(g, ops), op).1 == DoOp(Serve(h, ops), op).1 {
        AlikeServe(g, h, ops, op);
      }
    } else {
      var op := ToldApart(g, h);
      assert Serve(g, []) == g && Serve(h, []) == h;
      assert DoOp(Serve(g, []), op).1 != DoOp(Serve(h, []), op).1;
    }
  }
}
