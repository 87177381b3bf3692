// The replicated state machine over Raft (internal/rsm): the applier's queue, the reader, and Submit.
module Rsm {
  import opened Core
  import opened RaftTypes
  import opened RaftPeer
  import opened Cluster
  import opened ShardGroup

  /** What the reader's side of one replica holds. outbox is the batch the applier took out under
      the mutex and has still to send, channel what it has sent, notify the registered Submits by
      index. compacting marks the point after a command where the reader may snapshot. */
  datatype Reader = Reader(
    outbox: seq<ApplyMsg>,
    channel: seq<ApplyMsg>,
    lastApplied: nat,
    sm: GroupState,
    notify: map<nat, int>,
    compacting: bool)

  function NewReader(): Reader {
    Reader([], [], 0, NewGroup(), map[], false)
  }

  /** What a Submit is sent through its channel: the ID of the operation applied at its index, with
      the reply, or -1 when a snapshot jumped over it. */
  datatype SubResult = SubResult(id: int, rep: Option<Reply>)

  /** One Submit whose Start succeeded, identified by its operation's ID. */
  datatype Call = Call(node: nat, payload: Request, index: nat, term: nat, slot: Option<SubResult>, done: bool)

  datatype System = System(
    c: Cluster,
    readers: seq<Reader>,
    calls: map<int, Call>,
    results: map<int, Reply>)

  datatype Event =
    | Raft(step: Step)
    | Submit(p: nat, id: int, payload: Request)
    | Register(id: int)
    | Return(id: int)
    | GiveUp(id: int)
    | ApplierTake(p: nat)
    | ApplierSend(p: nat)
    | ReaderTake(p: nat)
    | ReaderCompact(p: nat, full: bool)
    | Reboot(step: Step)

  ghost predicate Start0(s: System) {
    && Initial(s.c)
    && s.readers == seq(|s.c.peers|, i => NewReader())
    && s.calls == map[] && s.results == map[]
  }

  /** Sends r on the channels of the given calls; a full channel drops it. */
  function Signal(calls: map<int, Call>, ids: set<int>, r: SubResult): map<int, Call> {
    map i | i in calls :: if i in ids && calls[i].slot.None? then calls[i].(slot := Some(r)) else calls[i]
  }

  function Waiting(r: Reader, index: nat): set<int> {
    if index in r.notify then {r.notify[index]} else {}
  }

  function WaitingUpTo(r: Reader, index: nat): set<int> {
    set i | i in r.notify && i <= index :: r.notify[i]
  }

  /** One turn of the reader loop on the message at the head of the channel. */
  function Read(r: Reader, calls: map<int, Call>): (Reader, map<int, Call>)
    requires |r.channel| > 0 && ValidGroup(r.sm)
  {
    var r1 := r.(channel := r.channel[1..]);
    match r.channel[0]
    case CommandMsg(NoCommand, _) => (r1, calls)
    case CommandMsg(Submitted(id, payload), index) =>
      var out := DoOp(r.sm, payload);
      (r1.(sm := out.0, lastApplied := index, compacting := true),
       Signal(calls, Waiting(r, index), SubResult(id, Some(out.1))))
    case SnapshotMsg(s) =>
      if s.index > r.lastApplied then
        (r1.(sm := RestoreFrom(s.data), lastApplied := s.index),
         Signal(calls, WaitingUpTo(r, s.index), SubResult(-1, None)))
      else (r1, calls)
  }

  /** A Submit that ends takes its index out of the notify map, whoever is registered there. */
  function Finish(s: System, id: int): System
    requires id in s.calls && s.calls[id].node < |s.readers|
  {
    var c := s.calls[id];
    var r := s.readers[c.node];
    s.(calls := s.calls[id := c.(done := true)],
       readers := s.readers[c.node := r.(notify := r.notify - {c.index})])
  }

  ghost predicate RaftMoves(s: System, step: Step, s': System) {
    Transition(s.c, step, s'.c)
  }

  ghost predicate Next(s: System, e: Event, s': System) {
    match e
    case Raft(step) =>
      && (step.ElectionTimeout? || step.SendAppend? || step.SendSnapshot? || step.Deliver?)
      && RaftMoves(s, step, s')
      && s' == s.(c := s'.c)
    case Submit(p, id, payload) =>
      && id >= 0 && id !in s.calls
      && RaftMoves(s, ClientCommand(p, Submitted(id, payload)), s')
      && var r := Start(s.c.peers[p], Submitted(id, payload));
         s' == if r.3 then s.(c := s'.c, calls := s.calls[id := Call(p, payload, r.1, r.2, None, false)])
               else s.(c := s'.c)
    case Register(id) =>
      && id in s.calls && !s.calls[id].done && s.calls[id].node < |s.readers|
      && var c := s.calls[id];
         var r := s.readers[c.node];
         s' == s.(readers := s.readers[c.node := r.(notify := r.notify[c.index := id])])
    case Return(id) =>
      && id in s.calls && !s.calls[id].done && s.calls[id].slot.Some? && s.calls[id].node < |s.readers|
      && var got := s.calls[id].slot.value;
         s' == if got.id == id && got.rep.Some? then Finish(s, id).(results := s.results[id := got.rep.value])
               else Finish(s, id)
    case GiveUp(id) =>
      && id in s.calls && !s.calls[id].done && s.calls[id].node < |s.readers|
      && s' == Finish(s, id)
    case ApplierTake(p) =>
      && p < |s.readers| && s.readers[p].outbox == []
      && RaftMoves(s, ApplierRound(p), s')
      && s' == s.(c := s'.c, readers := s.readers[p := s.readers[p].(outbox := Apply(s.c.peers[p]).1)])
    case ApplierSend(p) =>
      && p < |s.readers| && |s.readers[p].outbox| > 0
      && var r := s.readers[p];
         s' == s.(readers := s.readers[p := r.(outbox := r.outbox[1..], channel := r.channel + [r.outbox[0]])])
    case ReaderTake(p) =>
      && p < |s.readers| && !s.readers[p].compacting && |s.readers[p].channel| > 0 && ValidGroup(s.readers[p].sm)
      && var out := Read(s.readers[p], s.calls);
         s' == s.(readers := s.readers[p := out.0], calls := out.1)
    case ReaderCompact(p, full) =>
      && p < |s.readers| && s.readers[p].compacting
      && var r := s.readers[p];
         && (if full then RaftMoves(s, ServiceSnapshot(p, r.lastApplied, r.sm), s') else s'.c == s.c)
         && s' == s.(c := s'.c, readers := s.readers[p := r.(compacting := false)])
    case Reboot(step) =>
      && (step.Restart? || step.CrashIn?) && Actor(step) < |s.readers|
      && RaftMoves(s, step, s')
      && s' == s.(c := s'.c, readers := s.readers[Actor(step) := NewReader()],
                  calls := map i | i in s.calls ::
                    if s.calls[i].node == Actor(step) then s.calls[i].(done := true) else s.calls[i])
  }

  /** A replica rebooted before its log was ever compacted replays it from the start. One rebooted
      later does not get its snapshot back: Make hands it to nobody. */
  ghost predicate Replays(s: System, e: Event) {
    e.Reboot? && Actor(e.step) < |s.c.peers| ==> s.c.peers[Actor(e.step)].lastIncludedIndex == 0
  }

  /** Everything the system can do. */
  ghost predicate Execution(ss: seq<System>, es: seq<Event>) {
    && |ss| == |es| + 1
    && Start0(ss[0])
    && forall k: nat {:trigger es[k]} | k < |es| :: Next(ss[k], es[k], ss[k + 1])
  }

  ghost predicate Replayed(ss: seq<System>, es: seq<Event>) {
    forall k: nat {:trigger es[k]} | k < |es| && k < |ss| :: Replays(ss[k], es[k])
  }

  /** The executions in which no replica reboots with a compacted log. */
  ghost predicate Run(ss: seq<System>, es: seq<Event>) {
    Execution(ss, es) && Replayed(ss, es)
  }

  // ---------- the specification ----------

  function ApplyTo(g: GroupState, command: Command): (g': GroupState)
    requires ValidGroup(g)
    ensures ValidGroup(g')
  {
    match command
    case NoCommand => g
    case Submitted(_, payload) => DoOp(g, payload).0
  }

  /** The state after the commands 1..k of a log. */
  function Fold(L: Log, k: nat): (g: GroupState)
    requires k < |L|
    ensures ValidGroup(g)
  {
    if k == 0 then NewGroup() else ApplyTo(Fold(L, k - 1), L[k].command)
  }

  lemma {:induction false} FoldAgree(L: Log, L': Log, k: nat)
    requires Agree(L, L', k + 1)
    ensures Fold(L, k) == Fold(L', k)
  {
    if k > 0 {
      FoldAgree(L, L', k - 1);
    }
  }
}
