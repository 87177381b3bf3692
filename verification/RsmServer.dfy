// The RSM struct of internal/rsm: the reader's turn, and the critical sections of Submit. Every
// method is proved to compute what Rsm says.
module RsmServer {
  import opened Core
  import opened RaftTypes
  import opened RaftPeer
  import opened RaftServer
  import opened ShardGroup
  import opened Rsm

  class RSM {
    const rf: Raft
    const sm: Group

    /** The applier's batch, and the channel between it and the reader. */
    var outbox: seq<ApplyMsg>
    var applyCh: seq<ApplyMsg>

    var lastApplied: nat
    var notify: map<nat, int>
    var compacting: bool

    /** The Submits whose Start succeeded, with the content of the channel each waits on. */
    var calls: map<int, Call>

    predicate Valid()
      reads this, sm, rf
    {
      sm.Valid() && rf.Valid()
    }

    function State(): Reader
      reads this, sm, sm.shards, sm.owned, sm.frozen, sm.configNums
    {
      Reader(outbox, applyCh, lastApplied, sm.State(), notify, compacting)
    }

    constructor (rf: Raft, sm: Group)
      requires sm.Valid() && rf.Valid() && sm.State() == NewGroup()
      ensures Valid() && this.rf == rf && this.sm == sm
      ensures State() == NewReader() && calls == map[]
    {
      this.rf, this.sm := rf, sm;
      outbox, applyCh, lastApplied, notify, compacting, calls := [], [], 0, map[], false, map[];
    }

    /** A send that does not block: a channel that is full keeps what it has. */
    method Send(id: int, r: SubResult)
      modifies this`calls
      ensures calls == Signal(old(calls), {id}, r)
    {
      if id in calls && calls[id].slot.None? {
        calls := calls[id := calls[id].(slot := Some(r))];
      }
    }

    /** The reader takes the next message off the channel. */
    method ReaderTurn()
      requires Valid() && |applyCh| > 0
      requires applyCh[0].SnapshotMsg? ==> ValidGroup(RestoreFrom(applyCh[0].snapshot.data))
      modifies this, sm.shards, sm.owned, sm.frozen, sm.configNums
      ensures Valid()
      ensures (State(), calls) == Read(old(State()), old(calls))
    {
      var msg := applyCh[0];
      applyCh := applyCh[1..];
      match msg
      case CommandMsg(NoCommand, _) =>
        return;
      case CommandMsg(Submitted(id, payload), index) =>
        var rep := sm.Apply(payload);
        lastApplied := index;
        if index in notify {
          Send(notify[index], SubResult(id, Some(rep)));
        } else {
          assert Signal(calls, {}, SubResult(id, Some(rep))) == calls;
        }
        compacting := true;
      case SnapshotMsg(s) =>
        if s.index > lastApplied {
          sm.Restore(s.data);
          lastApplied := s.index;
          SignalUpTo(s.index);
        }
    }

    /** Every Submit registered at or below an index that a snapshot jumped over is told so. */
    method SignalUpTo(index: nat)
      modifies this`calls
      ensures calls == Signal(old(calls), set i | i in notify && i <= index :: notify[i], SubResult(-1, None))
    {
      var left := notify.Keys;
      ghost var told: set<int> := {};
      while left != {}
        invariant left <= notify.Keys
        invariant told == set i | i in notify && i !in left && i <= index :: notify[i]
        invariant calls == Signal(old(calls), told, SubResult(-1, None))
        decreases left
      {
        var i :| i in left;
        left := left - {i};
        if i <= index {
          SignalMore(old(calls), told, notify[i]);
          Send(notify[i], SubResult(-1, None));
          told := told + {notify[i]};
        }
      }
    }

    static lemma SignalMore(calls: map<int, Call>, told: set<int>, id: int)
      ensures Signal(Signal(calls, told, SubResult(-1, None)), {id}, SubResult(-1, None))
              == Signal(calls, told + {id}, SubResult(-1, None))
    {
    }
  
    /** After a command the reader snapshots if the Raft state has grown too large. */
    method Compact(full: bool)
      requires Valid() && lastApplied <= rf.commitIndex && lastApplied <= rf.GetLastLogIndex()
      modifies this`compacting, rf
      ensures Valid() && State() == old(State()).(compacting := false)
      ensures rf.State() ==
              if full then RaftPeer.Compact(old(rf.State()), lastApplied, sm.State()) else old(rf.State())
    {
      compacting := false;
      if full {
        var snapshot := sm.Snapshot();
        rf.Snapshot(lastApplied, snapshot.value);
      }
    }

    /** The applier's round: it takes its batch under Raft's mutex and sends it afterwards. */
    method TakeBatch()
      requires Valid() && outbox == [] && rf.commitIndex <= rf.GetLastLogIndex()
      modifies this`outbox, rf`lastApplied, rf`pending
      ensures Valid() && (rf.State(), outbox) == Apply(old(rf.State()))
      ensures State() == old(State()).(outbox := outbox)
    {
      outbox := rf.ApplierRound();
    }

    method SendBatch()
      modifies this`outbox, this`applyCh
      ensures State() == old(State()).(outbox := [], channel := old(applyCh + outbox))
    {
      while outbox != []
        invariant applyCh + outbox == old(applyCh + outbox)
        decreases |outbox|
      {
        applyCh := applyCh + [outbox[0]];
        outbox := outbox[1..];
      }
    }

    // ---------- Submit ----------

    /** Submit up to Start: the operation is proposed under a fresh ID. */
    method Propose(id: int, payload: Request) returns (isLeader: bool)
      requires Valid() && id !in calls
      modifies this`calls, rf
      ensures Valid() && State() == old(State())
      ensures var r := Start(old(rf.State()), Submitted(id, payload));
              && rf.State() == r.0 && isLeader == r.3
              && calls == if r.3 then old(calls)[id := Call(rf.me, payload, r.1, r.2, None, false)] else old(calls)
    {
      var index, term;
      index, term, isLeader := rf.Start(Submitted(id, payload));
      if isLeader {
        calls := calls[id := Call(rf.me, payload, index, term, None, false)];
      }
    }

    /** Whoever registers last at an index is the one to be told. */
    method Register(id: int)
      requires id in calls
      modifies this`notify
      ensures State() == old(State()).(notify := old(notify)[calls[id].index := id])
    {
      notify := notify[calls[id].index := id];
    }

    /** One turn of Submit's waiting loop: its channel, or the ticker and then a look at the role.
        Only its own operation's reply ends it well. */
    method Poll(id: int, tick: bool, leads: bool) returns (done: bool, rep: Option<Reply>)
      requires id in calls
      modifies this`calls, this`notify
      ensures done <==> if tick then !leads else old(calls)[id].slot.Some?
      ensures rep.Some? ==> done && !tick && old(calls)[id].slot == Some(SubResult(id, rep))
      ensures done && !tick && old(calls)[id].slot.value.id == id ==> rep == old(calls)[id].slot.value.rep
      ensures calls == if done then old(calls)[id := old(calls)[id].(done := true)] else old(calls)
      ensures notify == if done then old(notify) - {old(calls)[id].index} else old(notify)
    {
      rep := None;
      if tick {
        done := !leads;
      } else if calls[id].slot.Some? {
        done := true;
        var res := calls[id].slot.value;
        if res.id == id {
          rep := res.rep;
        }
      } else {
        done := false;
      }
      if done {
        notify := notify - {calls[id].index};
        calls := calls[id := calls[id].(done := true)];
      }
    }
  }
}
