// Mutual exclusion of the lock, over a network that loses, delays, repeats and reorders at will.
module LockSafety {
  import opened Core
  import opened KvServer
  import opened KvLock

  /** A client and the number of its latest call. */
  datatype Client = Client(phase: Phase, call: nat)

  datatype Sent = Sent(client: string, request: KvRequest)

  /** calls holds every network call ever made: the server may serve each of them at any time, any
      number of times. replies holds every reply, with the number of the call it answers. */
  datatype World = World(
    store: Store,
    clients: map<string, Client>,
    calls: seq<Sent>,
    replies: set<(nat, Reply)>)

  datatype Event =
    | Acquire(id: string)
    | Release(id: string)
    | Serve(n: nat)
    | Receive(id: string, reply: Reply)
    | TimeOut(id: string)
    | OtherPut(key: string, value: string, version: nat)

  /** The lock named name, used by clients with distinct, non-empty IDs, none of which holds it. */
  ghost predicate Initial(w: World, name: string) {
    && "" !in w.clients
    && (forall id | id in w.clients :: w.clients[id] == Client(Idle, 0))
    && (name in w.store ==> w.store[name].version > 0 && w.store[name].value !in w.clients)
    && w.calls == [] && w.replies == {}
  }

  /** The client enters a phase and makes its call, if it has one to make. */
  function Enter(w: World, name: string, id: string, ph: Phase): World
    requires id in w.clients
  {
    if Calling(ph) then
      w.(clients := w.clients[id := Client(ph, |w.calls|)], calls := w.calls + [Sent(id, RequestOf(name, id, ph))])
    else
      w.(clients := w.clients[id := w.clients[id].(phase := ph)])
  }

  ghost predicate Next(w: World, name: string, e: Event, w': World) {
    match e
    case Acquire(id) =>
      id in w.clients && w.clients[id].phase == Idle && w' == Enter(w, name, id, AcqGet)
    case Release(id) =>
      id in w.clients && w.clients[id].phase == Held && w' == Enter(w, name, id, RelGet)
    case Serve(n) =>
      && n < |w.calls|
      && var r := KvServer.Serve(w.store, w.calls[n].request);
         w' == w.(store := r.0, replies := w.replies + {(n, r.1)})
    case Receive(id, reply) =>
      && id in w.clients && Calling(w.clients[id].phase) && (w.clients[id].call, reply) in w.replies
      && (reply.GetReply? || reply.PutReply?)
      && w' == Enter(w, name, id, OnAnswer(id, w.clients[id].phase, AnswerOf(reply)))
    case TimeOut(id) =>
      && id in w.clients && Calling(w.clients[id].phase)
      && w' == Enter(w, name, id, OnAnswer(id, w.clients[id].phase, Lost))
    case OtherPut(key, value, version) =>
      key != name && w' == w.(store := PutTo(w.store, key, value, version).0)
  }

  ghost predicate Run(ws: seq<World>, name: string, es: seq<Event>) {
    && |ws| == |es| + 1
    && Initial(ws[0], name)
    && forall k: nat {:trigger es[k]} | k < |es| :: Next(ws[k], name, es[k], ws[k + 1])
  }

  // ---------- the invariant ----------

  /** The lock's version, 0 while its key does not exist. */
  function Version(w: World, name: string): nat {
    if name in w.store then w.store[name].version else 0
  }

  predicate Owns(w: World, name: string, id: string) {
    name in w.store && w.store[name].value == id
  }

  predicate Free(w: World, name: string) {
    name in w.store ==> w.store[name].value == ""
  }

  /** A put in progress would take effect only on a free lock, or on the client's own. */
  ghost predicate ClientOk(w: World, name: string, id: string)
    requires id in w.clients
  {
    var c := w.clients[id];
    && (Calling(c.phase) ==> c.call < |w.calls| && w.calls[c.call] == Sent(id, RequestOf(name, id, c.phase)))
    && match c.phase
       case Idle => !Owns(w, name, id)
       case Held => Owns(w, name, id)
       case AcqPut(version, _) => version <= Version(w, name) && (version == Version(w, name) ==> Free(w, name))
       case RelPut(version, _) => version <= Version(w, name) && (version == Version(w, name) ==> Owns(w, name, id))
       case _ => true
  }

  /** A put that was ever sent is dead, or the one its client is still trying. */
  ghost predicate CallOk(w: World, name: string, n: nat)
    requires n < |w.calls|
  {
    var id, r := w.calls[n].client, w.calls[n].request;
    && id in w.clients
    && r.key == name
    && (r.Put? ==>
          || r.version < Version(w, name)
          || (Putting(w.clients[id].phase) && RequestOf(name, id, w.clients[id].phase) == r))
  }

  /** A reply to a put means the put is dead. A reply to a get tells the value at its version, and
      the one its client still waits for tells whether the client owns the lock now. */
  ghost predicate ReplyOk(w: World, name: string, n: nat, reply: Reply) {
    && n < |w.calls|
    && var id, r := w.calls[n].client, w.calls[n].request;
       if r.Put? then reply in {PutReply(OK), PutReply(ErrVersion)} && r.version < Version(w, name)
       else
         && reply.GetReply?
         && reply.err in {OK, ErrNoKey}
         && (reply.err == OK ==> 0 < reply.version <= Version(w, name))
         && (reply.err == OK && reply.version == Version(w, name) ==> Owns(w, name, reply.value))
         && (id in w.clients && w.clients[id].call == n && Calling(w.clients[id].phase) ==>
               ((reply.err == OK && reply.value == id) <==> Owns(w, name, id)))
  }

  ghost predicate Inv(w: World, name: string) {
    && "" !in w.clients
    && (name in w.store ==> w.store[name].version > 0)
    && (forall id {:trigger ClientOk(w, name, id)} | id in w.clients :: ClientOk(w, name, id))
    && (forall n: nat {:trigger CallOk(w, name, n)} | n < |w.calls| :: CallOk(w, name, n))
    && (forall r {:trigger ReplyOk(w, name, r.0, r.1)} | r in w.replies :: ReplyOk(w, name, r.0, r.1))
  }

  // ---------- every event keeps it ----------

  lemma ServePutKeeps(w: World, name: string, n: nat, w': World)
    requires Inv(w, name) && Next(w, name, Serve(n), w') && w.calls[n].request.Put?
    ensures Inv(w', name)
  {
    var who := w.calls[n].client;
    assert CallOk(w, name, n) && ClientOk(w, name, who);
    forall id | id in w'.clients ensures ClientOk(w', name, id) {
      assert ClientOk(w, name, id);
    }
    forall m: nat | m < |w'.calls| ensures CallOk(w', name, m) {
      assert CallOk(w, name, m);
    }
    forall r | r in w'.replies ensures ReplyOk(w', name, r.0, r.1) {
      if r in w.replies {
        assert ReplyOk(w, name, r.0, r.1);
        assert CallOk(w, name, r.0) && ClientOk(w, name, w.calls[r.0].client);
      }
    }
  }

  lemma ServeGetKeeps(w: World, name: string, n: nat, w': World)
    requires Inv(w, name) && Next(w, name, Serve(n), w') && w.calls[n].request.Get?
    ensures Inv(w', name)
  {
    assert CallOk(w, name, n);
    forall id | id in w'.clients ensures ClientOk(w', name, id) {
      assert ClientOk(w, name, id);
    }
    forall m: nat | m < |w'.calls| ensures CallOk(w', name, m) {
      assert CallOk(w, name, m);
    }
    forall r | r in w'.replies ensures ReplyOk(w', name, r.0, r.1) {
      if r in w.replies {
        assert ReplyOk(w, name, r.0, r.1);
      }
    }
  }

  lemma OtherPutKeeps(w: World, name: string, e: Event, w': World)
    requires Inv(w, name) && Next(w, name, e, w') && e.OtherPut?
    ensures Inv(w', name)
  {
    forall id | id in w'.clients ensures ClientOk(w', name, id) {
      assert ClientOk(w, name, id);
    }
    forall m: nat | m < |w'.calls| ensures CallOk(w', name, m) {
      assert CallOk(w, name, m);
    }
    forall r | r in w'.replies ensures ReplyOk(w', name, r.0, r.1) {
      assert ReplyOk(w, name, r.0, r.1);
    }
  }

  /** What must hold for a client to enter a phase. */
  ghost predicate MayEnter(w: World, name: string, id: string, ph: Phase) {
    match ph
    case Idle => !Owns(w, name, id)
    case Held => Owns(w, name, id)
    case AcqPut(version, _) => version <= Version(w, name) && (version == Version(w, name) ==> Free(w, name))
    case RelPut(version, _) => version <= Version(w, name) && (version == Version(w, name) ==> Owns(w, name, id))
    case _ => true
  }

  lemma EnterKeeps(w: World, name: string, id: string, ph: Phase)
    requires Inv(w, name) && id in w.clients && MayEnter(w, name, id, ph)
    requires Putting(w.clients[id].phase) ==>
               || RequestOf(name, id, w.clients[id].phase).version < Version(w, name)
               || (Putting(ph) && RequestOf(name, id, ph) == RequestOf(name, id, w.clients[id].phase))
    ensures Inv(Enter(w, name, id, ph), name)
  {
    var w' := Enter(w, name, id, ph);
    forall i | i in w'.clients ensures ClientOk(w', name, i) {
      assert ClientOk(w, name, i);
    }
    forall m: nat | m < |w'.calls| ensures CallOk(w', name, m) {
      if m < |w.calls| {
        assert CallOk(w, name, m);
      }
    }
    forall r | r in w'.replies ensures ReplyOk(w', name, r.0, r.1) {
      assert ReplyOk(w, name, r.0, r.1);
    }
  }

  lemma ReceiveKeeps(w: World, name: string, e: Event, w': World)
    requires Inv(w, name) && Next(w, name, e, w') && e.Receive?
    ensures Inv(w', name)
  {
    var c := w.clients[e.id];
    assert ClientOk(w, name, e.id) && ReplyOk(w, name, c.call, e.reply);
    EnterKeeps(w, name, e.id, OnAnswer(e.id, c.phase, AnswerOf(e.reply)));
  }

  lemma EventKeeps(w: World, name: string, e: Event, w': World)
    requires Inv(w, name) && Next(w, name, e, w')
    ensures Inv(w', name)
  {
    match e
    case Serve(n) =>
      if w.calls[n].request.Put? {
        ServePutKeeps(w, name, n, w');
      } else {
        ServeGetKeeps(w, name, n, w');
      }
    case Receive(_, _) => ReceiveKeeps(w, name, e, w');
    case OtherPut(_, _, _) => OtherPutKeeps(w, name, e, w');
    case Acquire(id) => EnterKeeps(w, name, id, AcqGet);
    case Release(id) => EnterKeeps(w, name, id, RelGet);
    case TimeOut(id) =>
      assert ClientOk(w, name, id);
      EnterKeeps(w, name, id, OnAnswer(id, w.clients[id].phase, Lost));
  }

  lemma {:induction false} RunOk(ws: seq<World>, name: string, es: seq<Event>, k: nat)
    requires Run(ws, name, es) && k < |ws|
    ensures Inv(ws[k], name)
  {
    if k == 0 {
      forall id | id in ws[0].clients ensures ClientOk(ws[0], name, id) {
      }
    } else {
      RunOk(ws, name, es, k - 1);
      assert Next(ws[k - 1], name, es[k - 1], ws[k]);
      EventKeeps(ws[k - 1], name, es[k - 1], ws[k]);
    }
  }

  // ---------- the theorems ----------

  /** Mutual exclusion: at no moment of any run are two clients between the return of Acquire and
      the start of Release. */
  lemma MutualExclusion(ws: seq<World>, name: string, es: seq<Event>, k: nat, id1: string, id2: string)
    requires Run(ws, name, es) && k < |ws| && id1 in ws[k].clients && id2 in ws[k].clients
    requires ws[k].clients[id1].phase == Held && ws[k].clients[id2].phase == Held
    ensures id1 == id2
  {
    RunOk(ws, name, es, k);
    assert ClientOk(ws[k], name, id1) && ClientOk(ws[k], name, id2);
  }

  lemma HeldStays(w: World, name: string, e: Event, w': World, id: string)
    requires Inv(w, name) && Next(w, name, e, w') && id in w.clients && id in w'.clients
    requires w.clients[id].phase == Held && w'.clients[id].phase == Held
    ensures name in w.store && name in w'.store && w'.store[name] == w.store[name]
  {
    assert ClientOk(w, name, id);
    if e.Serve? {
      assert CallOk(w, name, e.n) && ClientOk(w, name, w.calls[e.n].client);
    }
  }

  /** While a client holds the lock nothing touches it: neither value nor version changes. */
  lemma {:induction false} HolderUndisturbed(ws: seq<World>, name: string, es: seq<Event>, j: nat, k: nat, id: string)
    requires Run(ws, name, es) && j <= k < |ws|
    requires forall i: nat | j <= i <= k :: id in ws[i].clients && ws[i].clients[id].phase == Held
    ensures name in ws[j].store && name in ws[k].store
    ensures ws[k].store[name] == ws[j].store[name] && ws[j].store[name].value == id
    decreases k - j
  {
    RunOk(ws, name, es, j);
    assert ClientOk(ws[j], name, id);
    if j < k {
      assert Next(ws[j], name, es[j], ws[j + 1]);
      HeldStays(ws[j], name, es[j], ws[j + 1], id);
      HolderUndisturbed(ws, name, es, j + 1, k, id);
    }
  }

  /** Once Release has returned the lock is not the client's, and no put it left in the network
      can take effect. */
  lemma ReleasedForGood(ws: seq<World>, name: string, es: seq<Event>, k: nat, id: string, n: nat)
    requires Run(ws, name, es) && k < |ws| && id in ws[k].clients && ws[k].clients[id].phase == Idle
    requires n < |ws[k].calls| && ws[k].calls[n].client == id && ws[k].calls[n].request.Put?
    ensures !Owns(ws[k], name, id)
    ensures var r := KvServer.Serve(ws[k].store, ws[k].calls[n].request);
            r == (ws[k].store, PutReply(ErrVersion))
  {
    RunOk(ws, name, es, k);
    assert ClientOk(ws[k], name, id) && CallOk(ws[k], name, n);
  }

  // ---------- a run with a holder ----------

  lemma Extend(ws: seq<World>, name: string, es: seq<Event>, e: Event, w': World)
    returns (ws': seq<World>, es': seq<Event>)
    requires Run(ws, name, es) && Next(ws[|es|], name, e, w')
    ensures Run(ws', name, es') && ws'[|es'|] == w'
    ensures ws <= ws' && es <= es'
  {
    hide Next;
    ws', es' := ws + [w'], es + [e];
    forall k: nat | k < |es'| ensures Next(ws'[k], name, es'[k], ws'[k + 1]) {
      assert k < |es| ==> Next(ws[k], name, es[k], ws[k + 1]);
    }
  }

  /** A client's call is served and answered. */
  lemma ServedAndAnswered(ws: seq<World>, name: string, es: seq<Event>, id: string)
    returns (ws': seq<World>, es': seq<Event>)
    requires Run(ws, name, es) && id in ws[|es|].clients && Calling(ws[|es|].clients[id].phase)
    requires ws[|es|].clients[id].call < |ws[|es|].calls|
    ensures Run(ws', name, es')
    ensures var w := ws[|es|];
            var c := w.clients[id];
            var r := KvServer.Serve(w.store, w.calls[c.call].request);
            ws'[|es'|] == Enter(w.(store := r.0, replies := w.replies + {(c.call, r.1)}), name, id,
                                OnAnswer(id, c.phase, AnswerOf(r.1)))
  {
    var w := ws[|es|];
    var c := w.clients[id];
    var r := KvServer.Serve(w.store, w.calls[c.call].request);
    var w1 := w.(store := r.0, replies := w.replies + {(c.call, r.1)});
    ws', es' := Extend(ws, name, es, Serve(c.call), w1);
    ws', es' := Extend(ws', name, es', Receive(id, r.1), Enter(w1, name, id, OnAnswer(id, c.phase, AnswerOf(r.1))));
  }

  /** On a reliable network a single client gets the lock. */
  lemma OneClientAcquires(name: string, id: string) returns (ws: seq<World>, es: seq<Event>)
    requires id != ""
    ensures Run(ws, name, es) && id in ws[|es|].clients && ws[|es|].clients[id].phase == Held
  {
    ws, es := [World(map[], map[id := Client(Idle, 0)], [], {})], [];
    ws, es := Extend(ws, name, es, Acquire(id), Enter(ws[0], name, id, AcqGet));
    ws, es := ServedAndAnswered(ws, name, es, id);
    assert ws[|es|].clients[id] == Client(AcqPut(0, false), 1) && ws[|es|].calls[1].request == Put(name, id, 0);
    ws, es := ServedAndAnswered(ws, name, es, id);
    assert ws[|es|].clients[id] == Client(AcqCheck, 2) && ws[|es|].calls[2].request == Get(name);
    assert ws[|es|].store == map[name := VersionedValue(id, 1)];
    ws, es := ServedAndAnswered(ws, name, es, id);
  }
}
