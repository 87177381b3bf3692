// The lock can always be taken when it is free and given back when it is held: from every reachable
// state there is a run to there.
module LockProgress {
  import opened Core
  import opened KvServer
  import opened KvLock
  import opened LockSafety

  /** One run goes on from another. */
  predicate Continues(ws: seq<World>, es: seq<Event>, ws': seq<World>, es': seq<Event>) {
    ws <= ws' && es <= es'
  }

  /** Nobody but this client moves. */
  ghost predicate Alone(w: World, w': World, id: string) {
    forall i {:trigger i in w.clients} {:trigger i in w'.clients} | i in w.clients && i != id ::
      i in w'.clients && w'.clients[i] == w.clients[i]
  }

  /** The client's call is served and answered. */
  lemma Answered(ws: seq<World>, name: string, es: seq<Event>, id: string) returns (ws': seq<World>, es': seq<Event>)
    requires Run(ws, name, es) && id in ws[|es|].clients && Calling(ws[|es|].clients[id].phase)
    ensures Run(ws', name, es') && Continues(ws, es, ws', es')
    ensures var w, w', ph := ws[|es|], ws'[|es'|], ws[|es|].clients[id].phase;
            var r := KvServer.Serve(w.store, RequestOf(name, id, ph));
            && (r.1.GetReply? || r.1.PutReply?)
            && Alone(w, w', id) && w'.store == r.0
            && id in w'.clients && w'.clients[id].phase == OnAnswer(id, ph, AnswerOf(r.1))
  {
    RunOk(ws, name, es, |es|);
    var w := ws[|es|];
    var c := w.clients[id];
    assert ClientOk(w, name, id);
    var r := KvServer.Serve(w.store, RequestOf(name, id, c.phase));
    var w1 := w.(store := r.0, replies := w.replies + {(c.call, r.1)});
    ws', es' := Extend(ws, name, es, Event.Serve(c.call), w1);
    ws', es' := Extend(ws', name, es', Receive(id, r.1), Enter(w1, name, id, OnAnswer(id, c.phase, AnswerOf(r.1))));
  }

  predicate Acquiring(ph: Phase) {
    ph.AcqGet? || ph.AcqPut? || ph.AcqCheck?
  }

  predicate Releasing(ph: Phase) {
    ph.RelGet? || ph.RelPut? || ph.RelCheck?
  }

  /** How many answers at most a client is from holding a lock that nobody else has, if it is
      answered at once: a put that is too late, or was never made, costs it another look. */
  function Distance(w: World, name: string, id: string): nat
    requires id in w.clients
  {
    match w.clients[id].phase
    case AcqGet => if Owns(w, name, id) then 1 else 3
    case AcqPut(version, _) => if version == Version(w, name) then 2 else 5
    case AcqCheck => if Owns(w, name, id) then 1 else 4
    case _ => 0
  }

  lemma {:induction false} AcquireEnds(ws: seq<World>, name: string, es: seq<Event>, id: string)
    returns (ws': seq<World>, es': seq<Event>)
    requires Run(ws, name, es) && id in ws[|es|].clients && Acquiring(ws[|es|].clients[id].phase)
    requires Free(ws[|es|], name) || Owns(ws[|es|], name, id)
    ensures Run(ws', name, es') && Continues(ws, es, ws', es')
    ensures Alone(ws[|es|], ws'[|es'|], id)
    ensures id in ws'[|es'|].clients && ws'[|es'|].clients[id].phase == Held
    decreases Distance(ws[|es|], name, id)
  {
    RunOk(ws, name, es, |es|);
    assert ClientOk(ws[|es|], name, id);
    ws', es' := Answered(ws, name, es, id);
    if ws'[|es'|].clients[id].phase != Held {
      ws', es' := AcquireEnds(ws', name, es', id);
    }
  }

  /** A lock that is free, or the client's own already, can be taken: a client outside or anywhere in
      Acquire has a run on which it comes to hold it. */
  lemma FreeLockIsTaken(ws: seq<World>, name: string, es: seq<Event>, id: string)
    returns (ws': seq<World>, es': seq<Event>)
    requires Run(ws, name, es) && id in ws[|es|].clients
    requires ws[|es|].clients[id].phase == Idle || Acquiring(ws[|es|].clients[id].phase)
    requires Free(ws[|es|], name) || Owns(ws[|es|], name, id)
    ensures Run(ws', name, es') && Continues(ws, es, ws', es')
    ensures Alone(ws[|es|], ws'[|es'|], id)
    ensures id in ws'[|es'|].clients && ws'[|es'|].clients[id].phase == Held
  {
    ws', es' := ws, es;
    var w := ws[|es|];
    if w.clients[id].phase == Idle {
      ws', es' := Extend(ws, name, es, Acquire(id), Enter(w, name, id, AcqGet));
    }
    ws', es' := AcquireEnds(ws', name, es', id);
  }

  /** The same for a client that gives the lock back. */
  function ReleaseDistance(w: World, name: string, id: string): nat
    requires id in w.clients
  {
    match w.clients[id].phase
    case RelGet => if Owns(w, name, id) then 3 else 1
    case RelPut(version, _) => if version == Version(w, name) then 2 else 5
    case RelCheck => if Free(w, name) then 1 else 4
    case _ => 0
  }

  lemma {:induction false} ReleaseEnds(ws: seq<World>, name: string, es: seq<Event>, id: string)
    returns (ws': seq<World>, es': seq<Event>)
    requires Run(ws, name, es) && id in ws[|es|].clients && Releasing(ws[|es|].clients[id].phase)
    ensures Run(ws', name, es') && Continues(ws, es, ws', es')
    ensures Alone(ws[|es|], ws'[|es'|], id)
    ensures id in ws'[|es'|].clients && ws'[|es'|].clients[id].phase == Idle
    ensures Owns(ws[|es|], name, id) || Free(ws[|es|], name) ==> Free(ws'[|es'|], name)
    decreases ReleaseDistance(ws[|es|], name, id)
  {
    RunOk(ws, name, es, |es|);
    assert ClientOk(ws[|es|], name, id);
    ws', es' := Answered(ws, name, es, id);
    if ws'[|es'|].clients[id].phase != Idle {
      ws', es' := ReleaseEnds(ws', name, es', id);
    }
  }

  /** A lock that is held can be given back: from anywhere between holding it and being outside again
      a client has a run to there, and the lock is free then. */
  lemma HeldLockIsReleased(ws: seq<World>, name: string, es: seq<Event>, id: string)
    returns (ws': seq<World>, es': seq<Event>)
    requires Run(ws, name, es) && id in ws[|es|].clients
    requires ws[|es|].clients[id].phase == Held || Releasing(ws[|es|].clients[id].phase)
    ensures Run(ws', name, es') && Continues(ws, es, ws', es')
    ensures Alone(ws[|es|], ws'[|es'|], id)
    ensures id in ws'[|es'|].clients && ws'[|es'|].clients[id].phase == Idle
    ensures ws[|es|].clients[id].phase == Held ==> Free(ws'[|es'|], name)
  {
    ws', es' := ws, es;
    var w := ws[|es|];
    if w.clients[id].phase == Held {
      RunOk(ws, name, es, |es|);
      assert ClientOk(w, name, id);
      ws', es' := Extend(ws, name, es, Release(id), Enter(w, name, id, RelGet));
    }
    ws', es' := ReleaseEnds(ws', name, es', id);
  }

  /** A lock can be taken over and over: one client takes it, gives it back, and another takes it. */
  lemma LockIsTakenInTurn(ws: seq<World>, name: string, es: seq<Event>, id1: string, id2: string)
    returns (ws': seq<World>, es': seq<Event>, j: nat, k: nat)
    requires Run(ws, name, es) && id1 != id2 && id1 in ws[|es|].clients && id2 in ws[|es|].clients
    requires ws[|es|].clients[id1].phase == Idle && ws[|es|].clients[id2].phase == Idle && Free(ws[|es|], name)
    ensures Run(ws', name, es') && Continues(ws, es, ws', es') && |es| <= j <= k <= |es'|
    ensures id1 in ws'[j].clients && ws'[j].clients[id1].phase == Held
    ensures id1 in ws'[k].clients && ws'[k].clients[id1].phase == Idle && Free(ws'[k], name)
    ensures id2 in ws'[|es'|].clients && ws'[|es'|].clients[id2].phase == Held
  {
    var ws1, es1 := FreeLockIsTaken(ws, name, es, id1);
    j := |es1|;
    var ws2, es2 := HeldLockIsReleased(ws1, name, es1, id1);
    k := |es2|;
    assert ws2[j] == ws1[j];
    ws', es' := FreeLockIsTaken(ws2, name, es2, id2);
    assert ws'[j] == ws2[j] && ws'[k] == ws2[k];
  }
}
