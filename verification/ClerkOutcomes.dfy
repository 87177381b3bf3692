// What the error a Clerk's Put returns says about whether, and when, the put takes effect.
module ClerkOutcomes {
  import opened Core
  import opened KvServer
  import KvLock

  /** A call of Clerk.Put. attempt numbers its latest network call. */
  datatype PutCall = PutCall(
    key: string, value: string, version: nat, seen: bool, attempt: nat, retried: bool, outcome: Option<Err>)

  /** attempts[n] is the put that made network call n; served are the calls that reached the
      server; effects lists the puts that changed the store, in order. */
  datatype World = World(
    store: Store,
    puts: seq<PutCall>,
    attempts: seq<nat>,
    served: set<nat>,
    replies: set<(nat, Err)>,
    effects: seq<nat>)

  datatype Event =
    | Begin(key: string, value: string, version: nat)
    | Serve(n: nat)
    | Receive(id: nat, err: Err)
    | Retry(id: nat)

  function Version(store: Store, key: string): nat {
    if key in store then store[key].version else 0
  }

  ghost predicate Initial(w: World) {
    && (forall key | key in w.store :: w.store[key].version > 0)
    && w.puts == [] && w.attempts == [] && w.served == {} && w.replies == {} && w.effects == []
  }

  /** seen records that the version put is not beyond the key's version when the call begins, which
      is so for every version that a get returned. */
  function Started(w: World, key: string, value: string, version: nat): World {
    w.(puts := w.puts + [PutCall(key, value, version, version <= Version(w.store, key), |w.attempts|, false, None)],
       attempts := w.attempts + [|w.puts|])
  }

  function Served(w: World, n: nat): World
    requires n < |w.attempts| && w.attempts[n] < |w.puts|
  {
    var id := w.attempts[n];
    var p := w.puts[id];
    var r := PutTo(w.store, p.key, p.value, p.version);
    w.(store := r.0,
       served := w.served + {n},
       replies := w.replies + {(n, r.1.err)},
       effects := if r.1.err == OK then w.effects + [id] else w.effects)
  }

  ghost predicate Next(w: World, e: Event, w': World) {
    match e
    case Begin(key, value, version) => w' == Started(w, key, value, version)
    case Serve(n) => n < |w.attempts| && w.attempts[n] < |w.puts| && w' == Served(w, n)
    case Receive(id, err) =>
      && id < |w.puts| && w.puts[id].outcome.None? && (w.puts[id].attempt, err) in w.replies
      && w' == w.(puts := w.puts[id := w.puts[id].(outcome := Some(KvLock.Verdict(err, w.puts[id].retried)))])
    case Retry(id) =>
      && id < |w.puts| && w.puts[id].outcome.None?
      && w' == w.(puts := w.puts[id := w.puts[id].(retried := true, attempt := |w.attempts|)],
                  attempts := w.attempts + [id])
  }

  /** One network call makes at most one delivery, possibly late. */
  predicate AtMostOnce(w: World, e: Event) {
    e.Serve? ==> e.n !in w.served
  }

  /** A run from w on; once says whether the network keeps to AtMostOnce. */
  ghost predicate RunFrom(ws: seq<World>, es: seq<Event>, once: bool) {
    && |ws| == |es| + 1
    && forall k: nat {:trigger es[k]} | k < |es| :: Next(ws[k], es[k], ws[k + 1]) && (once ==> AtMostOnce(ws[k], es[k]))
  }

  ghost predicate Run(ws: seq<World>, es: seq<Event>, once: bool) {
    RunFrom(ws, es, once) && Initial(ws[0])
  }

  /** How often put id has taken effect. */
  function Effects(w: World, id: nat): nat {
    multiset(w.effects)[id]
  }

  // ---------- the invariant ----------

  ghost predicate AttemptOk(w: World, n: nat)
    requires n < |w.attempts|
  {
    w.attempts[n] < |w.puts|
  }

  ghost predicate PutOk(w: World, id: nat)
    requires id < |w.puts|
  {
    var p := w.puts[id];
    && p.attempt < |w.attempts| && w.attempts[p.attempt] == id
    && (!p.retried ==> forall n | 0 <= n < |w.attempts| && w.attempts[n] == id :: n == p.attempt)
    && (p.seen ==> p.version <= Version(w.store, p.key))
    && match p.outcome
       case None => true
       case Some(ErrMaybe) => p.retried && (p.attempt, ErrVersion) in w.replies
       case Some(err) => (p.attempt, err) in w.replies && (err == ErrVersion ==> !p.retried)
  }

  ghost predicate ReplyOk(w: World, n: nat, err: Err) {
    && n in w.served
    && n < |w.attempts| && w.attempts[n] < |w.puts|
    && var p := w.puts[w.attempts[n]];
       && err in {OK, ErrVersion, ErrNoKey}
       && (err == OK ==> w.attempts[n] in w.effects)
       && (p.seen ==> err != ErrNoKey && p.version < Version(w.store, p.key))
  }

  /** An effect raised its key beyond the version it put, and came after lower versions only. */
  ghost predicate EffectOk(w: World, i: nat)
    requires i < |w.effects|
  {
    && w.effects[i] < |w.puts|
    && var p := w.puts[w.effects[i]];
       && p.version < Version(w.store, p.key)
       && forall j | 0 <= j < i && w.effects[j] < |w.puts| && w.puts[w.effects[j]].key == p.key ::
            w.puts[w.effects[j]].version < p.version
  }

  ghost predicate Inv(w: World) {
    && (forall key | key in w.store :: w.store[key].version > 0)
    && (forall n | n in w.served :: n < |w.attempts|)
    && (forall n: nat {:trigger AttemptOk(w, n)} | n < |w.attempts| :: AttemptOk(w, n))
    && (forall id: nat {:trigger PutOk(w, id)} | id < |w.puts| :: PutOk(w, id))
    && (forall r {:trigger ReplyOk(w, r.0, r.1)} | r in w.replies :: ReplyOk(w, r.0, r.1))
    && (forall i: nat {:trigger EffectOk(w, i)} | i < |w.effects| :: EffectOk(w, i))
  }

  /** With at most one delivery per call, a call has at most one reply, and every effect is that
      of some attempt that was answered OK. */
  ghost predicate InvOnce(w: World) {
    && (forall r, s | r in w.replies && s in w.replies && r.0 == s.0 :: r.1 == s.1)
    && (forall id: nat {:trigger TookEffect(w, id)} | id in w.effects :: TookEffect(w, id))
  }

  ghost predicate TookEffect(w: World, id: nat) {
    exists n: nat :: n < |w.attempts| && w.attempts[n] == id && (n, OK) in w.replies
  }

  // ---------- every event keeps it ----------

  lemma ServeKeeps(w: World, n: nat, w': World)
    requires Inv(w) && Next(w, Serve(n), w')
    ensures Inv(w')
  {
    var id := w.attempts[n];
    assert AttemptOk(w, n) && PutOk(w, id);
    forall m: nat | m < |w'.attempts| ensures AttemptOk(w', m) {
      assert AttemptOk(w, m);
    }
    forall i: nat | i < |w'.puts| ensures PutOk(w', i) {
      assert PutOk(w, i);
    }
    forall r | r in w'.replies ensures ReplyOk(w', r.0, r.1) {
      if r in w.replies {
        assert ReplyOk(w, r.0, r.1);
      }
    }
    forall i: nat | i < |w'.effects| ensures EffectOk(w', i) {
      if i < |w.effects| {
        assert EffectOk(w, i);
      } else {
        forall j: nat | j < |w.effects| && w.effects[j] < |w.puts| && w.puts[w.effects[j]].key == w.puts[id].key
          ensures w.puts[w.effects[j]].version < w.puts[id].version
        {
          assert EffectOk(w, j);
        }
      }
    }
  }

  lemma OtherKeeps(w: World, e: Event, w': World)
    requires Inv(w) && Next(w, e, w') && !e.Serve?
    ensures Inv(w')
  {
    forall m: nat | m < |w'.attempts| ensures AttemptOk(w', m) {
      assert m < |w.attempts| ==> AttemptOk(w, m);
    }
    if e.Receive? {
      assert ReplyOk(w, w.puts[e.id].attempt, e.err);
    }
    forall i: nat | i < |w'.puts| ensures PutOk(w', i) {
      if i < |w.puts| {
        assert PutOk(w, i);
      }
      forall m: nat | m < |w.attempts| ensures w.attempts[m] < |w.puts| {
        assert AttemptOk(w, m);
      }
    }
    forall r | r in w'.replies ensures ReplyOk(w', r.0, r.1) {
      assert ReplyOk(w, r.0, r.1);
    }
    forall i: nat | i < |w'.effects| ensures EffectOk(w', i) {
      EffectStays(w, w', i);
    }
  }

  lemma EffectStays(w: World, w': World, i: nat)
    requires (forall k: nat {:trigger EffectOk(w, k)} | k < |w.effects| :: EffectOk(w, k)) && i < |w.effects|
    requires w'.effects == w.effects && w'.store == w.store && |w.puts| <= |w'.puts|
    requires forall id: nat | id < |w.puts| :: w'.puts[id].key == w.puts[id].key && w'.puts[id].version == w.puts[id].version
    ensures EffectOk(w', i)
  {
    assert EffectOk(w, i);
    forall j: nat | j < i ensures w.effects[j] < |w.puts| {
      assert EffectOk(w, j);
    }
  }

  lemma EventKeeps(w: World, e: Event, w': World)
    requires Inv(w) && Next(w, e, w')
    ensures Inv(w')
    ensures InvOnce(w) && AtMostOnce(w, e) ==> InvOnce(w')
  {
    if e.Serve? {
      ServeKeeps(w, e.n, w');
    } else {
      OtherKeeps(w, e, w');
    }
    if InvOnce(w) && AtMostOnce(w, e) {
      OnceKeeps(w, e, w');
    }
  }

  lemma OnceKeeps(w: World, e: Event, w': World)
    requires Inv(w) && InvOnce(w) && Next(w, e, w') && AtMostOnce(w, e)
    ensures InvOnce(w')
  {
    forall r | r in w.replies ensures r.0 in w.served {
      assert ReplyOk(w, r.0, r.1);
    }
    forall id: nat | id in w'.effects ensures TookEffect(w', id) {
      if id in w.effects {
        assert TookEffect(w, id);
        var n: nat :| n < |w.attempts| && w.attempts[n] == id && (n, OK) in w.replies;
        assert w'.attempts[n] == id;
      } else {
        assert (e.n, OK) in w'.replies;
      }
    }
  }

  lemma {:induction false} RunOk(ws: seq<World>, es: seq<Event>, once: bool, k: nat)
    requires Run(ws, es, once) && k < |ws|
    ensures Inv(ws[k]) && (once ==> InvOnce(ws[k]))
  {
    if k > 0 {
      RunOk(ws, es, once, k - 1);
      assert Next(ws[k - 1], es[k - 1], ws[k]);
      EventKeeps(ws[k - 1], es[k - 1], ws[k]);
    }
  }

  /** What a run keeps of a put from one moment to any later one. */
  lemma {:induction false} PutStays(ws: seq<World>, es: seq<Event>, once: bool, j: nat, k: nat, id: nat)
    requires RunFrom(ws, es, once) && j <= k < |ws| && id < |ws[j].puts|
    ensures id < |ws[k].puts|
    ensures var p, q := ws[j].puts[id], ws[k].puts[id];
            && q.key == p.key && q.version == p.version && q.seen == p.seen
            && (p.outcome.Some? ==> q == p)
    ensures Effects(ws[j], id) <= Effects(ws[k], id)
    decreases k - j
  {
    if j < k {
      assert Next(ws[j], es[j], ws[j + 1]);
      PutStays(ws, es, once, j + 1, k, id);
    }
  }

  // ---------- the theorems ----------

  /** For each key and version at most one put ever takes effect, and it does so once, however often
      the network repeats a delivery. */
  lemma OneEffectPerVersion(ws: seq<World>, es: seq<Event>, k: nat, i: nat, j: nat)
    requires Run(ws, es, false) && k < |ws| && i < j < |ws[k].effects|
    ensures ws[k].effects[i] < |ws[k].puts| && ws[k].effects[j] < |ws[k].puts|
    ensures var p, q := ws[k].puts[ws[k].effects[i]], ws[k].puts[ws[k].effects[j]];
            (p.key, p.version) != (q.key, q.version)
  {
    RunOk(ws, es, false, k);
    assert EffectOk(ws[k], i) && EffectOk(ws[k], j);
  }

  lemma {:induction false} CountOnce(s: seq<nat>, x: nat)
    requires forall i, j | 0 <= i < j < |s| && s[i] == x :: s[j] != x
    ensures multiset(s)[x] <= 1
  {
    if |s| > 0 {
      var n := |s| - 1;
      assert s == s[..n] + [s[n]];
      CountOnce(s[..n], x);
      if s[n] == x {
        assert x !in s[..n];
      }
    }
  }

  lemma AtMostOneEffect(w: World, id: nat)
    requires Inv(w)
    ensures Effects(w, id) <= 1
  {
    forall i: nat, j: nat | i < j < |w.effects| && w.effects[i] == id ensures w.effects[j] != id {
      assert EffectOk(w, i) && EffectOk(w, j);
    }
    CountOnce(w.effects, id);
  }

  /** OK means the put took effect exactly once, and will not again, however often the network
      repeats a delivery. */
  lemma OkMeansExactlyOnce(ws: seq<World>, es: seq<Event>, j: nat, k: nat, id: nat)
    requires Run(ws, es, false) && j <= k < |ws| && id < |ws[j].puts|
    requires ws[j].puts[id].outcome == Some(OK)
    ensures Effects(ws[j], id) == 1 && Effects(ws[k], id) == 1
  {
    RunOk(ws, es, false, j);
    RunOk(ws, es, false, k);
    PutStays(ws, es, false, j, k, id);
    assert PutOk(ws[j], id);
    assert ReplyOk(ws[j], ws[j].puts[id].attempt, OK);
    AtMostOneEffect(ws[k], id);
  }

  /** If each network call is delivered at most once, ErrVersion means the put never took effect and
      never will. */
  lemma ErrVersionMeansNever(ws: seq<World>, es: seq<Event>, j: nat, k: nat, id: nat)
    requires Run(ws, es, true) && j <= k < |ws| && id < |ws[j].puts|
    requires ws[j].puts[id].outcome == Some(ErrVersion)
    ensures Effects(ws[k], id) == 0
  {
    RunOk(ws, es, true, k);
    PutStays(ws, es, true, j, k, id);
    var w := ws[k];
    assert PutOk(w, id);
    forall n: nat | n < |w.attempts| && w.attempts[n] == id ensures (n, OK) !in w.replies {
    }
    assert id in w.effects ==> TookEffect(w, id);
  }

  /** No attempt of a put is still under way that could find its version. */
  predicate Settled(w: World, id: nat)
    requires id < |w.puts|
  {
    || w.puts[id].version < Version(w.store, w.puts[id].key)
    || forall n | 0 <= n < |w.attempts| && w.attempts[n] == id :: n in w.served
  }

  lemma SettledStays(w: World, e: Event, w': World, id: nat)
    requires Inv(w) && Next(w, e, w') && AtMostOnce(w, e) && id < |w.puts| && w.puts[id].outcome.Some?
    requires Settled(w, id)
    ensures id < |w'.puts| && Settled(w', id) && Effects(w', id) == Effects(w, id)
  {
    if e.Serve? {
      assert PutOk(w, id);
      assert AttemptOk(w, e.n);
    }
  }

  /** A put that returned after an attempt of a version its caller had seen is settled, whatever it
      returned. In particular ErrMaybe then means at most once, and not later. */
  lemma SeenMeansSettled(ws: seq<World>, es: seq<Event>, k: nat, id: nat)
    requires Run(ws, es, false) && k < |ws| && id < |ws[k].puts|
    requires ws[k].puts[id].seen && ws[k].puts[id].outcome.Some?
    ensures ws[k].puts[id].outcome.value in {OK, ErrVersion, ErrMaybe}
    ensures Settled(ws[k], id) && Effects(ws[k], id) <= 1
  {
    RunOk(ws, es, false, k);
    SeenIsSettled(ws[k], id);
    AtMostOneEffect(ws[k], id);
  }

  lemma SeenIsSettled(w: World, id: nat)
    requires Inv(w) && id < |w.puts| && w.puts[id].seen && w.puts[id].outcome.Some?
    ensures w.puts[id].outcome.value in {OK, ErrVersion, ErrMaybe} && Settled(w, id)
  {
    assert PutOk(w, id);
    var err := if w.puts[id].outcome.value == ErrMaybe then ErrVersion else w.puts[id].outcome.value;
    assert ReplyOk(w, w.puts[id].attempt, err);
  }

  lemma {:induction false} SettledForGood(ws: seq<World>, es: seq<Event>, id: nat)
    requires RunFrom(ws, es, true) && Inv(ws[0]) && id < |ws[0].puts| && ws[0].puts[id].outcome.Some?
    requires Settled(ws[0], id)
    ensures Effects(ws[|es|], id) == Effects(ws[0], id)
    decreases |es|
  {
    if |es| > 0 {
      assert Next(ws[0], es[0], ws[1]) && AtMostOnce(ws[0], es[0]);
      EventKeeps(ws[0], es[0], ws[1]);
      SettledStays(ws[0], es[0], ws[1], id);
      Tail(ws, es);
      SettledForGood(ws[1..], es[1..], id);
    }
  }

  lemma Tail(ws: seq<World>, es: seq<Event>)
    requires RunFrom(ws, es, true) && |es| > 0
    ensures RunFrom(ws[1..], es[1..], true)
    ensures ws[1..][0] == ws[1] && ws[1..][|es[1..]|] == ws[|es|]
  {
    forall k: nat | k < |es[1..]|
      ensures Next(ws[1..][k], es[1..][k], ws[1..][k + 1]) && AtMostOnce(ws[1..][k], es[1..][k])
    {
      assert Next(ws[k + 1], es[k + 1], ws[k + 2]);
    }
  }

  /** From a state with an attempt still under way and the key not past its version, other puts can
      bring the key to that version, and then the late attempt takes effect. */
  lemma {:induction false} LateEffect(w: World, id: nat, n: nat) returns (ws: seq<World>, es: seq<Event>)
    requires Inv(w) && id < |w.puts| && n < |w.attempts| && w.attempts[n] == id && n !in w.served
    requires Version(w.store, w.puts[id].key) <= w.puts[id].version
    ensures RunFrom(ws, es, true) && ws[0] == w
    ensures Effects(ws[|es|], id) == Effects(w, id) + 1
    decreases w.puts[id].version - Version(w.store, w.puts[id].key)
  {
    var p := w.puts[id];
    var v := Version(w.store, p.key);
    if v == p.version {
      ws, es := [w, Served(w, n)], [Serve(n)];
    } else {
      var m := |w.attempts|;
      var w1 := Started(w, p.key, "", v);
      EventKeeps(w, Begin(p.key, "", v), w1);
      var w2 := Served(w1, m);
      EventKeeps(w1, Serve(m), w2);
      assert Version(w2.store, p.key) == v + 1;
      var ws2, es2 := LateEffect(w2, id, n);
      Prepend(w1, Serve(m), w2, ws2, es2);
      ws, es := [w1] + ws2, [Serve(m)] + es2;
      Prepend(w, Begin(p.key, "", v), w1, ws, es);
      ws, es := [w] + ws, [Begin(p.key, "", v)] + es;
    }
  }

  lemma Prepend(w: World, e: Event, w': World, ws: seq<World>, es: seq<Event>)
    requires Next(w, e, w') && AtMostOnce(w, e) && RunFrom(ws, es, true) && ws[0] == w'
    ensures RunFrom([w] + ws, [e] + es, true)
    ensures ([w] + ws)[|[e] + es|] == ws[|es|]
  {
    var ws', es' := [w] + ws, [e] + es;
    forall k: nat | k < |es'| ensures Next(ws'[k], es'[k], ws'[k + 1]) && AtMostOnce(ws'[k], es'[k]) {
      if k > 0 {
        assert Next(ws[k - 1], es[k - 1], ws[k]);
      }
    }
  }

  // ---------- the condition a caller can check ----------

  /** Once put id has returned in a run, nothing later in that run changes how often it took effect. */
  ghost predicate NoLateEffect(ws: seq<World>, id: nat) {
    forall j: nat, k: nat {:trigger ws[j], ws[k]} |
      j <= k < |ws| && id < |ws[j].puts| && ws[j].puts[id].outcome.Some? ::
      Effects(ws[k], id) == Effects(ws[j], id)
  }

  lemma {:induction false} RunFromOk(ws: seq<World>, es: seq<Event>, once: bool, k: nat)
    requires RunFrom(ws, es, once) && Inv(ws[0]) && k < |ws|
    ensures Inv(ws[k])
  {
    if k > 0 {
      RunFromOk(ws, es, once, k - 1);
      assert Next(ws[k - 1], es[k - 1], ws[k]);
      EventKeeps(ws[k - 1], es[k - 1], ws[k]);
    }
  }

  lemma Part(ws: seq<World>, es: seq<Event>, j: nat, k: nat)
    requires RunFrom(ws, es, true) && j <= k < |ws|
    ensures RunFrom(ws[j..k + 1], es[j..k], true)
  {
    forall i: nat | i < k - j
      ensures Next(ws[j..k + 1][i], es[j..k][i], ws[j..k + 1][i + 1]) && AtMostOnce(ws[j..k + 1][i], es[j..k][i])
    {
      assert Next(ws[j + i], es[j + i], ws[j + i + 1]);
    }
  }

  /** A put of a version not beyond the key's has no late effect, whatever it returned. */
  lemma SeenHasNoLateEffect(w: World, key: string, value: string, version: nat, ws: seq<World>, es: seq<Event>)
    requires Inv(w) && version <= Version(w.store, key)
    requires RunFrom(ws, es, true) && ws[0] == Started(w, key, value, version)
    ensures NoLateEffect(ws, |w.puts|)
  {
    var id := |w.puts|;
    EventKeeps(w, Begin(key, value, version), ws[0]);
    forall j: nat, k: nat | j <= k < |ws| && id < |ws[j].puts| && ws[j].puts[id].outcome.Some?
      ensures Effects(ws[k], id) == Effects(ws[j], id)
    {
      PutStays(ws, es, true, 0, j, id);
      RunFromOk(ws, es, true, j);
      SeenIsSettled(ws[j], id);
      Part(ws, es, j, k);
      SettledForGood(ws[j..k + 1], es[j..k], id);
    }
  }

  /** A put of a version beyond the key's: its first attempt is delayed, the second answered, the
      put returns, and other puts then bring the key to the version that the first attempt waits for. */
  lemma UnseenCanBeLate(w: World, key: string, value: string, version: nat) returns (ws: seq<World>, es: seq<Event>)
    requires Inv(w) && version > Version(w.store, key)
    ensures RunFrom(ws, es, true) && ws[0] == Started(w, key, value, version)
    ensures !NoLateEffect(ws, |w.puts|)
  {
    var id, n := |w.puts|, |w.attempts|;
    var w0 := Started(w, key, value, version);
    EventKeeps(w, Begin(key, value, version), w0);
    var w1 := w0.(puts := w0.puts[id := w0.puts[id].(retried := true, attempt := n + 1)], attempts := w0.attempts + [id]);
    EventKeeps(w0, Retry(id), w1);
    var w2 := Served(w1, n + 1);
    EventKeeps(w1, Serve(n + 1), w2);
    var err := PutTo(w1.store, key, value, version).1.err;
    var w3 := w2.(puts := w2.puts[id := w2.puts[id].(outcome := Some(KvLock.Verdict(err, true)))]);
    EventKeeps(w2, Receive(id, err), w3);
    ws, es := LateEffect(w3, id, n);
    var last := ws[|es|];
    Prepend(w2, Receive(id, err), w3, ws, es);
    ws, es := [w2] + ws, [Receive(id, err)] + es;
    Prepend(w1, Serve(n + 1), w2, ws, es);
    ws, es := [w1] + ws, [Serve(n + 1)] + es;
    Prepend(w0, Retry(id), w1, ws, es);
    ws, es := [w0] + ws, [Retry(id)] + es;
    assert ws[3] == w3 && ws[|es|] == last;
    assert Effects(ws[|es|], id) != Effects(ws[3], id);
  }

  /** The exact condition, and one a caller can check before the call: a put has no late effect in
      any run, whatever it returns, if and only if its version is not beyond the key's. */
  lemma SeenExactly(w: World, key: string, value: string, version: nat)
    requires Inv(w)
    ensures version <= Version(w.store, key) <==>
              forall ws, es {:trigger RunFrom(ws, es, true)} ::
                RunFrom(ws, es, true) && ws[0] == Started(w, key, value, version) ==> NoLateEffect(ws, |w.puts|)
  {
    if version <= Version(w.store, key) {
      forall ws, es | RunFrom(ws, es, true) && ws[0] == Started(w, key, value, version)
        ensures NoLateEffect(ws, |w.puts|)
      {
        SeenHasNoLateEffect(w, key, value, version, ws, es);
      }
    } else {
      var ws, es := UnseenCanBeLate(w, key, value, version);
    }
  }
}
