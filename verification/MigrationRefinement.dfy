// The shards of all groups together answer like one versioned store.
module MigrationRefinement {
  import opened Core
  import opened KvServer
  import opened ShardGroup
  import opened Migration
  import opened MigrationSafety

  /** The part of one store that belongs to shard s. */
  function Part(store: Store, s: nat): Store {
    map k | k in store && Key2Shard(k) == s :: store[k]
  }

  /** Where shard s lives: with the holder until an install has taken effect at the target. */
  ghost function Home(w: World, plan: Plan, s: nat): nat
    requires s < NSHARDS
  {
    if Moved(w, plan, s) then Target(w, plan, s) else Holder(w, plan, s)
  }

  ghost predicate Moved(w: World, plan: Plan, s: nat)
  {
    Moving(w, plan, s) && Take(Target(w, plan, s), s, w.open.value) in w.took
  }

  // ---------- the refinement invariant ----------

  ghost predicate HomeOk(w: World, plan: Plan, abs: Store, s: nat)
    requires s < NSHARDS
  {
    var h := Home(w, plan, s);
    if h == 0 then Part(abs, s) == map[]
    else h in w.groups && ValidGroup(w.groups[h]) && w.groups[h].shards[s] == Part(abs, s)
  }

  /** What a freeze has answered is what there is to move. */
  ghost predicate FrozenOk(w: World, plan: Plan, abs: Store, c: Call, r: Reply)
  {
    c.op.Freeze? && r.FreezeReply? && r.err == OK && Moving(w, plan, c.op.shard) && c.op.configNum == w.open.value
    && !Moved(w, plan, c.op.shard) ==>
      r.data == Part(abs, c.op.shard)
  }

  /** What an install still to take effect carries is what there is to move; all others have. */
  ghost predicate InFlightOk(w: World, plan: Plan, abs: Store, c: Call)
  {
    c.op.Install? ==>
      && (c.op.configNum <= w.num ==> c.gid == 0 || Take(c.gid, c.op.shard, c.op.configNum) in w.took)
      && (Moving(w, plan, c.op.shard) && c.op.configNum == w.open.value && !Moved(w, plan, c.op.shard) ==>
            c.op.data == Part(abs, c.op.shard))
  }

  /** An install took effect for every shard the job's change moves. */
  ghost predicate AllTaken(w: World, plan: Plan, j: Job) {
    forall s: nat {:trigger Moves(plan, j.from, j.num, s)} | Moves(plan, j.from, j.num, s) ::
      Take(plan(j.num)[s], s, j.num) in w.took
  }

  /** A job that goes on although an earlier run of its change is published has nothing left to move. */
  ghost predicate LateOk(w: World, plan: Plan) {
    w.job.Some? && !Current(w, w.job.value) ==> AllTaken(w, plan, w.job.value)
  }

  ghost predicate Refines(w: World, plan: Plan, abs: Store)
  {
    && LateOk(w, plan)
    && (forall s: nat {:trigger HomeOk(w, plan, abs, s)} | s < NSHARDS :: HomeOk(w, plan, abs, s))
    && (forall r {:trigger FrozenOk(w, plan, abs, r.0, r.1)} | r in w.replies :: FrozenOk(w, plan, abs, r.0, r.1))
    && (forall c {:trigger InFlightOk(w, plan, abs, c)} | c in w.calls :: InFlightOk(w, plan, abs, c))
  }

  /** Only the group a shard lives with can own it, and while it is in flight nobody does. */
  lemma OwnerIsHome(w: World, plan: Plan, g: nat, s: nat)
    requires Inv(w, plan) && Owns(w, g, s)
    ensures g == Home(w, plan, s)
    ensures Moving(w, plan, s) && !Moved(w, plan, s) ==> !LetGo(w, plan, s, w.open.value)
  {
    assert OwnerOk(w, plan, g, s) && GroupOk(w, g);
    if Moved(w, plan, s) {
      assert TakeOk(w, plan, Take(Target(w, plan, s), s, w.open.value));
    }
  }

  // ---------- clients ----------

  /** The one store after an event: a request served by the owner of its shard is served there. */
  function Abstract(w: World, e: Event, abs: Store): Store {
    match e
    case Client(gid, op) =>
      if (op.Get? || op.Put?) && Owns(w, gid, Key2Shard(op.key)) then Serve(abs, op).0 else abs
    case _ => abs
  }

  /** An owner's part of the store answers for the whole. */
  lemma OwnerAnswers(w: World, plan: Plan, abs: Store, gid: nat, op: KvRequest)
    requires Inv(w, plan) && Refines(w, plan, abs) && Owns(w, gid, Key2Shard(op.key))
    ensures DoOp(w.groups[gid], op).1 == Serve(abs, op).1
    ensures DoOp(w.groups[gid], op).0.shards[Key2Shard(op.key)] == Part(Serve(abs, op).0, Key2Shard(op.key))
  {
    var s := Key2Shard(op.key);
    OwnerIsHome(w, plan, gid, s);
    assert GroupOk(w, gid) && HomeOk(w, plan, abs, s);
    assert op.key in Part(abs, s) <==> op.key in abs;
  }

  lemma OtherParts(abs: Store, op: KvRequest, s: nat)
    requires s != Key2Shard(op.key)
    ensures Part(Serve(abs, op).0, s) == Part(abs, s)
  {
  }

  lemma FrozenLetGo(w: World, plan: Plan, c: Call, r: Reply)
    requires Inv(w, plan) && c.op.Freeze? && ReplyOk(w, c, r) && r.err == OK
    ensures Moving(w, plan, c.op.shard) && c.op.configNum == w.open.value ==>
              c.gid == Holder(w, plan, c.op.shard) != 0 && LetGo(w, plan, c.op.shard, w.open.value)
  {
    assert CallOk(w, plan, c);
  }

  lemma FrozenClient(
    w: World, plan: Plan, abs: Store, op: KvRequest, c: Call, r: Reply, gid: nat, w': World)
    requires Inv(w, plan) && Owns(w, gid, Key2Shard(op.key))
    requires FrozenOk(w, plan, abs, c, r) && ReplyOk(w, c, r)
    requires w'.num == w.num && w'.open == w.open && w'.took == w.took
    ensures FrozenOk(w', plan, Serve(abs, op).0, c, r)
  {
    if c.op.Freeze? && r.err == OK {
      if c.op.shard != Key2Shard(op.key) {
        OtherParts(abs, op, c.op.shard);
      } else {
        FrozenLetGo(w, plan, c, r);
        OwnerIsHome(w, plan, gid, c.op.shard);
      }
    }
  }

  lemma ClientRefines(w: World, plan: Plan, abs: Store, gid: nat, op: KvRequest, w': World)
    requires Inv(w, plan) && Refines(w, plan, abs) && Next(w, plan, Client(gid, op), w')
    requires Owns(w, gid, Key2Shard(op.key))
    ensures Refines(w', plan, Serve(abs, op).0)
  {
    var s := Key2Shard(op.key);
    var abs' := Serve(abs, op).0;
    OwnerAnswers(w, plan, abs, gid, op);
    OwnerIsHome(w, plan, gid, s);
    assert GroupOk(w, gid);
    forall t: nat | t < NSHARDS ensures HomeOk(w', plan, abs', t) {
      assert HomeOk(w, plan, abs, t);
      if t != s {
        OtherParts(abs, op, t);
      }
    }
    forall r | r in w'.replies ensures FrozenOk(w', plan, abs', r.0, r.1) {
      assert FrozenOk(w, plan, abs, r.0, r.1) && ReplyOk(w, r.0, r.1);
      FrozenClient(w, plan, abs, op, r.0, r.1, gid, w');
    }
    forall c | c in w'.calls ensures InFlightOk(w', plan, abs', c) {
      assert InFlightOk(w, plan, abs, c) && CallOk(w, plan, c);
      if c.op.Install? && c.op.shard != s {
        OtherParts(abs, op, c.op.shard);
      }
    }
  }

  /** A group that does not own the shard says so and changes nothing. */
  lemma NotOwnerAnswers(w: World, gid: nat, op: KvRequest)
    requires gid in w.groups && ValidGroup(w.groups[gid]) && !Owns(w, gid, Key2Shard(op.key))
    ensures DoOp(w.groups[gid], op).0 == w.groups[gid]
    ensures DoOp(w.groups[gid], op).1.err == ErrWrongGroup
  {
  }

  // ---------- the controller ----------

  /** New messages and a new job, no change of state. */
  lemma SendRefines(w: World, plan: Plan, abs: Store, j: Job)
    requires Refines(w, plan, abs) && j.s <= NSHARDS
    requires j.s < NSHARDS ==> InFlightOk(w, plan, abs, CallOf(plan, j))
    requires Current(w, j) || AllTaken(w, plan, j)
    ensures Refines(Send(plan, w, j), plan, abs)
  {
    SameStateRefines(w, plan, abs, Send(plan, w, j));
  }

  lemma SameStateRefines(w: World, plan: Plan, abs: Store, w': World)
    requires Refines(w, plan, abs) && LateOk(w', plan)
    requires w'.groups == w.groups && w'.num == w.num && w'.open == w.open && w'.took == w.took
    requires w'.replies == w.replies
    requires forall c {:trigger InFlightOk(w, plan, abs, c)} | c in w'.calls && c !in w.calls :: InFlightOk(w, plan, abs, c)
    ensures Refines(w', plan, abs)
  {
    forall s: nat | s < NSHARDS ensures HomeOk(w', plan, abs, s) {
      assert HomeOk(w, plan, abs, s);
    }
    forall r | r in w'.replies ensures FrozenOk(w', plan, abs, r.0, r.1) {
      assert FrozenOk(w, plan, abs, r.0, r.1);
    }
    forall c | c in w'.calls ensures InFlightOk(w', plan, abs, c) {
      assert InFlightOk(w, plan, abs, c);
    }
  }

  lemma OpenRefines(w: World, plan: Plan, abs: Store, num: int)
    requires Inv(w, plan) && Refines(w, plan, abs) && w.open == None && num > w.num && w.job == None
    ensures Refines(w.(open := Some(num)), plan, abs)
  {
    var w' := w.(open := Some(num));
    forall t | t in w.took ensures t.num <= w.num {
      assert TakeOk(w, plan, t);
    }
    forall s: nat | s < NSHARDS ensures HomeOk(w', plan, abs, s) {
      assert HomeOk(w, plan, abs, s);
    }
    forall r | r in w'.replies ensures FrozenOk(w', plan, abs, r.0, r.1) {
      assert ReplyOk(w, r.0, r.1) && CallOk(w, plan, r.0);
    }
    forall c | c in w'.calls ensures InFlightOk(w', plan, abs, c) {
      assert InFlightOk(w, plan, abs, c) && CallOk(w, plan, c);
    }
  }

  lemma BeginRefines(w: World, plan: Plan, abs: Store, num: int, w': World)
    requires Inv(w, plan) && Refines(w, plan, abs)
    requires Next(w, plan, Begin(num), w') && Orderly(w, Begin(num))
    ensures Refines(w', plan, abs)
  {
    var w1 := w.(open := Some(num));
    if w.open == None {
      OpenRefines(w, plan, abs, num);
    } else {
      assert w1 == w;
    }
    var j := JobAt(plan, num, w.num, w.version, 0);
    if j.s < NSHARDS {
      JobAtInFlight(w1, plan, abs, j);
    }
    SendRefines(w1, plan, abs, j);
    assert w' == Send(plan, w1, j);
  }

  /** A shard without a source has nothing to move. */
  lemma JobAtInFlight(w: World, plan: Plan, abs: Store, j: Job)
    requires Refines(w, plan, abs) && j.s < NSHARDS && Moves(plan, j.from, j.num, j.s)
    requires j.phase == Installing ==> plan(j.from)[j.s] == 0 && j.data == map[]
    requires Current(w, j) && w.num < j.num
    ensures InFlightOk(w, plan, abs, CallOf(plan, j))
  {
    assert HomeOk(w, plan, abs, j.s);
  }

  lemma ProceedRefines(w: World, plan: Plan, abs: Store, reply: Reply, w': World)
    requires Inv(w, plan) && Refines(w, plan, abs) && Next(w, plan, Proceed(reply), w')
    ensures Refines(w', plan, abs)
  {
    var j := w.job.value;
    if reply.err != OK {
      SameStateRefines(w, plan, abs, w');
    } else {
      var j' := After(plan, j, reply);
      if j'.s < NSHARDS && Current(w, j) {
        if j'.s == j.s {
          assert FrozenOk(w, plan, abs, CallOf(plan, j), reply) && ReplyOk(w, CallOf(plan, j), reply);
        } else {
          JobAtInFlight(w, plan, abs, j');
        }
      } else if j'.s < NSHARDS {
        assert Moves(plan, j.from, j.num, j'.s);
      }
      SendRefines(w, plan, abs, j');
    }
  }

  lemma PublishRefines(w: World, plan: Plan, abs: Store, n: int, version: nat, w': World)
    requires Inv(w, plan) && Refines(w, plan, abs) && Next(w, plan, Publish(n, version), w')
    ensures Refines(w', plan, abs)
  {
    if version == w.version {
      assert PublishOk(w, plan, n, version);
      forall s: nat | s < NSHARDS ensures HomeOk(w', plan, abs, s) {
        assert HomeOk(w, plan, abs, s) && MovedOk(w, plan, n, s);
      }
      forall c | c in w'.calls ensures InFlightOk(w', plan, abs, c) {
        assert InFlightOk(w, plan, abs, c) && CallOk(w, plan, c);
        if c.op.Install? {
          assert MovedOk(w, plan, n, c.op.shard);
        }
      }
      if w.job.Some? {
        forall s: nat | Moves(plan, w.job.value.from, n, s) ensures Take(plan(n)[s], s, n) in w.took {
          assert MovedOk(w, plan, n, s);
        }
      }
    }
  }

  // ---------- serving migration calls ----------

  lemma FreezeRefines(w: World, plan: Plan, abs: Store, c: Call, w': World)
    requires Inv(w, plan) && Refines(w, plan, abs) && Next(w, plan, Deliver(c), w') && c.op.Freeze?
    ensures Refines(w', plan, abs)
  {
    assert CallOk(w, plan, c);
    forall s: nat | s < NSHARDS ensures HomeOk(w', plan, abs, s) {
      assert HomeOk(w, plan, abs, s);
    }
    forall r | r in w'.replies ensures FrozenOk(w', plan, abs, r.0, r.1) {
      if r in w.replies {
        assert FrozenOk(w, plan, abs, r.0, r.1);
      } else {
        assert HomeOk(w, plan, abs, c.op.shard);
      }
    }
    forall d | d in w'.calls ensures InFlightOk(w', plan, abs, d) {
      assert InFlightOk(w, plan, abs, d);
    }
  }

  lemma DeleteRefines(w: World, plan: Plan, abs: Store, c: Call, w': World)
    requires Inv(w, plan) && Refines(w, plan, abs) && Next(w, plan, Deliver(c), w') && c.op.Delete?
    ensures Refines(w', plan, abs)
  {
    assert CallOk(w, plan, c);
    if Moved(w, plan, c.op.shard) {
      assert TakeOk(w, plan, Take(Target(w, plan, c.op.shard), c.op.shard, w.open.value));
    }
    forall s: nat | s < NSHARDS ensures HomeOk(w', plan, abs, s) {
      assert HomeOk(w, plan, abs, s);
    }
    forall r | r in w'.replies ensures FrozenOk(w', plan, abs, r.0, r.1) {
      if r in w.replies {
        assert FrozenOk(w, plan, abs, r.0, r.1);
      }
    }
    forall d | d in w'.calls ensures InFlightOk(w', plan, abs, d) {
      assert InFlightOk(w, plan, abs, d);
    }
  }

  /** The first install that takes effect moves the shard's home together with its data. */
  lemma InstallRefines(w: World, plan: Plan, abs: Store, c: Call, w': World)
    requires Inv(w, plan) && Refines(w, plan, abs) && Next(w, plan, Deliver(c), w') && c.op.Install?
    requires Undisturbed(w, Deliver(c))
    ensures Refines(w', plan, abs)
  {
    assert CallOk(w, plan, c) && InFlightOk(w, plan, abs, c) && GroupOk(w, c.gid);
    forall s: nat | s < NSHARDS ensures HomeOk(w', plan, abs, s) {
      assert HomeOk(w, plan, abs, s);
    }
    forall r | r in w'.replies ensures FrozenOk(w', plan, abs, r.0, r.1) {
      if r in w.replies {
        assert FrozenOk(w, plan, abs, r.0, r.1);
      }
    }
    forall d | d in w'.calls ensures InFlightOk(w', plan, abs, d) {
      assert InFlightOk(w, plan, abs, d);
    }
  }

  lemma EventRefines(w: World, plan: Plan, abs: Store, e: Event, w': World)
    requires Inv(w, plan) && Refines(w, plan, abs)
    requires Next(w, plan, e, w') && Orderly(w, e) && Undisturbed(w, e)
    ensures Refines(w', plan, Abstract(w, e, abs))
  {
    match e
    case Begin(num) => BeginRefines(w, plan, abs, num, w');
    case Proceed(reply) => ProceedRefines(w, plan, abs, reply, w');
    case Stop => SameStateRefines(w, plan, abs, w');
    case Publish(n, version) => PublishRefines(w, plan, abs, n, version, w');
    case Deliver(c) =>
      assert CallOk(w, plan, c);
      if c.op.Freeze? {
        FreezeRefines(w, plan, abs, c, w');
      } else if c.op.Delete? {
        DeleteRefines(w, plan, abs, c, w');
      } else {
        InstallRefines(w, plan, abs, c, w');
      }
    case Client(gid, op) =>
      if Owns(w, gid, Key2Shard(op.key)) {
        ClientRefines(w, plan, abs, gid, op, w');
      } else {
        NotOwnerAnswers(w, gid, op);
        assert w'.groups == w.groups;
        SameStateRefines(w, plan, abs, w');
      }
  }

  /** An install that would take effect again is one at the shard's home. */
  lemma SecondInstallIsAtHome(w: World, plan: Plan, c: Call)
    requires Inv(w, plan) && c in w.calls && TakesEffect(w, c)
    requires Take(c.gid, c.op.shard, c.op.configNum) in w.took
    ensures Home(w, plan, c.op.shard) == c.gid != 0
  {
    var s := c.op.shard;
    assert CallOk(w, plan, c) && GroupOk(w, c.gid);
    if Moved(w, plan, s) {
      assert TakeOk(w, plan, Take(Target(w, plan, s), s, w.open.value));
    }
  }

  /** The condition is exact: an event keeps the refinement if and only if it is undisturbed. An
      install that takes effect again on other data leaves the home without its part. */
  lemma RefinesExactly(w: World, plan: Plan, abs: Store, e: Event, w': World)
    requires Inv(w, plan) && Refines(w, plan, abs) && Next(w, plan, e, w') && Orderly(w, e)
    ensures Refines(w', plan, Abstract(w, e, abs)) <==> Undisturbed(w, e)
  {
    if Undisturbed(w, e) {
      EventRefines(w, plan, abs, e, w');
    } else {
      var s := e.call.op.shard;
      SecondInstallIsAtHome(w, plan, e.call);
      assert HomeOk(w, plan, abs, s);
      assert Home(w', plan, s) == e.call.gid;
      assert !HomeOk(w', plan, abs, s);
    }
  }

  // ---------- runs ----------

  /** The one store behind the first k events of a run. */
  function AbstractRun(ws: seq<World>, es: seq<Event>, k: nat): Store
    requires |ws| == |es| + 1 && k < |ws|
  {
    if k == 0 then map[] else Abstract(ws[k - 1], es[k - 1], AbstractRun(ws, es, k - 1))
  }

  lemma InitialRefines(w: World, plan: Plan)
    requires Initial(w)
    ensures Refines(w, plan, map[])
  {
    forall s: nat | s < NSHARDS ensures HomeOk(w, plan, map[], s) {
      assert Part(map[], s) == map[];
    }
  }

  /** No install that takes effect again changes data, in the whole run. */
  ghost predicate Clean(ws: seq<World>, es: seq<Event>) {
    |ws| == |es| + 1 && forall i: nat {:trigger Undisturbed(ws[i], es[i])} | i < |es| :: Undisturbed(ws[i], es[i])
  }

  lemma StepRefines(ws: seq<World>, plan: Plan, es: seq<Event>, k: nat)
    requires Run(ws, plan, es) && Clean(ws, es) && k < |es| && Inv(ws[k], plan)
    requires Refines(ws[k], plan, AbstractRun(ws, es, k))
    ensures Refines(ws[k + 1], plan, AbstractRun(ws, es, k + 1))
  {
    var abs := AbstractRun(ws, es, k);
    assert Next(ws[k], plan, es[k], ws[k + 1]) && Undisturbed(ws[k], es[k]);
    EventRefines(ws[k], plan, abs, es[k], ws[k + 1]);
    assert AbstractRun(ws, es, k + 1) == Abstract(ws[k], es[k], abs);
  }

  lemma {:induction false} RunRefines(ws: seq<World>, plan: Plan, es: seq<Event>, k: nat)
    requires Run(ws, plan, es) && Clean(ws, es) && k < |ws|
    ensures Refines(ws[k], plan, AbstractRun(ws, es, k))
    decreases k
  {
    if k == 0 {
      InitialRefines(ws[0], plan);
    } else {
      RunRefines(ws, plan, es, k - 1);
      RunOk(ws, plan, es, k - 1);
      StepRefines(ws, plan, es, k - 1);
    }
  }

  /** The sharded store refines the single one: when no install that takes effect again changes the
      data, every request an owner answers is answered as one KVServer would that had served, in the
      same order, the requests the owners served before. Migration leaves that store alone; freezes
      and deletes may be repeated and delayed at will, and changes stopped and begun again. */
  lemma ShardedStoreRefinesKvServer(
    ws: seq<World>, plan: Plan, es: seq<Event>, k: nat, gid: nat, op: KvRequest)
    requires Run(ws, plan, es) && Clean(ws, es) && k < |es|
    requires es[k] == Client(gid, op)
    ensures gid in ws[k].groups && ValidGroup(ws[k].groups[gid])
    ensures var abs, reply := AbstractRun(ws, es, k), DoOp(ws[k].groups[gid], op).1;
            if Owns(ws[k], gid, Key2Shard(op.key))
            then (AbstractRun(ws, es, k + 1), reply) == Serve(abs, op)
            else AbstractRun(ws, es, k + 1) == abs && reply.err == ErrWrongGroup
  {
    RunRefines(ws, plan, es, k);
    RunOk(ws, plan, es, k);
    assert Next(ws[k], plan, es[k], ws[k + 1]);
    if Owns(ws[k], gid, Key2Shard(op.key)) {
      OwnerAnswers(ws[k], plan, AbstractRun(ws, es, k), gid, op);
    } else {
      NotOwnerAnswers(ws[k], gid, op);
    }
  }

  /** Nothing is lost on the way: wherever a shard lives, its group holds exactly its part of the store. */
  lemma HomeHoldsItsPart(ws: seq<World>, plan: Plan, es: seq<Event>, k: nat, s: nat)
    requires Run(ws, plan, es) && Clean(ws, es) && k < |ws| && s < NSHARDS
    ensures var h := Home(ws[k], plan, s);
            if h == 0 then Part(AbstractRun(ws, es, k), s) == map[]
            else h in ws[k].groups && ValidGroup(ws[k].groups[h])
                 && ws[k].groups[h].shards[s] == Part(AbstractRun(ws, es, k), s)
  {
    RunRefines(ws, plan, es, k);
    assert HomeOk(ws[k], plan, AbstractRun(ws, es, k), s);
  }
}
