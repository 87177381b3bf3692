// Why an interrupted change must be completed before another one is begun: what a change begun out
// of order leads to, and exactly when two groups come to own one shard.
module MigrationOrder {
  import opened Core
  import opened ShardGroup
  import opened Migration
  import opened MigrationSafety

  /** An install of shard s under number num was sent to group g, served or not. */
  ghost predicate InstallSent(w: World, g: nat, s: nat, num: int) {
    exists c {:trigger c in w.calls} ::
      c in w.calls && c.gid == g && c.op.Install? && c.op.shard == s && c.op.configNum == num
  }

  /** Group g takes a migration call of number num for shard s. */
  predicate Fits(w: World, g: nat, s: nat, num: int) {
    && g in w.groups && ValidGroup(w.groups[g]) && s < NSHARDS
    && w.groups[g].configNums[s] <= num
  }

  /** Change num gets past shard t: where it moves the shard, source and target take its calls. */
  ghost predicate Passes(w: World, plan: Plan, num: int, t: nat)
    requires t < NSHARDS
  {
    Moves(plan, w.num, num, t) ==>
      && (plan(w.num)[t] == 0 || Fits(w, plan(w.num)[t], t, num))
      && Fits(w, plan(num)[t], t, num)
  }

  /** Whatever can happen without a further change being begun. */
  ghost predicate Onward(ws: seq<World>, plan: Plan, es: seq<Event>) {
    && |ws| == |es| + 1
    && forall k: nat {:trigger es[k]} | k < |es| :: !es[k].Begin? && Next(ws[k], plan, es[k], ws[k + 1])
  }

  ghost predicate TwoOwners(w: World, s: nat) {
    exists g: nat, h: nat {:trigger Owns(w, g, s), Owns(w, h, s)} :: g != h && Owns(w, g, s) && Owns(w, h, s)
  }

  ghost predicate LeadsTo(w: World, plan: Plan, s: nat, ws: seq<World>, es: seq<Event>) {
    Onward(ws, plan, es) && ws[0] == w && TwoOwners(ws[|es|], s)
  }

  /** From w on, two groups can come to own shard s before another change is begun. */
  ghost predicate Collides(w: World, plan: Plan, s: nat) {
    exists ws, es {:trigger LeadsTo(w, plan, s, ws, es)} :: LeadsTo(w, plan, s, ws, es)
  }

  /** When change num, begun in w, collides with the one that is open there: the open one has sent
      its install of the shard, and num takes the shard elsewhere and gets as far as that. */
  ghost predicate Overtakes(w: World, plan: Plan, num: int, s: nat)
    requires w.open.Some? && s < NSHARDS
  {
    && Moving(w, plan, s) && Target(w, plan, s) in w.groups && InstallSent(w, Target(w, plan, s), s, w.open.value)
    && Moves(plan, w.num, num, s) && plan(num)[s] != Target(w, plan, s)
    && forall t: nat {:trigger Passes(w, plan, num, t)} | t <= s :: Passes(w, plan, num, t)
  }

  // ---------- what an orderly run leaves ----------

  /** The highest number any group has been asked with. */
  function Top(w: World): int {
    if w.open.Some? then w.open.value else if w.num < 0 then 0 else w.num
  }

  ghost predicate Below(w: World, g: nat, s: nat) {
    g in w.groups && ValidGroup(w.groups[g]) && s < NSHARDS ==> w.groups[g].configNums[s] <= Top(w)
  }

  ghost predicate Known(w: World) {
    && (forall g: nat, s: nat {:trigger Below(w, g, s)} :: Below(w, g, s))
    && (forall t {:trigger t in w.took} | t in w.took :: InstallSent(w, t.gid, t.s, t.num))
  }

  lemma KnownKeeps(w: World, plan: Plan, e: Event, w': World)
    requires Inv(w, plan) && Known(w) && Next(w, plan, e, w') && Orderly(w, e)
    ensures Known(w')
  {
    if e.Deliver? {
      assert CallOk(w, plan, e.call);
    }
    if e.Publish? {
      assert PublishOk(w, plan, e.num, e.version);
    }
    forall g: nat, s: nat ensures Below(w', g, s) {
      assert Below(w, g, s) && GroupOk(w, g);
    }
    forall t | t in w'.took ensures InstallSent(w', t.gid, t.s, t.num) {
      if t in w.took {
        var c :| c in w.calls && c.gid == t.gid && c.op.Install? && c.op.shard == t.s && c.op.configNum == t.num;
        assert c in w'.calls;
      } else {
        assert e.call in w'.calls;
      }
    }
  }

  lemma {:induction false} RunKnown(ws: seq<World>, plan: Plan, es: seq<Event>, k: nat)
    requires Run(ws, plan, es) && k < |ws|
    ensures Inv(ws[k], plan) && Known(ws[k])
  {
    RunOk(ws, plan, es, k);
    if k > 0 {
      RunKnown(ws, plan, es, k - 1);
      assert Next(ws[k - 1], plan, es[k - 1], ws[k]);
      KnownKeeps(ws[k - 1], plan, es[k - 1], ws[k]);
    } else {
      assert Initial(ws[0]);
    }
  }

  // ---------- what keeps owners apart ----------
  // w0 is the state in which change num was begun, w a later one.

  /** The source of shard s, if any, took the new change's freeze. */
  ghost predicate Yielded(w0: World, w: World, plan: Plan, num: int, s: nat)
    requires s < NSHARDS
  {
    plan(w0.num)[s] == 0 || (Reached(w, plan(w0.num)[s], s, num) && Fits(w0, plan(w0.num)[s], s, num))
  }

  /** The new change has got as far as installing shard s. */
  ghost predicate Arrived(w0: World, w: World, plan: Plan, num: int, s: nat)
    requires s < NSHARDS
  {
    && Moves(plan, w0.num, num, s)
    && Yielded(w0, w, plan, num, s)
    && forall t: nat {:trigger Passes(w0, plan, num, t)} | t < s :: Passes(w0, plan, num, t)
  }

  ghost predicate CallKnown(w0: World, w: World, plan: Plan, num: int, c: Call) {
    c in w0.calls ||
      match c.op
      case Freeze(_, n) => n == num
      case Install(s, n, _) => n == num && c.gid == plan(num)[s] && Arrived(w0, w, plan, num, s)
      case Delete(_, n) => n == num
      case _ => false
  }

  ghost predicate ReplyKnown(w0: World, w: World, c: Call, r: Reply) {
    (c, r) in w0.replies ||
      (r.err == OK && (c.op.Freeze? || c.op.Install?) ==>
         Reached(w, c.gid, c.op.shard, c.op.configNum) && Fits(w0, c.gid, c.op.shard, c.op.configNum))
  }

  ghost predicate JobKnown(w0: World, w: World, plan: Plan, num: int, j: Job) {
    && j.num == num && j.from == w0.num && j.s <= NSHARDS
    && (forall t: nat {:trigger Passes(w0, plan, num, t)} | t < j.s :: Passes(w0, plan, num, t))
    && (j.s < NSHARDS ==>
          && Moves(plan, w0.num, num, j.s)
          && (j.phase != Freezing ==> Yielded(w0, w, plan, num, j.s))
          && (j.phase == Deleting ==> Fits(w0, plan(num)[j.s], j.s, num)))
  }

  /** An owner is the old holder, still at an old number, or the target of the open change, which
      has let the holder go, or the target of the new one. */
  ghost predicate OwnerKnown(w0: World, w: World, plan: Plan, num: int, g: nat, s: nat) {
    Owns(w, g, s) ==>
      || (g == Holder(w0, plan, s) && ConfigNum(w, g, s) <= w0.num)
      || (Moving(w0, plan, s) && g == Target(w0, plan, s) && InstallSent(w0, g, s, w0.open.value)
          && LetGo(w0, plan, s, w0.open.value))
      || (g == plan(num)[s] && Arrived(w0, w, plan, num, s) && Fits(w0, g, s, num))
  }

  ghost predicate Later(w0: World, w: World) {
    && w.groups.Keys == w0.groups.Keys
    && (forall g {:trigger w.groups[g]} | g in w.groups :: ValidGroup(w.groups[g]))
    && (forall g: nat, s: nat, n: int {:trigger Reached(w, g, s, n)} :: Reached(w0, g, s, n) ==> Reached(w, g, s, n))
  }

  ghost predicate Apart(w0: World, w: World, plan: Plan, num: int) {
    && Later(w0, w)
    && (forall c {:trigger CallKnown(w0, w, plan, num, c)} | c in w.calls :: CallKnown(w0, w, plan, num, c))
    && (forall r {:trigger ReplyKnown(w0, w, r.0, r.1)} | r in w.replies :: ReplyKnown(w0, w, r.0, r.1))
    && (w.job.Some? ==> JobKnown(w0, w, plan, num, w.job.value))
    && (forall g: nat, s: nat {:trigger OwnerKnown(w0, w, plan, num, g, s)} :: OwnerKnown(w0, w, plan, num, g, s))
  }

  /** The state a change is begun in, out of order. */
  ghost predicate Ready(w0: World, plan: Plan, num: int) {
    Inv(w0, plan) && Known(w0) && w0.open.Some? && num > w0.num && num != w0.open.value
  }

  /** With every group's number where it was or higher, what was known of messages stays known. */
  lemma StillKnown(w0: World, w: World, plan: Plan, num: int, w': World)
    requires Apart(w0, w, plan, num) && Later(w0, w')
    requires forall g: nat, s: nat, n: int {:trigger Reached(w', g, s, n)} :: Reached(w, g, s, n) ==> Reached(w', g, s, n)
    ensures forall c {:trigger CallKnown(w0, w', plan, num, c)} | c in w.calls :: CallKnown(w0, w', plan, num, c)
    ensures forall r {:trigger ReplyKnown(w0, w', r.0, r.1)} | r in w.replies :: ReplyKnown(w0, w', r.0, r.1)
    ensures w.job.Some? ==> JobKnown(w0, w', plan, num, w.job.value)
    ensures forall s: nat {:trigger Arrived(w0, w', plan, num, s)} | s < NSHARDS && Arrived(w0, w, plan, num, s) ::
              Arrived(w0, w', plan, num, s)
  {
    forall s: nat | s < NSHARDS && Yielded(w0, w, plan, num, s) ensures Yielded(w0, w', plan, num, s) {
    }
    forall c | c in w.calls ensures CallKnown(w0, w', plan, num, c) {
      assert CallKnown(w0, w, plan, num, c);
    }
    forall r | r in w.replies ensures ReplyKnown(w0, w', r.0, r.1) {
      assert ReplyKnown(w0, w, r.0, r.1);
    }
  }

  /** An event that leaves numbers and owners as they are, and adds no message. */
  lemma SameFlagsApart(w0: World, w: World, plan: Plan, num: int, w': World)
    requires Apart(w0, w, plan, num) && w'.groups.Keys == w.groups.Keys
    requires forall g {:trigger w'.groups[g]} | g in w.groups ::
               ValidGroup(w'.groups[g]) && w'.groups[g].owned == w.groups[g].owned
               && w'.groups[g].configNums == w.groups[g].configNums
    requires forall c {:trigger CallKnown(w0, w, plan, num, c)} | c in w'.calls && c !in w.calls :: CallKnown(w0, w, plan, num, c)
    requires forall r {:trigger ReplyKnown(w0, w, r.0, r.1)} | r in w'.replies && r !in w.replies :: ReplyKnown(w0, w, r.0, r.1)
    requires w'.job.Some? ==> JobKnown(w0, w, plan, num, w'.job.value)
    ensures Apart(w0, w', plan, num)
  {
    var v := w.(calls := w'.calls, replies := w'.replies, job := w'.job);
    forall g: nat, s: nat, n: int ensures Reached(w', g, s, n) == Reached(w, g, s, n) == Reached(v, g, s, n) {
    }
    forall s: nat | s < NSHARDS
      ensures Yielded(w0, v, plan, num, s) == Yielded(w0, w', plan, num, s) == Yielded(w0, w, plan, num, s)
    {
    }
    forall c | c in w'.calls ensures CallKnown(w0, w', plan, num, c) {
      assert CallKnown(w0, w, plan, num, c);
    }
    forall r | r in w'.replies ensures ReplyKnown(w0, w', r.0, r.1) {
      assert ReplyKnown(w0, w, r.0, r.1);
    }
    forall g: nat, s: nat ensures OwnerKnown(w0, w', plan, num, g, s) {
      assert OwnerKnown(w0, w, plan, num, g, s);
    }
  }

  lemma FreshNumber(w0: World, plan: Plan, num: int, c: Call)
    requires Ready(w0, plan, num) && c in w0.calls
    ensures c.op.Freeze? || c.op.Install? || c.op.Delete?
    ensures c.op.configNum != num
  {
    assert CallOk(w0, plan, c);
  }

  /** Who owns the shard of an install just served. */
  lemma InstallOwner(w0: World, w: World, plan: Plan, num: int, c: Call, w': World)
    requires Ready(w0, plan, num) && Apart(w0, w, plan, num) && c in w.calls && TakesEffect(w, c)
    requires w' == Delivered(w, c) && (Arrived(w0, w, plan, num, c.op.shard) ==> Arrived(w0, w', plan, num, c.op.shard))
    ensures OwnerKnown(w0, w', plan, num, c.gid, c.op.shard)
  {
    var g, s, n := c.gid, c.op.shard, c.op.configNum;
    assert CallKnown(w0, w, plan, num, c) && GroupOk(w0, 0) && GroupOk(w0, g);
    assert !Reached(w, g, s, n + 1);
    assert !Reached(w0, g, s, n + 1);
    assert ConfigNum(w', g, s) == n && Fits(w0, g, s, n);
    if c in w0.calls {
      assert CallOk(w0, plan, c);
    }
  }

  lemma UnfencedApart(w0: World, w: World, plan: Plan, num: int, c: Call, w': World)
    requires Ready(w0, plan, num) && Apart(w0, w, plan, num) && Next(w, plan, Deliver(c), w')
    requires c.op.Freeze? || c.op.Install? || c.op.Delete?
    requires !Fenced(w.groups[c.gid], c.op.shard, c.op.configNum)
    ensures Apart(w0, w', plan, num)
  {
    var s, n := c.op.shard, c.op.configNum;
    ServedFrame(w, c, w');
    OnlyAtReached(w, w', c.gid, s, n);
    StillKnown(w0, w, plan, num, w');
    assert GroupOk(w0, c.gid);
    assert !Reached(w, c.gid, s, n + 1);
    assert !Reached(w0, c.gid, s, n + 1);
    assert Reached(w', c.gid, s, n) && Fits(w0, c.gid, s, n);
    if c.op.Install? {
      InstallOwner(w0, w, plan, num, c, w');
    }
    forall g: nat, t: nat ensures OwnerKnown(w0, w', plan, num, g, t) {
      if (g != c.gid || t != s) && Owns(w', g, t) {
        assert w'.groups[g].owned[t] == w.groups[g].owned[t];
        assert w'.groups[g].configNums[t] == w.groups[g].configNums[t];
        assert OwnerKnown(w0, w, plan, num, g, t);
      }
    }
  }

  lemma DeliverApart(w0: World, w: World, plan: Plan, num: int, c: Call, w': World)
    requires Ready(w0, plan, num) && Apart(w0, w, plan, num) && Next(w, plan, Deliver(c), w')
    ensures Apart(w0, w', plan, num)
  {
    assert CallKnown(w0, w, plan, num, c);
    if c in w0.calls {
      FreshNumber(w0, plan, num, c);
    }
    if Fenced(w.groups[c.gid], c.op.shard, c.op.configNum) {
      SameFlagsApart(w0, w, plan, num, w');
    } else {
      UnfencedApart(w0, w, plan, num, c, w');
    }
  }

  /** What an OK tells the new change's job. */
  lemma AnswerKnown(w0: World, w: World, plan: Plan, num: int, j: Job, reply: Reply)
    requires Ready(w0, plan, num) && Apart(w0, w, plan, num) && w.job == Some(j) && j.s < NSHARDS
    requires (CallOf(plan, j), reply) in w.replies && reply.err == OK
    ensures JobKnown(w0, w, plan, num, After(plan, j, reply))
  {
    var c := CallOf(plan, j);
    if (c, reply) in w0.replies {
      assert ReplyOk(w0, c, reply);
      FreshNumber(w0, plan, num, c);
      assert false;
    }
    assert ReplyKnown(w0, w, c, reply);
    var j' := After(plan, j, reply);
    if j'.s != j.s {
      assert Passes(w0, plan, num, j.s);
      forall t: nat | t < j'.s ensures Passes(w0, plan, num, t) {
        if t > j.s {
          assert !Moves(plan, w0.num, num, t);
        }
      }
    }
  }

  lemma JobCallKnown(w0: World, w: World, plan: Plan, num: int, j: Job)
    requires JobKnown(w0, w, plan, num, j) && j.s < NSHARDS
    ensures CallKnown(w0, w, plan, num, CallOf(plan, j))
  {
  }

  lemma OnwardApart(w0: World, w: World, plan: Plan, num: int, e: Event, w': World)
    requires Ready(w0, plan, num) && Apart(w0, w, plan, num) && Next(w, plan, e, w') && !e.Begin?
    ensures Apart(w0, w', plan, num)
  {
    match e
    case Deliver(c) => DeliverApart(w0, w, plan, num, c, w');
    case Proceed(reply) =>
      if reply.err == OK {
        AnswerKnown(w0, w, plan, num, w.job.value, reply);
        var j' := After(plan, w.job.value, reply);
        if j'.s < NSHARDS {
          JobCallKnown(w0, w, plan, num, j');
        }
      }
      SameFlagsApart(w0, w, plan, num, w');
    case Client(gid, op) =>
      SameFlagsApart(w0, w, plan, num, w');
    case _ => SameFlagsApart(w0, w, plan, num, w');
  }

  lemma BegunApart(w0: World, plan: Plan, num: int, w1: World)
    requires Ready(w0, plan, num) && Next(w0, plan, Begin(num), w1)
    ensures Apart(w0, w1, plan, num)
  {
    var j := JobAt(plan, num, w0.num, w0.version, 0);
    forall t: nat | t < j.s ensures Passes(w0, plan, num, t) {
      assert !Moves(plan, w0.num, num, t);
    }
    forall g | g in w0.groups ensures ValidGroup(w0.groups[g]) {
      assert GroupOk(w0, g);
    }
    forall g: nat, s: nat ensures OwnerKnown(w0, w0, plan, num, g, s) {
      assert OwnerOk(w0, plan, g, s);
      if Owns(w0, g, s) && Moving(w0, plan, s) && Take(Target(w0, plan, s), s, w0.open.value) in w0.took {
        assert TakeOk(w0, plan, Take(Target(w0, plan, s), s, w0.open.value));
      }
    }
    assert Apart(w0, w0, plan, num);
    if j.s < NSHARDS {
      JobCallKnown(w0, w0, plan, num, j);
    }
    SameFlagsApart(w0, w0, plan, num, w1);
  }

  lemma {:induction false} OnwardKeeps(w0: World, plan: Plan, num: int, ws: seq<World>, es: seq<Event>, k: nat)
    requires Ready(w0, plan, num) && Onward(ws, plan, es) && k < |ws| && Next(w0, plan, Begin(num), ws[0])
    ensures Apart(w0, ws[k], plan, num)
  {
    if k == 0 {
      BegunApart(w0, plan, num, ws[0]);
    } else {
      OnwardKeeps(w0, plan, num, ws, es, k - 1);
      assert !es[k - 1].Begin?;
      OnwardApart(w0, ws[k - 1], plan, num, es[k - 1], ws[k]);
    }
  }

  /** Two owners are the targets of the two changes. */
  lemma OwnersOvertake(w0: World, w: World, plan: Plan, num: int, g: nat, h: nat, s: nat)
    requires Ready(w0, plan, num) && Apart(w0, w, plan, num) && g != h && Owns(w, g, s) && Owns(w, h, s)
    ensures Overtakes(w0, plan, num, s)
  {
    assert OwnerKnown(w0, w, plan, num, g, s) && OwnerKnown(w0, w, plan, num, h, s) && GroupOk(w0, 0);
    assert Moving(w0, plan, s) && LetGo(w0, plan, s, w0.open.value) && Holder(w0, plan, s) in w.groups ==>
        Reached(w, Holder(w0, plan, s), s, w0.open.value);
    forall t: nat | t <= s && Arrived(w0, w, plan, num, s) && Fits(w0, plan(num)[s], s, num) ensures Passes(w0, plan, num, t) {
    }
  }

  // ---------- how the collision comes about ----------

  lemma Extend(ws: seq<World>, plan: Plan, es: seq<Event>, e: Event, w': World)
    returns (ws': seq<World>, es': seq<Event>)
    requires Onward(ws, plan, es) && !e.Begin? && Next(ws[|es|], plan, e, w')
    ensures Onward(ws', plan, es') && ws'[0] == ws[0] && ws'[|es'|] == w'
  {
    hide Next;
    ws', es' := ws + [w'], es + [e];
    forall k: nat | k < |es'| ensures !es'[k].Begin? && Next(ws'[k], plan, es'[k], ws'[k + 1]) {
      assert k < |es| ==> Next(ws[k], plan, es[k], ws[k + 1]);
    }
  }

  /** The job waits on a call that was sent and that its group takes. */
  ghost predicate Waits(w: World, plan: Plan) {
    && w.job.Some? && w.job.value.s < NSHARDS
    && (forall g {:trigger w.groups[g]} | g in w.groups :: ValidGroup(w.groups[g]))
    && CallOf(plan, w.job.value) in w.calls
    && Fits(w, CallOf(plan, w.job.value).gid, w.job.value.s, w.job.value.num)
  }

  /** The world once that call is served and its answer handled. */
  ghost function Answered(w: World, plan: Plan): World
    requires Waits(w, plan)
  {
    var c := CallOf(plan, w.job.value);
    Send(plan, Delivered(w, c), After(plan, w.job.value, DoOp(w.groups[c.gid], c.op).1))
  }

  lemma Answer(ws: seq<World>, plan: Plan, es: seq<Event>) returns (ws': seq<World>, es': seq<Event>)
    requires Onward(ws, plan, es) && Waits(ws[|es|], plan)
    ensures Onward(ws', plan, es') && ws'[0] == ws[0] && ws'[|es'|] == Answered(ws[|es|], plan)
  {
    var w := ws[|es|];
    var c := CallOf(plan, w.job.value);
    ws', es' := Extend(ws, plan, es, Deliver(c), Delivered(w, c));
    ws', es' := Extend(ws', plan, es', Proceed(DoOp(w.groups[c.gid], c.op).1), Answered(w, plan));
  }

  lemma AnsweredIs(w: World, plan: Plan)
    requires Waits(w, plan)
    ensures var w', j := Answered(w, plan), w.job.value;
            var c := CallOf(plan, j);
            && OnlyAt(w, w', c.gid, j.s, j.num)
            && (w'.groups[c.gid].owned[j.s] <==> j.phase == Installing)
            && w.calls <= w'.calls
            && w'.job == Some(After(plan, j, DoOp(w.groups[c.gid], c.op).1))
            && (w'.job.value.s < NSHARDS ==> CallOf(plan, w'.job.value) in w'.calls)
  {
  }

  /** The shards from t on are as they were. */
  ghost predicate Beyond(w0: World, w: World, t: nat) {
    && w0.calls <= w.calls && w.groups.Keys == w0.groups.Keys
    && (forall g {:trigger w.groups[g]} | g in w.groups :: ValidGroup(w0.groups[g]) && ValidGroup(w.groups[g]))
    && (forall g, u: Shard {:trigger w.groups[g].owned[u]} {:trigger w.groups[g].configNums[u]} | g in w.groups && t <= u ::
          w.groups[g].owned[u] == w0.groups[g].owned[u] && w.groups[g].configNums[u] == w0.groups[g].configNums[u])
  }

  lemma BeyondKept(w0: World, w: World, t: nat, g: nat, num: int, w': World)
    requires Beyond(w0, w, t + 1) && t < NSHARDS && OnlyAt(w, w', g, t, num) && w.calls <= w'.calls
    ensures Beyond(w0, w', t + 1)
  {
    forall h, u: Shard | h in w'.groups && t + 1 <= u
      ensures w'.groups[h].owned[u] == w0.groups[h].owned[u] && w'.groups[h].configNums[u] == w0.groups[h].configNums[u]
    {
      assert w'.groups[h].owned[u] == w.groups[h].owned[u];
    }
  }

  /** The job is about to start on the first shard from t on that change num moves. */
  ghost predicate At(w0: World, w: World, plan: Plan, num: int, t: nat) {
    && t <= NSHARDS
    && w.job == Some(JobAt(plan, num, w0.num, w0.version, t))
    && (w.job.value.s < NSHARDS ==> CallOf(plan, w.job.value) in w.calls)
    && Beyond(w0, w, t)
  }

  /** The calls for one shard, up to where its install is to be made. */
  lemma ToInstall(w0: World, plan: Plan, num: int, t: nat, ws: seq<World>, es: seq<Event>)
    returns (ws': seq<World>, es': seq<Event>)
    requires Onward(ws, plan, es) && At(w0, ws[|es|], plan, num, t) && NextMoved(plan, w0.num, num, t) == t < NSHARDS
    requires Passes(w0, plan, num, t)
    ensures Onward(ws', plan, es') && ws'[0] == ws[0] && Waits(ws'[|es'|], plan) && Beyond(w0, ws'[|es'|], t + 1)
    ensures var w, w' := ws[|es|], ws'[|es'|];
            && w'.job.value == JobAt(plan, num, w0.num, w0.version, t).(phase := Installing, data := w'.job.value.data)
            && (plan(w0.num)[t] == 0 ==> w' == w)
            && (plan(w0.num)[t] != 0 ==>
                  OnlyAt(w, w', plan(w0.num)[t], t, num) && Fits(w', plan(w0.num)[t], t, num))
  {
    var w := ws[|es|];
    ws', es' := ws, es;
    if plan(w0.num)[t] != 0 {
      AnsweredIs(w, plan);
      ws', es' := Answer(ws, plan, es);
      var w' := ws'[|es'|];
      assert w.groups[plan(num)[t]].configNums[t] == w'.groups[plan(num)[t]].configNums[t];
      BeyondKept(w0, w, t, plan(w0.num)[t], num, w');
    }
  }

  /** Its delete, after which the job goes on to the next shard. */
  lemma Deletes(w0: World, plan: Plan, num: int, t: nat, ws: seq<World>, es: seq<Event>)
    returns (ws': seq<World>, es': seq<Event>)
    requires Onward(ws, plan, es) && Waits(ws[|es|], plan) && Beyond(w0, ws[|es|], t + 1) && t < NSHARDS
    requires var j := ws[|es|].job.value;
             j.num == num && j.from == w0.num && j.version == w0.version && j.s == t && j.phase == Deleting
    ensures Onward(ws', plan, es') && ws'[0] == ws[0] && At(w0, ws'[|es'|], plan, num, t + 1)
  {
    var w := ws[|es|];
    hide Onward, Answered, Beyond;
    AnsweredIs(w, plan);
    ws', es' := Answer(ws, plan, es);
    BeyondKept(w0, w, t, plan(w0.num)[t], num, ws'[|es'|]);
  }

  /** Its install, and its delete if it has a source. */
  lemma FromInstall(w0: World, plan: Plan, num: int, t: nat, ws: seq<World>, es: seq<Event>)
    returns (ws': seq<World>, es': seq<Event>)
    requires Onward(ws, plan, es) && Waits(ws[|es|], plan) && Beyond(w0, ws[|es|], t + 1) && Moves(plan, w0.num, num, t)
    requires var j := ws[|es|].job.value;
             j.num == num && j.from == w0.num && j.version == w0.version && j.s == t && j.phase == Installing
    requires plan(w0.num)[t] != 0 ==> Fits(ws[|es|], plan(w0.num)[t], t, num)
    ensures Onward(ws', plan, es') && ws'[0] == ws[0] && At(w0, ws'[|es'|], plan, num, t + 1)
  {
    var w := ws[|es|];
    hide Onward, Answered, Beyond;
    AnsweredIs(w, plan);
    ws', es' := Answer(ws, plan, es);
    var w1 := ws'[|es'|];
    BeyondKept(w0, w, t, plan(num)[t], num, w1);
    if plan(w0.num)[t] != 0 {
      assert w1.groups[plan(w0.num)[t]].configNums[t] == w.groups[plan(w0.num)[t]].configNums[t];
      ws', es' := Deletes(w0, plan, num, t, ws', es');
    }
  }

  /** Change num gets as far as shard s. */
  lemma {:induction false} WalkTo(w0: World, plan: Plan, num: int, t: nat, s: nat, ws: seq<World>, es: seq<Event>)
    returns (ws': seq<World>, es': seq<Event>)
    requires Onward(ws, plan, es) && At(w0, ws[|es|], plan, num, t) && t <= s < NSHARDS && Moves(plan, w0.num, num, s)
    requires forall u: nat {:trigger Passes(w0, plan, num, u)} | u <= s :: Passes(w0, plan, num, u)
    ensures Onward(ws', plan, es') && ws'[0] == ws[0] && At(w0, ws'[|es'|], plan, num, s)
    ensures NextMoved(plan, w0.num, num, s) == s
    decreases s - t
  {
    hide Onward;
    ws', es' := ws, es;
    if t < s {
      if Moves(plan, w0.num, num, t) {
        assert Passes(w0, plan, num, t);
        ws', es' := ToInstall(w0, plan, num, t, ws, es);
        ws', es' := FromInstall(w0, plan, num, t, ws', es');
      }
      ws', es' := WalkTo(w0, plan, num, t + 1, s, ws', es');
    }
  }

  lemma BegunAt(w0: World, plan: Plan, num: int, w1: World)
    requires Ready(w0, plan, num) && Next(w0, plan, Begin(num), w1)
    ensures At(w0, w1, plan, num, 0)
  {
    forall g | g in w1.groups ensures ValidGroup(w0.groups[g]) {
      assert GroupOk(w0, g);
    }
  }

  /** The new change installs the shard at its target, and leaves the old target alone. */
  lemma InstallsFirst(w0: World, plan: Plan, num: int, w1: World, s: nat) returns (ws: seq<World>, es: seq<Event>)
    requires Ready(w0, plan, num) && Next(w0, plan, Begin(num), w1) && s < NSHARDS && Overtakes(w0, plan, num, s)
    ensures Onward(ws, plan, es) && ws[0] == w1
    ensures var w := ws[|es|];
            && w0.calls <= w.calls && w.groups.Keys == w0.groups.Keys
            && Owns(w, plan(num)[s], s) && Fits(w, Target(w0, plan, s), s, w0.open.value)
  {
    BegunAt(w0, plan, num, w1);
    assert Below(w0, Target(w0, plan, s), s);
    hide Ready, Inv, Known;
    assert Onward([w1], plan, []);
    ws, es := WalkTo(w0, plan, num, 0, s, [w1], []);
    assert Passes(w0, plan, num, s);
    assert Fits(ws[|es|], Target(w0, plan, s), s, w0.open.value);
    ws, es := ToInstall(w0, plan, num, s, ws, es);
    var w := ws[|es|];
    assert Fits(w, Target(w0, plan, s), s, w0.open.value);
    AnsweredIs(w, plan);
    ws, es := Answer(ws, plan, es);
    assert ws[|es|].groups[Target(w0, plan, s)].configNums[s] == w.groups[Target(w0, plan, s)].configNums[s];
  }

  /** Then the old change's install, sent before and served late, passes the old target's fence. */
  lemma OvertakenCollides(w0: World, plan: Plan, num: int, w1: World, s: nat)
    requires Ready(w0, plan, num) && Next(w0, plan, Begin(num), w1) && s < NSHARDS && Overtakes(w0, plan, num, s)
    ensures Collides(w1, plan, s)
  {
    var ws, es := InstallsFirst(w0, plan, num, w1, s);
    var w := ws[|es|];
    hide Onward, Ready;
    var b, c := Target(w0, plan, s), plan(num)[s];
    var late :| late in w0.calls && late.gid == b && late.op.Install? && late.op.shard == s && late.op.configNum == w0.open.value;
    ws, es := Extend(ws, plan, es, Deliver(late), Delivered(w, late));
    assert Owns(ws[|es|], b, s) && Owns(ws[|es|], c, s);
    assert LeadsTo(w1, plan, s, ws, es);
  }

  // ---------- the theorem ----------

  /** What completing an interrupted change is needed for, exactly. A change is open in a state of an
      orderly run, and another number is begun instead. Two groups can then come to own shard s if
      and only if the open change had sent its install of s, whether or not it was served, and the new
      one takes s to another group and can get that far. */
  lemma DisorderExactly(ws: seq<World>, plan: Plan, es: seq<Event>, num: int, w1: World, s: nat)
    requires Run(ws, plan, es) && s < NSHARDS
    requires Next(ws[|es|], plan, Begin(num), w1) && !Orderly(ws[|es|], Begin(num))
    ensures Collides(w1, plan, s) <==> Overtakes(ws[|es|], plan, num, s)
  {
    var w0 := ws[|es|];
    RunKnown(ws, plan, es, |es|);
    if Overtakes(w0, plan, num, s) {
      OvertakenCollides(w0, plan, num, w1, s);
    }
    if Collides(w1, plan, s) {
      var vs, fs :| LeadsTo(w1, plan, s, vs, fs);
      OnwardKeeps(w0, plan, num, vs, fs, |fs|);
      var g: nat, h: nat :| g != h && Owns(vs[|fs|], g, s) && Owns(vs[|fs|], h, s);
      OwnersOvertake(w0, vs[|fs|], plan, num, g, h, s);
    }
  }

  /** For a later number no fence is in the way: it gets as far as the groups it moves shards to exist. */
  lemma LaterChangeExactly(ws: seq<World>, plan: Plan, es: seq<Event>, num: int, w1: World, s: nat)
    requires Run(ws, plan, es) && s < NSHARDS
    requires ws[|es|].open.Some? && num > ws[|es|].open.value && Next(ws[|es|], plan, Begin(num), w1)
    ensures var w := ws[|es|];
            Collides(w1, plan, s) <==>
              && Moving(w, plan, s) && Target(w, plan, s) in w.groups
              && InstallSent(w, Target(w, plan, s), s, w.open.value)
              && Moves(plan, w.num, num, s) && plan(num)[s] != Target(w, plan, s)
              && forall t: nat {:trigger Moves(plan, w.num, num, t)} | t <= s && Moves(plan, w.num, num, t) ::
                   plan(num)[t] in w.groups
  {
    var w := ws[|es|];
    RunKnown(ws, plan, es, |es|);
    DisorderExactly(ws, plan, es, num, w1, s);
    forall t: nat | t <= s
      ensures Passes(w, plan, num, t) <==> (Moves(plan, w.num, num, t) ==> plan(num)[t] in w.groups)
    {
      var a, c := plan(w.num)[t], plan(num)[t];
      assert ServedOk(w, plan, t) && GroupOk(w, a) && GroupOk(w, c) && Below(w, a, t) && Below(w, c, t);
    }
  }
}
