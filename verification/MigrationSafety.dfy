// At most one group owns a shard, whatever the network repeats or delays and wherever a change stops.
module MigrationSafety {
  import opened Core
  import opened ShardGroup
  import opened Migration

  /** The group shard s is assigned to by the published configuration. */
  ghost function Holder(w: World, plan: Plan, s: nat): nat
    requires s < NSHARDS
  {
    plan(w.num)[s]
  }

  /** A change under way that moves shard s. */
  ghost predicate Moving(w: World, plan: Plan, s: nat)
  {
    w.open.Some? && Moves(plan, w.num, w.open.value, s)
  }

  ghost function Target(w: World, plan: Plan, s: nat): nat
    requires Moving(w, plan, s)
  {
    plan(w.open.value)[s]
  }

  predicate Owns(w: World, g: nat, s: nat) {
    && g in w.groups && ValidGroup(w.groups[g]) && s < NSHARDS
    && w.groups[g].owned[s]
  }

  function ConfigNum(w: World, g: nat, s: nat): int
    requires g in w.groups && ValidGroup(w.groups[g]) && s < NSHARDS
  {
    w.groups[g].configNums[s]
  }

  /** Group g has seen number n for shard s. */
  predicate Reached(w: World, g: nat, s: nat, n: int) {
    && g in w.groups && ValidGroup(w.groups[g]) && s < NSHARDS
    && n <= w.groups[g].configNums[s]
  }

  /** The source of shard s, if any, has given it up for number n. */
  ghost predicate LetGo(w: World, plan: Plan, s: nat, n: int)
    requires s < NSHARDS
  {
    Holder(w, plan, s) == 0 || Reached(w, Holder(w, plan, s), s, n)
  }

  // ---------- the invariant ----------

  ghost predicate GroupOk(w: World, g: nat) {
    g in w.groups ==>
      && g != 0 && ValidGroup(w.groups[g])
      && forall s: Shard | w.groups[g].owned[s] :: !w.groups[g].frozen[s]
  }

  /** An owner is the published holder, not yet frozen for the next number, or the target of the
      change under way once an install took effect there. */
  ghost predicate OwnerOk(w: World, plan: Plan, g: nat, s: nat)
  {
    Owns(w, g, s) ==>
      || (g == Holder(w, plan, s) && ConfigNum(w, g, s) <= w.num)
      || (Moving(w, plan, s) && g == Target(w, plan, s) && Take(g, s, w.open.value) in w.took)
  }

  /** The other way around: the holder owns the shard until it lets go, and the target from the
      install on. */
  ghost predicate ServedOk(w: World, plan: Plan, s: nat)
    requires s < NSHARDS
  {
    var h := Holder(w, plan, s);
    && (h != 0 ==> h in w.groups)
    && (h != 0 && !(Moving(w, plan, s) && Reached(w, h, s, w.open.value)) ==>
          Owns(w, h, s) && ConfigNum(w, h, s) <= w.num)
    && (Moving(w, plan, s) && Take(Target(w, plan, s), s, w.open.value) in w.took ==>
          Owns(w, Target(w, plan, s), s) && ConfigNum(w, Target(w, plan, s), s) == w.open.value)
  }

  /** An install of number n at g, sent or in effect: of a published number, and then harmless
      unless g is the holder (there is no group 0), or of the change under way after the source
      let go. */
  ghost predicate InstallOk(w: World, plan: Plan, g: nat, s: nat, n: int)
  {
    && s < NSHARDS
    && (|| (n <= w.num && (g == Holder(w, plan, s) || g == 0 || Reached(w, g, s, n + 1)))
        || (Moving(w, plan, s) && n == w.open.value && g == Target(w, plan, s) && LetGo(w, plan, s, n)))
  }

  /** A freeze or delete of number n at g: harmless, or of the change under way and for the source. */
  ghost predicate LeaveOk(w: World, plan: Plan, g: nat, s: nat, n: int)
  {
    && s < NSHARDS
    && (|| (n <= w.num && (g != Holder(w, plan, s) || Reached(w, g, s, n + 1)))
        || (Moving(w, plan, s) && n == w.open.value && g == Holder(w, plan, s) && g != 0))
  }

  ghost predicate CallOk(w: World, plan: Plan, c: Call)
  {
    match c.op
    case Freeze(s, n) => LeaveOk(w, plan, c.gid, s, n)
    case Install(s, n, _) => InstallOk(w, plan, c.gid, s, n)
    case Delete(s, n) =>
      && LeaveOk(w, plan, c.gid, s, n)
      && (Moving(w, plan, s) && n == w.open.value ==> Take(Target(w, plan, s), s, n) in w.took)
    case _ => false
  }

  /** An effect stays recorded and stays behind the group's fence. */
  ghost predicate TakeOk(w: World, plan: Plan, t: Take)
  {
    Reached(w, t.gid, t.s, t.num) && InstallOk(w, plan, t.gid, t.s, t.num)
  }

  ghost predicate ReplyOk(w: World, c: Call, r: Reply) {
    && c in w.calls
    && (r.err == OK ==>
          match c.op
          case Freeze(s, n) => r.FreezeReply? && Reached(w, c.gid, s, n)
          case Install(s, n, _) => Take(c.gid, s, n) in w.took
          case _ => true)
  }

  /** Shard s has been moved by change n, on which the source let go. */
  ghost predicate MovedOk(w: World, plan: Plan, n: int, s: nat)
  {
    Moves(plan, w.num, n, s) ==> LetGo(w, plan, s, n) && Take(plan(n)[s], s, n) in w.took
  }

  /** The change under way is this job's, from the configuration it read. */
  predicate Current(w: World, j: Job) {
    w.open == Some(j.num) && j.from == w.num && j.version == w.version
  }

  ghost predicate JobOk(w: World, plan: Plan, j: Job)
  {
    && j.s <= NSHARDS
    && (j.s < NSHARDS ==> Moves(plan, j.from, j.num, j.s) && CallOf(plan, j) in w.calls)
    && (j.s < NSHARDS && j.phase != Installing ==> plan(j.from)[j.s] != 0)
    && (Current(w, j) || (w.open == None && j.num == w.num && j.version < w.version))
    && (Current(w, j) ==>
          && (forall s: nat {:trigger MovedOk(w, plan, j.num, s)} | s < j.s :: MovedOk(w, plan, j.num, s))
          && (j.s < NSHARDS && j.phase != Freezing ==> LetGo(w, plan, j.s, j.num))
          && (j.s < NSHARDS && j.phase == Deleting ==> Take(plan(j.num)[j.s], j.s, j.num) in w.took))
  }

  /** A put of a configuration that was ever sent is dead, or all of its shards have moved. */
  ghost predicate PublishOk(w: World, plan: Plan, n: int, version: nat)
  {
    || version < w.version
    || (version == w.version && w.open == Some(n) && forall s: nat {:trigger MovedOk(w, plan, n, s)} | s < NSHARDS :: MovedOk(w, plan, n, s))
  }

  ghost predicate Inv(w: World, plan: Plan)
  {
    && (w.version == 0 <==> w.num == -1) && -1 <= w.num
    && (w.open.Some? ==> w.num < w.open.value)
    && (forall g {:trigger GroupOk(w, g)} :: GroupOk(w, g))
    && (forall g: nat, s: nat {:trigger OwnerOk(w, plan, g, s)} :: OwnerOk(w, plan, g, s))
    && (forall s: nat {:trigger ServedOk(w, plan, s)} | s < NSHARDS :: ServedOk(w, plan, s))
    && (forall c {:trigger CallOk(w, plan, c)} | c in w.calls :: CallOk(w, plan, c))
    && (forall t {:trigger TakeOk(w, plan, t)} | t in w.took :: TakeOk(w, plan, t))
    && (forall r {:trigger ReplyOk(w, r.0, r.1)} | r in w.replies :: ReplyOk(w, r.0, r.1))
    && (w.job.Some? ==> JobOk(w, plan, w.job.value))
    && (forall p {:trigger PublishOk(w, plan, p.0, p.1)} | p in w.publishes :: PublishOk(w, plan, p.0, p.1))
  }

  /** At most one owner. */
  lemma InvExclusive(w: World, plan: Plan, g: nat, h: nat, s: nat)
    requires Inv(w, plan) && Owns(w, g, s) && Owns(w, h, s)
    ensures g == h
  {
    assert OwnerOk(w, plan, g, s) && OwnerOk(w, plan, h, s) && GroupOk(w, g) && GroupOk(w, h);
    if Moving(w, plan, s) && Take(Target(w, plan, s), s, w.open.value) in w.took {
      assert TakeOk(w, plan, Take(Target(w, plan, s), s, w.open.value));
    }
  }

  // ---------- messages and jobs only gain from a group that moves on ----------

  /** No group forgets a number it has seen, and nothing else changes but the replies. */
  ghost predicate Advances(w: World, w': World) {
    && w'.groups.Keys == w.groups.Keys
    && (forall g: nat, s: nat, n: int {:trigger Reached(w', g, s, n)} :: Reached(w, g, s, n) ==> Reached(w', g, s, n))
    && w.took <= w'.took
    && w'.calls == w.calls && w'.num == w.num && w'.version == w.version
    && w'.job == w.job && w'.publishes == w.publishes && w'.open == w.open
  }

  /** What is left to show when a group moves on: who owns what, and the new replies and effects. */
  lemma AdvancesKeep(w: World, plan: Plan, w': World)
    requires Inv(w, plan) && Advances(w, w')
    requires forall g {:trigger GroupOk(w', g)} :: GroupOk(w', g)
    requires forall g: nat, s: nat {:trigger OwnerOk(w', plan, g, s)} :: OwnerOk(w', plan, g, s)
    requires forall s: nat {:trigger ServedOk(w', plan, s)} | s < NSHARDS :: ServedOk(w', plan, s)
    requires forall t {:trigger TakeOk(w', plan, t)} | t in w'.took && t !in w.took :: TakeOk(w', plan, t)
    requires forall r {:trigger ReplyOk(w', r.0, r.1)} | r in w'.replies && r !in w.replies :: ReplyOk(w', r.0, r.1)
    ensures Inv(w', plan)
  {
    forall c | c in w'.calls ensures CallOk(w', plan, c) {
      assert CallOk(w, plan, c);
    }
    forall t | t in w'.took ensures TakeOk(w', plan, t) {
      if t in w.took {
        assert TakeOk(w, plan, t);
        assert Reached(w', t.gid, t.s, t.num);
      }
    }
    forall r | r in w'.replies ensures ReplyOk(w', r.0, r.1) {
      if r in w.replies {
        assert ReplyOk(w, r.0, r.1);
        if r.0.op.Freeze? {
          assert Reached(w, r.0.gid, r.0.op.shard, r.0.op.configNum) ==> Reached(w', r.0.gid, r.0.op.shard, r.0.op.configNum);
        }
      }
    }
    forall n: int, s: nat | MovedOk(w, plan, n, s) ensures MovedOk(w', plan, n, s) {
    }
    forall p | p in w'.publishes ensures PublishOk(w', plan, p.0, p.1) {
      assert PublishOk(w, plan, p.0, p.1);
    }
  }

  /** The world apart from messages and the job. */
  predicate SameState(w: World, w': World) {
    && w'.groups == w.groups && w'.num == w.num && w'.version == w.version
    && w'.open == w.open && w'.took == w.took
  }

  /** With the state as it was, what held of it and of the messages so far still holds. */
  lemma SameWorld(w: World, plan: Plan, w': World)
    requires Inv(w, plan) && SameState(w, w') && w.calls <= w'.calls
    ensures forall g {:trigger GroupOk(w', g)} :: GroupOk(w', g)
    ensures forall g: nat, s: nat {:trigger OwnerOk(w', plan, g, s)} :: OwnerOk(w', plan, g, s)
    ensures forall s: nat {:trigger ServedOk(w', plan, s)} | s < NSHARDS :: ServedOk(w', plan, s)
    ensures forall t {:trigger TakeOk(w', plan, t)} | t in w'.took :: TakeOk(w', plan, t)
    ensures forall c {:trigger CallOk(w', plan, c)} | c in w.calls :: CallOk(w', plan, c)
    ensures forall r {:trigger ReplyOk(w', r.0, r.1)} | r in w.replies :: ReplyOk(w', r.0, r.1)
    ensures forall n: int, s: nat {:trigger MovedOk(w', plan, n, s)} :: MovedOk(w', plan, n, s) == MovedOk(w, plan, n, s)
    ensures forall p {:trigger PublishOk(w', plan, p.0, p.1)} | p in w.publishes :: PublishOk(w', plan, p.0, p.1)
  {
    forall g ensures GroupOk(w', g) {
      assert GroupOk(w, g);
    }
    forall g: nat, s: nat ensures OwnerOk(w', plan, g, s) {
      assert OwnerOk(w, plan, g, s);
    }
    forall s: nat | s < NSHARDS ensures ServedOk(w', plan, s) {
      assert ServedOk(w, plan, s);
    }
    forall t | t in w'.took ensures TakeOk(w', plan, t) {
      assert TakeOk(w, plan, t);
    }
    forall c | c in w.calls ensures CallOk(w', plan, c) {
      assert CallOk(w, plan, c);
    }
    forall r | r in w.replies ensures ReplyOk(w', r.0, r.1) {
      assert ReplyOk(w, r.0, r.1);
    }
    forall n: int, s: nat ensures MovedOk(w', plan, n, s) == MovedOk(w, plan, n, s) {
    }
    forall p | p in w.publishes ensures PublishOk(w', plan, p.0, p.1) {
      assert PublishOk(w, plan, p.0, p.1);
    }
  }

  // ---------- serving a call ----------

  /** Group g's flags for shard s are the only ones that change, and its number does not fall. */
  ghost predicate OnlyAt(w: World, w': World, g: nat, s: Shard, n: int) {
    && g in w.groups && w'.groups.Keys == w.groups.Keys
    && (forall h | h in w.groups :: ValidGroup(w.groups[h]) && ValidGroup(w'.groups[h]))
    && (forall h, t: Shard {:trigger w'.groups[h].owned[t]} {:trigger w'.groups[h].configNums[t]} |
          h in w.groups && (h != g || t != s) ::
          w'.groups[h].owned[t] == w.groups[h].owned[t] && w'.groups[h].configNums[t] == w.groups[h].configNums[t])
    && w'.groups[g].configNums[s] == n >= w.groups[g].configNums[s]
  }

  lemma OnlyAtReached(w: World, w': World, g: nat, s: Shard, n: int)
    requires OnlyAt(w, w', g, s, n)
    ensures forall h: nat, t: nat, m: int {:trigger Reached(w', h, t, m)} :: Reached(w, h, t, m) ==> Reached(w', h, t, m)
  {
    forall h: nat, t: nat, m: int | Reached(w, h, t, m) ensures Reached(w', h, t, m) {
      if h != g || t != s {
        assert w'.groups[h].configNums[t] == w.groups[h].configNums[t];
      }
    }
  }

  lemma OthersServed(w: World, plan: Plan, w': World, g: nat, s: Shard, n: int)
    requires Inv(w, plan) && OnlyAt(w, w', g, s, n)
    requires w'.num == w.num && w'.open == w.open
    requires w.took <= w'.took <= w.took + {Take(g, s, n)}
    ensures forall t: nat {:trigger ServedOk(w', plan, t)} | t < NSHARDS && t != s :: ServedOk(w', plan, t)
    ensures forall h: nat, t: nat {:trigger OwnerOk(w', plan, h, t)} | h != g || t != s :: OwnerOk(w', plan, h, t)
  {
    forall t: nat | t < NSHARDS && t != s ensures ServedOk(w', plan, t) {
      assert ServedOk(w, plan, t);
      var h := Holder(w, plan, t);
      assert h in w.groups ==> w'.groups[h].owned[t] == w.groups[h].owned[t];
    }
    forall h: nat, t: nat | h != g || t != s ensures OwnerOk(w', plan, h, t) {
      assert OwnerOk(w, plan, h, t);
      if Owns(w', h, t) {
        assert w'.groups[h].owned[t] == w.groups[h].owned[t];
      }
    }
  }

  lemma InstallServed(w: World, plan: Plan, c: Call, w': World)
    requires Inv(w, plan) && c in w.calls && TakesEffect(w, c) && w' == Delivered(w, c)
    ensures OwnerOk(w', plan, c.gid, c.op.shard) && ServedOk(w', plan, c.op.shard)
    ensures TakeOk(w', plan, Take(c.gid, c.op.shard, c.op.configNum))
  {
    var g, s, n := c.gid, c.op.shard, c.op.configNum;
    assert CallOk(w, plan, c) && ServedOk(w, plan, s) && GroupOk(w, g);
  }

  lemma LeaveServed(w: World, plan: Plan, c: Call, w': World)
    requires Inv(w, plan) && c in w.calls && (c.op.Freeze? || c.op.Delete?)
    requires c.gid in w.groups && ValidGroup(w.groups[c.gid]) && !Fenced(w.groups[c.gid], c.op.shard, c.op.configNum)
    requires w' == Delivered(w, c)
    ensures OwnerOk(w', plan, c.gid, c.op.shard) && ServedOk(w', plan, c.op.shard)
  {
    var g, s, n := c.gid, c.op.shard, c.op.configNum;
    assert CallOk(w, plan, c) && ServedOk(w, plan, s);
    if Moving(w, plan, s) && Take(Target(w, plan, s), s, w.open.value) in w.took {
      assert TakeOk(w, plan, Take(Target(w, plan, s), s, w.open.value));
    }
  }

  lemma ServedFrame(w: World, c: Call, w': World)
    requires forall h | h in w.groups :: ValidGroup(w.groups[h])
    requires c.gid in w.groups && w' == Delivered(w, c)
    requires c.op.Freeze? || c.op.Install? || c.op.Delete?
    requires !Fenced(w.groups[c.gid], c.op.shard, c.op.configNum)
    ensures OnlyAt(w, w', c.gid, c.op.shard, c.op.configNum)
  {
  }

  lemma UnfencedKeeps(w: World, plan: Plan, c: Call, w': World)
    requires Inv(w, plan) && Next(w, plan, Deliver(c), w') && CallOk(w, plan, c)
    requires forall h | h in w.groups :: ValidGroup(w.groups[h])
    requires !Fenced(w.groups[c.gid], c.op.shard, c.op.configNum)
    ensures Inv(w', plan)
  {
    var s, n := c.op.shard, c.op.configNum;
    ServedFrame(w, c, w');
    OnlyAtReached(w, w', c.gid, s, n);
    OthersServed(w, plan, w', c.gid, s, n);
    if c.op.Install? {
      InstallServed(w, plan, c, w');
    } else {
      LeaveServed(w, plan, c, w');
    }
    forall g ensures GroupOk(w', g) {
      assert GroupOk(w, g);
    }
    AdvancesKeep(w, plan, w');
  }

  /** A fenced call changes nothing and is answered with an error. */
  lemma DeliverKeeps(w: World, plan: Plan, c: Call, w': World)
    requires Inv(w, plan) && Next(w, plan, Deliver(c), w')
    ensures Inv(w', plan)
  {
    assert CallOk(w, plan, c);
    forall g | g in w.groups ensures ValidGroup(w.groups[g]) {
      assert GroupOk(w, g);
    }
    if Fenced(w.groups[c.gid], c.op.shard, c.op.configNum) {
      assert w'.groups == w.groups;
      SameWorld(w, plan, w');
    } else {
      UnfencedKeeps(w, plan, c, w');
    }
  }

  /** Clients' requests leave the flags alone. */
  lemma ClientKeeps(w: World, plan: Plan, gid: nat, op: Request, w': World)
    requires Inv(w, plan) && Next(w, plan, Client(gid, op), w')
    ensures Inv(w', plan)
  {
    var g, g' := w.groups[gid], w'.groups[gid];
    assert g'.owned == g.owned && g'.frozen == g.frozen && g'.configNums == g.configNums;
    forall h ensures GroupOk(w', h) {
      assert GroupOk(w, h);
    }
    forall h: nat, s: nat ensures OwnerOk(w', plan, h, s) {
      assert OwnerOk(w, plan, h, s);
    }
    forall s: nat | s < NSHARDS ensures ServedOk(w', plan, s) {
      assert ServedOk(w, plan, s);
    }
    AdvancesKeep(w, plan, w');
  }

  // ---------- the controller ----------

  /** What a job must satisfy to be sent on. */
  ghost predicate MaySend(w: World, plan: Plan, j: Job)
  {
    && JobOk(w.(calls := if j.s < NSHARDS then w.calls + {CallOf(plan, j)} else w.calls), plan, j)
    && (j.s < NSHARDS ==> CallOk(w, plan, CallOf(plan, j)))
  }

  lemma SendKeeps(w: World, plan: Plan, j: Job)
    requires Inv(w, plan) && MaySend(w, plan, j)
    ensures Inv(Send(plan, w, j), plan)
  {
    var w' := Send(plan, w, j);
    SameWorld(w, plan, w');
    var v := w.(calls := if j.s < NSHARDS then w.calls + {CallOf(plan, j)} else w.calls);
    assert JobOk(v, plan, j) && SameState(v, w');
    forall n: int, s: nat ensures MovedOk(v, plan, n, s) == MovedOk(w', plan, n, s) {
    }
  }

  /** A job about to call for a shard the change moves. */
  lemma JobCallOk(w: World, plan: Plan, j: Job)
    requires Inv(w, plan) && j.s < NSHARDS && Moves(plan, j.from, j.num, j.s)
    requires j.phase != Installing ==> plan(j.from)[j.s] != 0
    requires Current(w, j) || j.num == w.num
    requires Current(w, j) && j.phase != Freezing ==> LetGo(w, plan, j.s, j.num)
    requires Current(w, j) && j.phase == Deleting ==> Take(plan(j.num)[j.s], j.s, j.num) in w.took
    ensures CallOk(w, plan, CallOf(plan, j))
  {
  }

  lemma NextJobOk(w: World, plan: Plan, j: Job, j': Job)
    requires Inv(w, plan) && JobOk(w, plan, j) && j.s < NSHARDS
    requires j' == JobAt(plan, j.num, j.from, j.version, j.s + 1)
    requires Current(w, j) ==> MovedOk(w, plan, j.num, j.s)
    ensures MaySend(w, plan, j')
  {
    if j'.s < NSHARDS {
      JobCallOk(w, plan, j');
    }
    var w1 := w.(calls := if j'.s < NSHARDS then w.calls + {CallOf(plan, j')} else w.calls);
    if Current(w, j) {
      forall s: nat | s < j'.s ensures MovedOk(w1, plan, j.num, s) {
        if s <= j.s {
          assert MovedOk(w, plan, j.num, s);
        } else {
          assert !Moves(plan, j.from, j.num, s);
        }
      }
    }
  }

  lemma ProceedKeeps(w: World, plan: Plan, reply: Reply, w': World)
    requires Inv(w, plan) && Next(w, plan, Proceed(reply), w')
    ensures Inv(w', plan)
  {
    var j := w.job.value;
    if reply.err != OK {
      SameWorld(w, plan, w');
    } else {
      assert ReplyOk(w, CallOf(plan, j), reply);
      var j' := After(plan, j, reply);
      if j'.s == j.s {
        SameShardOk(w, plan, j, j');
      } else {
        NextJobOk(w, plan, j, j');
      }
      SendKeeps(w, plan, j');
    }
  }

  lemma SameShardOk(w: World, plan: Plan, j: Job, j': Job)
    requires Inv(w, plan) && JobOk(w, plan, j) && j.s < NSHARDS
    requires j' == j.(phase := j'.phase, data := j'.data)
    requires j'.phase != Installing ==> plan(j.from)[j.s] != 0
    requires Current(w, j) && j'.phase != Freezing ==> LetGo(w, plan, j.s, j.num)
    requires Current(w, j) && j'.phase == Deleting ==> Take(plan(j.num)[j.s], j.s, j.num) in w.took
    ensures MaySend(w, plan, j')
  {
    JobCallOk(w, plan, j');
    var w1 := w.(calls := w.calls + {CallOf(plan, j')});
    if Current(w, j) {
      forall s: nat | s < j'.s ensures MovedOk(w1, plan, j.num, s) {
        assert MovedOk(w, plan, j.num, s);
      }
    }
  }

  /** Opening a new change: no message of its number is under way yet. */
  lemma OpenKeeps(w: World, plan: Plan, num: int)
    requires Inv(w, plan) && w.job == None && num > w.num
    requires w.open.Some? ==> num == w.open.value
    ensures Inv(w.(open := Some(num)), plan)
  {
    var w' := w.(open := Some(num));
    if w.open == None {
      forall g ensures GroupOk(w', g) {
        assert GroupOk(w, g);
      }
      forall g: nat, s: nat ensures OwnerOk(w', plan, g, s) {
        assert OwnerOk(w, plan, g, s);
      }
      forall t | t in w'.took ensures TakeOk(w', plan, t) && t.num <= w.num {
        assert TakeOk(w, plan, t);
      }
      forall s: nat | s < NSHARDS ensures ServedOk(w', plan, s) {
        assert ServedOk(w, plan, s);
      }
      forall c | c in w'.calls ensures CallOk(w', plan, c) {
        assert CallOk(w, plan, c);
      }
      forall r | r in w'.replies ensures ReplyOk(w', r.0, r.1) {
        assert ReplyOk(w, r.0, r.1);
      }
      forall p | p in w'.publishes ensures PublishOk(w', plan, p.0, p.1) {
        assert PublishOk(w, plan, p.0, p.1);
      }
    } else {
      assert w' == w;
    }
  }

  lemma BeginKeeps(w: World, plan: Plan, num: int, w': World)
    requires Inv(w, plan) && Next(w, plan, Begin(num), w') && Orderly(w, Begin(num))
    ensures Inv(w', plan)
  {
    OpenKeeps(w, plan, num);
    var w1 := w.(open := Some(num));
    var j := JobAt(plan, num, w.num, w.version, 0);
    FirstJobOk(w1, plan, j);
    SendKeeps(w1, plan, j);
    assert w' == Send(plan, w1, j);
  }

  lemma FirstJobOk(w: World, plan: Plan, j: Job)
    requires Inv(w, plan) && Current(w, j)
    requires j == JobAt(plan, j.num, j.from, j.version, 0)
    ensures MaySend(w, plan, j)
  {
    if j.s < NSHARDS {
      JobCallOk(w, plan, j);
    }
    var w1 := w.(calls := if j.s < NSHARDS then w.calls + {CallOf(plan, j)} else w.calls);
    forall s: nat | s < j.s ensures MovedOk(w1, plan, j.num, s) {
      assert !Moves(plan, j.from, j.num, s);
    }
  }

  // ---------- publishing ----------

  /** What every message and group looks like once all shards have moved and the change is published. */
  lemma InstallPublished(w: World, plan: Plan, w': World, g: nat, s: nat, n: int)
    requires w.open.Some? && w.num < w.open.value && s < NSHARDS
    requires w'.num == w.open.value && w'.open == None && w'.groups == w.groups && w'.took == w.took
    requires MovedOk(w, plan, w.open.value, s) && InstallOk(w, plan, g, s, n) && GroupOk(w, 0)
    ensures InstallOk(w', plan, g, s, n)
  {
  }

  lemma LeavePublished(w: World, plan: Plan, w': World, g: nat, s: nat, n: int)
    requires w.open.Some? && w.num < w.open.value && s < NSHARDS
    requires w'.num == w.open.value && w'.open == None && w'.groups == w.groups && w'.took == w.took
    requires MovedOk(w, plan, w.open.value, s) && LeaveOk(w, plan, g, s, n)
    requires forall t {:trigger TakeOk(w, plan, t)} | t in w.took :: TakeOk(w, plan, t)
    ensures LeaveOk(w', plan, g, s, n)
  {
    if Moves(plan, w.num, w.open.value, s) {
      assert TakeOk(w, plan, Take(plan(w.open.value)[s], s, w.open.value));
    }
  }

  lemma OwnersPublished(w: World, plan: Plan, w': World, g: nat, s: nat)
    requires w.open.Some? && w.num < w.open.value && s < NSHARDS
    requires w'.num == w.open.value && w'.open == None && w'.groups == w.groups && w'.took == w.took
    requires MovedOk(w, plan, w.open.value, s) && OwnerOk(w, plan, g, s) && ServedOk(w, plan, s) && GroupOk(w, g)
    requires GroupOk(w, 0)
    ensures OwnerOk(w', plan, g, s) && ServedOk(w', plan, s)
  {
  }

  lemma PublishKeeps(w: World, plan: Plan, n: int, version: nat, w': World)
    requires Inv(w, plan) && Next(w, plan, Publish(n, version), w')
    ensures Inv(w', plan)
  {
    if version == w.version {
      assert PublishOk(w, plan, n, version);
      assert GroupOk(w, 0);
      forall g ensures GroupOk(w', g) {
        assert GroupOk(w, g);
      }
      forall g: nat, s: nat ensures OwnerOk(w', plan, g, s) {
        if s < NSHARDS {
          assert MovedOk(w, plan, n, s) && OwnerOk(w, plan, g, s) && ServedOk(w, plan, s) && GroupOk(w, g);
          OwnersPublished(w, plan, w', g, s);
        }
      }
      forall s: nat | s < NSHARDS ensures ServedOk(w', plan, s) {
        assert MovedOk(w, plan, n, s) && OwnerOk(w, plan, 0, s) && ServedOk(w, plan, s);
        OwnersPublished(w, plan, w', 0, s);
      }
      MessagesPublished(w, plan, n, w');
      forall p | p in w'.publishes ensures PublishOk(w', plan, p.0, p.1) {
        assert PublishOk(w, plan, p.0, p.1);
      }
    }
  }

  lemma MessagesPublished(w: World, plan: Plan, n: int, w': World)
    requires Inv(w, plan) && w.open == Some(n)
    requires forall s: nat {:trigger MovedOk(w, plan, n, s)} | s < NSHARDS :: MovedOk(w, plan, n, s)
    requires w' == w.(num := n, version := w'.version, open := None)
    ensures forall c {:trigger CallOk(w', plan, c)} | c in w'.calls :: CallOk(w', plan, c)
    ensures forall t {:trigger TakeOk(w', plan, t)} | t in w'.took :: TakeOk(w', plan, t)
    ensures forall r {:trigger ReplyOk(w', r.0, r.1)} | r in w'.replies :: ReplyOk(w', r.0, r.1)
  {
    assert GroupOk(w, 0);
    forall c | c in w'.calls ensures CallOk(w', plan, c) {
      assert CallOk(w, plan, c) && MovedOk(w, plan, n, c.op.shard);
      if c.op.Install? {
        InstallPublished(w, plan, w', c.gid, c.op.shard, c.op.configNum);
      } else {
        LeavePublished(w, plan, w', c.gid, c.op.shard, c.op.configNum);
      }
    }
    forall t | t in w'.took ensures TakeOk(w', plan, t) {
      assert TakeOk(w, plan, t) && MovedOk(w, plan, n, t.s);
      InstallPublished(w, plan, w', t.gid, t.s, t.num);
    }
    forall r | r in w'.replies ensures ReplyOk(w', r.0, r.1) {
      assert ReplyOk(w, r.0, r.1);
    }
  }

  // ---------- runs ----------

  lemma EventKeeps(w: World, plan: Plan, e: Event, w': World)
    requires Inv(w, plan) && Next(w, plan, e, w') && Orderly(w, e)
    ensures Inv(w', plan)
  {
    match e
    case Begin(num) => BeginKeeps(w, plan, num, w');
    case Proceed(reply) => ProceedKeeps(w, plan, reply, w');
    case Stop => SameWorld(w, plan, w');
    case Deliver(c) => DeliverKeeps(w, plan, c, w');
    case Publish(n, version) => PublishKeeps(w, plan, n, version, w');
    case Client(gid, op) => ClientKeeps(w, plan, gid, op, w');
  }

  lemma {:induction false} RunOk(ws: seq<World>, plan: Plan, es: seq<Event>, k: nat)
    requires Run(ws, plan, es) && k < |ws|
    ensures Inv(ws[k], plan)
  {
    if k == 0 {
      assert Initial(ws[0]);
    } else {
      RunOk(ws, plan, es, k - 1);
      assert Next(ws[k - 1], plan, es[k - 1], ws[k]);
      EventKeeps(ws[k - 1], plan, es[k - 1], ws[k]);
    }
  }

  /** Shard exclusivity: at no moment of any run do two groups own one shard, although every
      migration call may be repeated and delayed and any change may stop anywhere and be re-run. */
  lemma ShardExclusivity(ws: seq<World>, plan: Plan, es: seq<Event>, k: nat, g: nat, h: nat, s: nat)
    requires Run(ws, plan, es) && k < |ws|
    requires Owns(ws[k], g, s) && Owns(ws[k], h, s)
    ensures g == h
  {
    RunOk(ws, plan, es, k);
    InvExclusive(ws[k], plan, g, h, s);
  }

  /** A shard is without an owner only while it is on its way: the published holder owns it until
      it has let go for the change under way, and the target from its install on. */
  lemma ShardIsServed(ws: seq<World>, plan: Plan, es: seq<Event>, k: nat, s: nat)
    requires Run(ws, plan, es) && k < |ws| && s < NSHARDS
    ensures var w := ws[k];
            Holder(w, plan, s) != 0 ==>
              || Owns(w, Holder(w, plan, s), s)
              || (Moving(w, plan, s) && Reached(w, Holder(w, plan, s), s, w.open.value))
    ensures var w := ws[k];
            Moving(w, plan, s) && Take(Target(w, plan, s), s, w.open.value) in w.took ==> Owns(w, Target(w, plan, s), s)
  {
    RunOk(ws, plan, es, k);
    assert ServedOk(ws[k], plan, s);
  }

  /** No request is ever answered ErrFrozen: a frozen shard is not owned, and that is checked first. */
  lemma NeverErrFrozen(ws: seq<World>, plan: Plan, es: seq<Event>, k: nat, gid: nat, op: Request)
    requires Run(ws, plan, es) && k < |ws| && gid in ws[k].groups
    ensures ValidGroup(ws[k].groups[gid]) && DoOp(ws[k].groups[gid], op).1.err != ErrFrozen
  {
    RunOk(ws, plan, es, k);
    assert GroupOk(ws[k], gid);
  }
}
