// The controller's own code, undisturbed: InitConfig and ChangeConfigTo while they hold the lock
// (internal/shardctrler/controller.go).
module Controller {
  import opened Core
  import opened ShardGroup

  /** A configuration: its number and the group of each shard, 0 for none. */
  datatype Config = Config(num: int, shards: seq<nat>)

  /** How a call of the controller ends. Stuck stands for a call that never returns: the clerk of a
      group without servers asks forever. */
  datatype Outcome = Done | Failed | Stuck

  function RoundRobin(gids: seq<nat>): (shards: seq<nat>)
    ensures |shards| == NSHARDS
    ensures forall s: Shard :: if gids == [] then shards[s] == 0 else shards[s] == gids[s % |gids|]
  {
    seq(NSHARDS, i requires 0 <= i => if gids == [] then 0 else gids[i % |gids|])
  }

  type Groups = map<nat, GroupState>

  ghost predicate ValidGroups(gs: Groups) {
    0 !in gs && forall g | g in gs :: ValidGroup(gs[g])
  }

  predicate ValidConfig(c: Config) {
    |c.shards| == NSHARDS
  }

  /** Group g has the same data and flags for shard s in both. */
  ghost predicate SameAt(gs: Groups, gs': Groups, g: nat, s: Shard)
    requires ValidGroups(gs) && ValidGroups(gs')
  {
    g in gs && g in gs' ==>
      && gs'[g].shards[s] == gs[g].shards[s] && gs'[g].owned[s] == gs[g].owned[s]
      && gs'[g].frozen[s] == gs[g].frozen[s] && gs'[g].configNums[s] == gs[g].configNums[s]
  }

  function DataAt(gs: Groups, g: nat, s: Shard): Store
    requires g in gs ==> ValidGroup(gs[g])
  {
    if g in gs then gs[g].shards[s] else map[]
  }

  /** Shard s has gone from src to dst under number num, data and all, and no other group noticed. */
  ghost predicate Relocated(gs: Groups, gs': Groups, s: Shard, src: nat, dst: nat, num: int)
    requires ValidGroups(gs) && ValidGroups(gs')
  {
    && dst in gs' && gs'[dst].owned[s] && !gs'[dst].frozen[s] && gs'[dst].configNums[s] == num
    && gs'[dst].shards[s] == (if src == 0 then map[] else DataAt(gs, src, s))
    && (src != 0 ==> src in gs' && !gs'[src].owned[s] && gs'[src].shards[s] == map[])
    && forall g: nat {:trigger SameAt(gs, gs', g, s)} | g != src && g != dst :: SameAt(gs, gs', g, s)
  }

  ghost predicate Untouched(gs: Groups, gs': Groups, s: Shard)
    requires ValidGroups(gs) && ValidGroups(gs')
  {
    forall g: nat {:trigger SameAt(gs, gs', g, s)} :: SameAt(gs, gs', g, s)
  }

  /** Wherever the move of shard s stopped, its data is still at the source or already at the target. */
  ghost predicate Conserved(gs: Groups, gs': Groups, s: Shard, src: nat, dst: nat)
    requires ValidGroups(gs) && ValidGroups(gs')
  {
    src in gs ==> DataAt(gs', src, s) == DataAt(gs, src, s) || DataAt(gs', dst, s) == DataAt(gs, src, s)
  }

  /** The groups are there and behind the fence for this move. */
  ghost predicate Clear(gs: Groups, s: Shard, src: nat, dst: nat, num: int)
    requires ValidGroups(gs)
  {
    && dst in gs && !Fenced(gs[dst], s, num)
    && (src != 0 ==> src in gs && !Fenced(gs[src], s, num))
  }

  class ShardController {
    /** The shard groups, each an atomic machine behind its clerk, and the config key with its version. */
    var groups: Groups
    var config: Option<Config>
    var version: nat

    ghost predicate Valid()
      reads this
    {
      && ValidGroups(groups)
      && (config.Some? ==> ValidConfig(config.value))
      && (config == None <==> version == 0)
    }

    constructor (groups: Groups)
      requires ValidGroups(groups)
      ensures Valid() && this.groups == groups && config == None && version == 0
    {
      this.groups, config, version := groups, None, 0;
    }

    /** The clerk's call of a group. None: the group has no servers, and the call never returns. */
    method Ask(gid: nat, op: Request) returns (reply: Option<Reply>)
      requires Valid()
      modifies this`groups
      ensures Valid() && groups.Keys == old(groups).Keys
      ensures if gid in groups
              then (groups, reply) == (old(groups)[gid := DoOp(old(groups)[gid], op).0], Some(DoOp(old(groups)[gid], op).1))
              else groups == old(groups) && reply == None
    {
      if gid !in groups {
        return None;
      }
      var r := DoOp(groups[gid], op);
      groups := groups[gid := r.0];
      return Some(r.1);
    }

    /** A migration call that must be answered OK for the change to go on. */
    method Demand(gid: nat, op: Request) returns (o: Outcome, reply: Reply)
      requires Valid() && (op.Freeze? || op.Install? || op.Delete?)
      modifies this`groups
      ensures Valid()
      ensures o == Done <==> gid in old(groups) && !Fenced(old(groups)[gid], op.shard, op.configNum)
      ensures if o == Done
              then (groups, reply) == (old(groups)[gid := DoOp(old(groups)[gid], op).0], DoOp(old(groups)[gid], op).1)
              else groups == old(groups)
    {
      var r := Ask(gid, op);
      if r.None? {
        return Stuck, PutReply(OK);
      }
      o := if r.value.err == OK then Done else Failed;
      reply := r.value;
      if gid in old(groups) && o != Done {
        assert old(groups)[gid := old(groups)[gid]] == old(groups);
      }
    }

    /** The move of one shard: freeze it at the source, install what the freeze returned at the
        target, delete it at the source. */
    method MoveShard(s: Shard, src: nat, dst: nat, num: int) returns (o: Outcome)
      requires Valid() && src != dst
      modifies this`groups
      ensures Valid() && groups.Keys == old(groups).Keys
      ensures o == Done <==> Clear(old(groups), s, src, dst, num)
      ensures o == Done ==> Relocated(old(groups), groups, s, src, dst, num)
      ensures Conserved(old(groups), groups, s, src, dst)
      ensures Same(old(groups), groups, s, src, dst)
    {
      hide Same, Relocated, Conserved, Untouched, SameAt, DataAt;
      ghost var g0 := groups;
      SameSelf(g0, s, src, dst);
      var data, reply := map[], PutReply(OK);
      if src != 0 {
        o, reply := Demand(src, Freeze(s, num));
        if o != Done {
          return;
        }
        data := reply.data;
        SameAsked(g0, g0, groups, src, Freeze(s, num), src, dst);
        FreezeConserves(g0, groups, s, src, dst, num);
      }
      ghost var g1 := groups;
      o, reply := Demand(dst, Install(s, num, data));
      if o != Done {
        return;
      }
      SameAsked(g0, g1, groups, dst, Install(s, num, data), src, dst);
      ghost var g2 := groups;
      if src != 0 {
        o, reply := Demand(src, Delete(s, num));
        SameAsked(g0, g2, groups, src, Delete(s, num), src, dst);
      }
      MoveDone(g0, g2, groups, s, src, dst, num, data);
    }

    /** The first configuration: shards dealt to the groups in turn, installed empty, and published.
        Once there is a configuration it does nothing. */
    method InitConfig(gids: seq<nat>) returns (o: Outcome)
      requires Valid()
      modifies this
      ensures Valid() && groups.Keys == old(groups).Keys
      ensures old(config).Some? ==>
                o == Done && groups == old(groups) && config == old(config) && version == old(version)
      ensures old(config) == None ==>
                var c := Config(0, RoundRobin(gids));
                && (o == Done <==> forall s: Shard | c.shards[s] != 0 :: Clear(old(groups), s, 0, c.shards[s], 0))
                && (if o == Done then config == Some(c) && version == 1 else config == None && version == 0)
                && forall s: Shard {:trigger Untouched(old(groups), groups, s)} ::
                     if c.shards[s] == 0 then Untouched(old(groups), groups, s)
                     else o == Done ==> Relocated(old(groups), groups, s, 0, c.shards[s], 0)
    {
      if config.Some? {
        return Done;
      }
      var none := Config(-1, seq(NSHARDS, i => 0));
      var c := Config(0, RoundRobin(gids));
      for i := 0 to NSHARDS
        invariant Valid() && groups.Keys == old(groups).Keys
        invariant config == old(config) && version == old(version)
        invariant forall s: Shard | i <= s :: Untouched(old(groups), groups, s)
        invariant forall s: Shard | s < i && c.shards[s] == 0 :: Untouched(old(groups), groups, s)
        invariant forall s: Shard | s < i && c.shards[s] != 0 ::
                    && Clear(old(groups), s, none.shards[s], c.shards[s], c.num)
                    && Relocated(old(groups), groups, s, none.shards[s], c.shards[s], c.num)
      {
        var dst := c.shards[i];
        if dst != 0 {
          ghost var was := groups;
          var moved := MoveShard(i, 0, dst, 0);
          MovedOne(old(groups), was, groups, i, 0, dst, 0);
          OthersKept(old(groups), was, groups, i, none, c);
          if moved != Done {
            assert !Clear(old(groups), i, 0, dst, 0);
            return moved;
          }
        }
      }
      o := Publish(c, 0);
    }

    /** Moves every shard whose group changes, in order, and then publishes. It ends well exactly if
        every shard that moves finds its groups there and behind the fence; however it ends, no
        shard's data is lost on the way. */
    method ChangeConfigTo(target: Config) returns (o: Outcome)
      requires Valid() && ValidConfig(target)
      modifies this
      ensures Valid() && groups.Keys == old(groups).Keys
      ensures old(config) == None ==> o == Failed
      ensures old(config).Some? && target.num <= old(config).value.num ==> o == Done
      ensures old(config) == None || target.num <= old(config).value.num ==>
                groups == old(groups) && config == old(config) && version == old(version)
      ensures old(config).Some? && old(config).value.num < target.num ==>
                var from := old(config).value;
                && (o == Done <==> forall s: Shard | from.shards[s] != target.shards[s] ::
                      Clear(old(groups), s, from.shards[s], target.shards[s], target.num))
                && (o == Done ==> config == Some(target) && version == old(version) + 1)
                && (o != Done ==> config == old(config) && version == old(version))
                && forall s: Shard {:trigger Untouched(old(groups), groups, s)} ::
                     if from.shards[s] == target.shards[s] then Untouched(old(groups), groups, s)
                     else
                       && Conserved(old(groups), groups, s, from.shards[s], target.shards[s])
                       && (o == Done ==> Relocated(old(groups), groups, s, from.shards[s], target.shards[s], target.num))
    {
      if config == None {
        return Failed;
      }
      var current, v := config.value, version;
      if target.num <= current.num {
        return Done;
      }
      for i := 0 to NSHARDS
        invariant Valid() && groups.Keys == old(groups).Keys
        invariant config == old(config) && version == old(version)
        invariant forall s: Shard | i <= s :: Untouched(old(groups), groups, s)
        invariant forall s: Shard | s < i && current.shards[s] == target.shards[s] :: Untouched(old(groups), groups, s)
        invariant forall s: Shard | s < i && current.shards[s] != target.shards[s] ::
                    && Clear(old(groups), s, current.shards[s], target.shards[s], target.num)
                    && Relocated(old(groups), groups, s, current.shards[s], target.shards[s], target.num)
      {
        var src, dst := current.shards[i], target.shards[i];
        if src != dst {
          ghost var was := groups;
          var moved := MoveShard(i, src, dst, target.num);
          MovedOne(old(groups), was, groups, i, src, dst, target.num);
          OthersKept(old(groups), was, groups, i, current, target);
          if moved != Done {
            assert !Clear(old(groups), i, src, dst, target.num);
            forall s: Shard | s != i && current.shards[s] != target.shards[s]
              ensures Conserved(old(groups), groups, s, current.shards[s], target.shards[s])
            {
              assert s > i ==> Untouched(old(groups), groups, s);
              assert s > i ==> SameAt(old(groups), groups, current.shards[s], s);
            }
            return moved;
          }
        }
      }
      o := Publish(target, v);
      assert forall s: Shard | current.shards[s] != target.shards[s] ::
          Conserved(old(groups), groups, s, current.shards[s], target.shards[s]);
    }

    method Publish(c: Config, v: nat) returns (o: Outcome)
      requires Valid() && ValidConfig(c)
      modifies this`config, this`version
      ensures Valid()
      ensures (config, version, o) ==
              if v == old(version) then (Some(c), v + 1, Done) else (old(config), old(version), Failed)
    {
      if v != version {
        return Failed;
      }
      config, version := Some(c), v + 1;
      o := Done;
    }
  }

  /** Groups that no call of the move of shard s has reached are as they were, and so are all groups
      at other shards. */
  ghost predicate Same(gs: Groups, gs': Groups, s: Shard, src: nat, dst: nat)
    requires ValidGroups(gs) && ValidGroups(gs')
  {
    && (forall t: Shard {:trigger Untouched(gs, gs', t)} | t != s :: Untouched(gs, gs', t))
    && (forall g: nat {:trigger SameAt(gs, gs', g, s)} | g != src && g != dst :: SameAt(gs, gs', g, s))
  }

  lemma SameSelf(gs: Groups, s: Shard, src: nat, dst: nat)
    requires ValidGroups(gs)
    ensures Same(gs, gs, s, src, dst) && Conserved(gs, gs, s, src, dst)
  {
  }

  /** Freezing leaves the data at the source. */
  lemma FreezeConserves(start: Groups, now: Groups, s: Shard, src: nat, dst: nat, num: int)
    requires ValidGroups(start) && ValidGroups(now)
    requires now == if src in start then start[src := DoOp(start[src], Freeze(s, num)).0] else start
    ensures Conserved(start, now, s, src, dst)
  {
  }

  lemma MoveDone(start: Groups, was: Groups, now: Groups, s: Shard, src: nat, dst: nat, num: int, data: Store)
    requires ValidGroups(start) && ValidGroups(was) && ValidGroups(now) && src != dst
    requires was.Keys == start.Keys && dst in was && (src != 0 ==> src in was)
    requires data == if src == 0 then map[] else start[src].shards[s]
    requires was[dst].shards[s] == data && was[dst].owned[s] && !was[dst].frozen[s] && was[dst].configNums[s] == num
    requires src != 0 ==> !Fenced(was[src], s, num)
    requires now == if src == 0 then was else was[src := DoOp(was[src], Delete(s, num)).0]
    requires Same(start, now, s, src, dst)
    ensures Relocated(start, now, s, src, dst, num) && Conserved(start, now, s, src, dst)
  {
  }

  lemma SameAsked(start: Groups, was: Groups, now: Groups, gid: nat, op: Request, src: nat, dst: nat)
    requires ValidGroups(start) && ValidGroups(was) && ValidGroups(now) && start.Keys == was.Keys
    requires op.Freeze? || op.Install? || op.Delete?
    requires Same(start, was, op.shard, src, dst) && (gid == src || gid == dst)
    requires now == if gid in was then was[gid := DoOp(was[gid], op).0] else was
    ensures Same(start, now, op.shard, src, dst)
  {
    var s := op.shard;
    forall t: Shard | t != s ensures Untouched(start, now, t) {
      assert Untouched(start, was, t);
      forall g: nat ensures SameAt(start, now, g, t) {
        assert SameAt(start, was, g, t);
      }
    }
    forall g: nat | g != src && g != dst ensures SameAt(start, now, g, s) {
      assert SameAt(start, was, g, s);
    }
  }

  /** Moving an untouched shard is moving it from the start. */
  lemma MovedOne(start: Groups, was: Groups, now: Groups, s: Shard, src: nat, dst: nat, num: int)
    requires ValidGroups(start) && ValidGroups(was) && ValidGroups(now) && was.Keys == start.Keys == now.Keys
    requires Untouched(start, was, s)
    ensures Clear(was, s, src, dst, num) == Clear(start, s, src, dst, num)
    ensures Relocated(was, now, s, src, dst, num) ==> Relocated(start, now, s, src, dst, num)
    ensures Conserved(was, now, s, src, dst) ==> Conserved(start, now, s, src, dst)
  {
    assert SameAt(start, was, src, s) && SameAt(start, was, dst, s);
    if Relocated(was, now, s, src, dst, num) {
      forall g: nat | g != src && g != dst ensures SameAt(start, now, g, s) {
        assert SameAt(start, was, g, s) && SameAt(was, now, g, s);
      }
    }
  }

  /** What was reached for the other shards stays. */
  lemma OthersKept(start: Groups, was: Groups, now: Groups, s: Shard, from: Config, target: Config)
    requires ValidGroups(start) && ValidGroups(was) && ValidGroups(now) && was.Keys == start.Keys == now.Keys
    requires ValidConfig(from) && ValidConfig(target)
    requires forall t: Shard {:trigger Untouched(was, now, t)} | t != s :: Untouched(was, now, t)
    ensures forall t: Shard {:trigger Untouched(start, now, t)} | t != s && Untouched(start, was, t) :: Untouched(start, now, t)
    ensures forall t: Shard | t != s && Relocated(start, was, t, from.shards[t], target.shards[t], target.num) ::
              Relocated(start, now, t, from.shards[t], target.shards[t], target.num)
  {
    forall t: Shard | t != s && Untouched(start, was, t) ensures Untouched(start, now, t) {
      assert Untouched(was, now, t);
      forall g: nat ensures SameAt(start, now, g, t) {
        assert SameAt(start, was, g, t) && SameAt(was, now, g, t);
      }
    }
    forall t: Shard | t != s && Relocated(start, was, t, from.shards[t], target.shards[t], target.num)
      ensures Relocated(start, now, t, from.shards[t], target.shards[t], target.num)
    {
      assert Untouched(was, now, t);
      forall g: nat ensures SameAt(start, was, g, t) ==> SameAt(start, now, g, t) {
        assert SameAt(was, now, g, t);
      }
      assert SameAt(was, now, from.shards[t], t) && SameAt(was, now, target.shards[t], t);
    }
  }
}
