// The replicated state machine of a shard group (internal/shardgrp/server.go).
module ShardGroup {
  import opened Core
  import opened KvServer

  predicate ValidGroup(g: GroupState) {
    |g.shards| == |g.owned| == |g.frozen| == |g.configNums| == NSHARDS
  }

  function NewGroup(): (g: GroupState)
    ensures ValidGroup(g)
  {
    GroupState(seq(NSHARDS, i => map[]), seq(NSHARDS, i => false), seq(NSHARDS, i => false), seq(NSHARDS, i => 0))
  }

  function DoOp(g: GroupState, op: Request): (r: (GroupState, Reply))
    requires ValidGroup(g)
    ensures ValidGroup(r.0)
  {
    match op
    case Get(key) =>
      var s := Key2Shard(key);
      if !g.owned[s] then (g, GetReply(ErrWrongGroup, "", 0))
      else if g.frozen[s] then (g, GetReply(ErrFrozen, "", 0))
      else (g, GetFrom(g.shards[s], key))
    case Put(key, value, version) =>
      var s := Key2Shard(key);
      if !g.owned[s] then (g, PutReply(ErrWrongGroup))
      else if g.frozen[s] then (g, PutReply(ErrFrozen))
      else
        var r := PutTo(g.shards[s], key, value, version);
        (g.(shards := g.shards[s := r.0]), r.1)
    case Freeze(s, num) =>
      if num < g.configNums[s] then (g, FreezeReply(ErrVersion, map[]))
      else (Claim(g, s, num, false, true, g.shards[s]), FreezeReply(OK, g.shards[s]))
    case Install(s, num, data) =>
      if num < g.configNums[s] then (g, InstallReply(ErrVersion))
      else (Claim(g, s, num, true, false, data), InstallReply(OK))
    case Delete(s, num) =>
      if num < g.configNums[s] then (g, DeleteReply(ErrVersion))
      else (Claim(g, s, num, false, false, map[]), DeleteReply(OK))
  }

  /** A migration request that passed the fence sets all of the shard's fields. */
  function Claim(g: GroupState, s: Shard, num: int, owned: bool, frozen: bool, data: Store): GroupState
    requires ValidGroup(g)
  {
    GroupState(g.shards[s := data], g.owned[s := owned], g.frozen[s := frozen], g.configNums[s := num])
  }

  /** A migration request older than what the shard has seen is turned down. */
  predicate Fenced(g: GroupState, s: Shard, num: int)
    requires ValidGroup(g)
  {
    num < g.configNums[s]
  }

  function RestoreFrom(snapshot: Option<GroupState>): GroupState {
    match snapshot
    case Some(g) => g
    case None => NewGroup()
  }

  class Group {
    const gid: int
    const shards: array<Store>
    const owned: array<bool>
    const frozen: array<bool>
    const configNums: array<int>

    predicate Valid()
      reads this
    {
      && shards.Length == owned.Length == frozen.Length == configNums.Length == NSHARDS
      && owned != frozen
    }

    function State(): GroupState
      reads this, shards, owned, frozen, configNums
    {
      GroupState(shards[..], owned[..], frozen[..], configNums[..])
    }

    constructor (gid: int)
      ensures Valid() && State() == NewGroup()
      ensures fresh(shards) && fresh(owned) && fresh(frozen) && fresh(configNums)
    {
      this.gid := gid;
      shards := new Store[NSHARDS](i => map[]);
      owned := new bool[NSHARDS](i => false);
      frozen := new bool[NSHARDS](i => false);
      configNums := new int[NSHARDS](i => 0);
      new;
      assert State() == NewGroup();
    }

    method Get(key: string) returns (reply: Reply)
      requires Valid()
      ensures (State(), reply) == DoOp(State(), Request.Get(key))
    {
      var shard := Key2Shard(key);
      if !owned[shard] {
        return GetReply(ErrWrongGroup, "", 0);
      }
      if frozen[shard] {
        return GetReply(ErrFrozen, "", 0);
      }
      if key !in shards[shard] {
        return GetReply(ErrNoKey, "", 0);
      }
      var val := shards[shard][key];
      return GetReply(OK, val.value, val.version);
    }

    method Put(key: string, value: string, version: nat) returns (reply: Reply)
      requires Valid()
      modifies shards
      ensures (State(), reply) == DoOp(old(State()), Request.Put(key, value, version))
    {
      var shard := Key2Shard(key);
      if !owned[shard] {
        return PutReply(ErrWrongGroup);
      }
      if frozen[shard] {
        return PutReply(ErrFrozen);
      }
      var store := shards[shard];
      assert shards[..] == shards[..][shard := store];
      if version == 0 {
        if key in store {
          return PutReply(ErrVersion);
        }
        shards[shard] := store[key := VersionedValue(value, 1)];
        return PutReply(OK);
      }
      if key !in store {
        return PutReply(ErrNoKey);
      }
      if store[key].version != version {
        return PutReply(ErrVersion);
      }
      shards[shard] := store[key := VersionedValue(value, store[key].version + 1)];
      return PutReply(OK);
    }

    /** Copies a store entry by entry. */
    method Copy(data: Store) returns (copy: Store)
      ensures copy == data
    {
      copy := map[];
      var left := data.Keys;
      while left != {}
        invariant left <= data.Keys
        invariant copy == map k | k in data && k !in left :: data[k]
        decreases left
      {
        var k :| k in left;
        copy := copy[k := data[k]];
        left := left - {k};
      }
    }

    method Freeze(shard: Shard, num: int) returns (reply: Reply)
      requires Valid()
      modifies owned, frozen, configNums
      ensures (State(), reply) == DoOp(old(State()), Request.Freeze(shard, num))
    {
      if num < configNums[shard] {
        return FreezeReply(ErrVersion, map[]);
      }
      configNums[shard] := num;
      owned[shard] := false;
      frozen[shard] := true;
      var data := Copy(shards[shard]);
      assert shards[..] == shards[..][shard := data];
      return FreezeReply(OK, data);
    }

    method Install(shard: Shard, num: int, data: Store) returns (reply: Reply)
      requires Valid()
      modifies shards, owned, frozen, configNums
      ensures (State(), reply) == DoOp(old(State()), Request.Install(shard, num, data))
    {
      if num < configNums[shard] {
        return InstallReply(ErrVersion);
      }
      configNums[shard] := num;
      owned[shard] := true;
      frozen[shard] := false;
      var copy := Copy(data);
      shards[shard] := copy;
      return InstallReply(OK);
    }

    method Delete(shard: Shard, num: int) returns (reply: Reply)
      requires Valid()
      modifies shards, owned, frozen, configNums
      ensures (State(), reply) == DoOp(old(State()), Request.Delete(shard, num))
    {
      if num < configNums[shard] {
        return DeleteReply(ErrVersion);
      }
      configNums[shard] := num;
      owned[shard] := false;
      frozen[shard] := false;
      shards[shard] := map[];
      return DeleteReply(OK);
    }

    method Apply(op: Request) returns (reply: Reply)
      requires Valid()
      modifies shards, owned, frozen, configNums
      ensures (State(), reply) == DoOp(old(State()), op)
    {
      match op
      case Get(key) => reply := Get(key);
      case Put(key, value, version) => reply := Put(key, value, version);
      case Freeze(shard, num) => reply := Freeze(shard, num);
      case Install(shard, num, data) => reply := Install(shard, num, data);
      case Delete(shard, num) => reply := Delete(shard, num);
    }

    method Snapshot() returns (snapshot: Option<GroupState>)
      ensures snapshot == Some(State())
    {
      return Some(GroupState(shards[..], owned[..], frozen[..], configNums[..]));
    }

    method Restore(snapshot: Option<GroupState>)
      requires Valid() && ValidGroup(RestoreFrom(snapshot))
      modifies shards, owned, frozen, configNums
      ensures State() == RestoreFrom(snapshot)
    {
      var g := RestoreFrom(snapshot);
      for i := 0 to NSHARDS
        invariant shards[..i] == g.shards[..i] && owned[..i] == g.owned[..i]
        invariant frozen[..i] == g.frozen[..i] && configNums[..i] == g.configNums[..i]
      {
        shards[i] := g.shards[i];
        owned[i] := g.owned[i];
        frozen[i] := g.frozen[i];
        configNums[i] := g.configNums[i];
      }
      assert shards[..] == g.shards && owned[..] == g.owned;
      assert frozen[..] == g.frozen && configNums[..] == g.configNums;
    }
  }
}
