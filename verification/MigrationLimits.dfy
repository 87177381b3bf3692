// What re-running a change, or serving an install twice, does to the data.
module MigrationLimits {
  import opened Core
  import opened ShardGroup

  /** The first steps of moving shard s from group a to group b under number n: freeze the source,
      install what the freeze returned, delete at the source. */
  function MoveSteps(a: GroupState, b: GroupState, s: Shard, n: int, steps: nat): (r: (GroupState, GroupState))
    requires ValidGroup(a) && ValidGroup(b)
    ensures ValidGroup(r.0) && ValidGroup(r.1)
  {
    var f := DoOp(a, Freeze(s, n));
    var data := if f.1.FreezeReply? then f.1.data else map[];
    if steps == 0 then (a, b)
    else if steps == 1 then (f.0, b)
    else if steps == 2 then (f.0, DoOp(b, Install(s, n, data)).0)
    else (DoOp(f.0, Delete(s, n)).0, DoOp(b, Install(s, n, data)).0)
  }

  /** Clients may have changed the shard at b, if it was installed there, to live. */
  function WithData(b: GroupState, s: Shard, live: Store): (b': GroupState)
    requires ValidGroup(b)
    ensures ValidGroup(b')
  {
    b.(shards := b.shards[s := live])
  }

  /** The documented idempotence of a configuration change fails for data: a change that stopped
      after some of its steps and is run again ends with the data the shard had when it stopped if
      and only if
      - it stopped before the install and so nothing had happened to the data yet, or
      - it stopped after the install and the clients have not changed the data since, or
      - it stopped after the delete and there is no data.
      The fence lets the number of the change itself pass a second time, and the source then
      freezes, and the target installs, what the first run left there. */
  lemma RerunKeepsData(a: GroupState, b: GroupState, s: Shard, n: int, steps: nat, live: Store)
    requires ValidGroup(a) && ValidGroup(b) && a.configNums[s] <= n && b.configNums[s] <= n && steps <= 3
    requires steps < 2 ==> live == a.shards[s]
    ensures var stopped := MoveSteps(a, b, s, n, steps);
            var again := MoveSteps(stopped.0, if steps < 2 then stopped.1 else WithData(stopped.1, s, live), s, n, 3);
            again.1.shards[s] == live <==>
              (steps < 2 || (steps == 2 && live == a.shards[s]) || (steps == 3 && live == map[]))
  {
    var stopped := MoveSteps(a, b, s, n, steps);
    var b1 := if steps < 2 then stopped.1 else WithData(stopped.1, s, live);
    assert stopped.0.shards[s] == if steps == 3 then map[] else a.shards[s];
    assert stopped.0.configNums[s] <= n && b1.configNums[s] <= n;
    assert MoveSteps(stopped.0, b1, s, n, 3).1.shards[s] == stopped.0.shards[s];
  }

  /** The loss is real: one put acknowledged before a change that is run twice. */
  lemma RerunLosesPut(key: string, value: string)
    ensures var s := Key2Shard(key);
            var a := DoOp(DoOp(NewGroup(), Install(s, 0, map[])).0, Put(key, value, 0));
            var once := MoveSteps(a.0, NewGroup(), s, 1, 3);
            var twice := MoveSteps(once.0, once.1, s, 1, 3);
            && a.1 == PutReply(OK)
            && DoOp(once.1, Get(key)).1 == GetReply(OK, value, 1)
            && DoOp(twice.1, Get(key)).1 == GetReply(ErrNoKey, "", 0)
  {
    var s := Key2Shard(key);
    var a := DoOp(DoOp(NewGroup(), Install(s, 0, map[])).0, Put(key, value, 0)).0;
    var data := map[key := VersionedValue(value, 1)];
    assert a.shards[s] == data && a.configNums[s] == 0;
    var once := MoveSteps(a, NewGroup(), s, 1, 3);
    assert once.1.shards[s] == data && once.0.shards[s] == map[];
  }

  /** Why an install may take effect only once: the fence lets a second install of the same number
      pass as long as no later change has reached the shard, and the clients' data then stays if and
      only if it is still what was installed. */
  lemma SecondInstallKeepsData(b: GroupState, s: Shard, n: int, data: Store, live: Store)
    requires ValidGroup(b) && b.configNums[s] <= n
    ensures var once := DoOp(b, Install(s, n, data)).0;
            var twice := DoOp(WithData(once, s, live), Install(s, n, data));
            && twice.1 == InstallReply(OK)
            && (twice.0.shards[s] == live <==> live == data)
  {
    var once := DoOp(b, Install(s, n, data)).0;
    assert WithData(once, s, live).configNums[s] == n;
  }

  /** The loss is real: a put acknowledged between the two. */
  lemma SecondInstallLosesPut(key: string, value: string)
    ensures var s := Key2Shard(key);
            var put := DoOp(DoOp(NewGroup(), Install(s, 1, map[])).0, Put(key, value, 0));
            && put.1 == PutReply(OK)
            && DoOp(put.0, Get(key)).1 == GetReply(OK, value, 1)
            && DoOp(DoOp(put.0, Install(s, 1, map[])).0, Get(key)).1 == GetReply(ErrNoKey, "", 0)
  {
    var s := Key2Shard(key);
    var once := DoOp(NewGroup(), Install(s, 1, map[])).0;
    var live := map[key := VersionedValue(value, 1)];
    assert DoOp(once, Put(key, value, 0)).0.shards[s] == live;
    SecondInstallKeepsData(NewGroup(), s, 1, map[], live);
  }
}
