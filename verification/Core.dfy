// Requests, replies and the state of a shard group (internal/core).
module Core {
  datatype Option<+T> = None | Some(value: T)

  datatype VersionedValue = VersionedValue(value: string, version: nat)

  type Store = map<string, VersionedValue>

  datatype Err = OK | ErrNoKey | ErrVersion | ErrMaybe | ErrWrongLeader | ErrWrongGroup | ErrFrozen

  const NSHARDS: nat := 10

  type Shard = s: nat | s < NSHARDS

  /** Every operation a shard group replicates. */
  datatype Request =
    | Get(key: string)
    | Put(key: string, value: string, version: nat)
    | Freeze(shard: Shard, configNum: int)
    | Install(shard: Shard, configNum: int, data: Store)
    | Delete(shard: Shard, configNum: int)

  datatype Reply =
    | GetReply(err: Err, value: string, version: nat)
    | PutReply(err: Err)
    | FreezeReply(err: Err, data: Store)
    | InstallReply(err: Err)
    | DeleteReply(err: Err)

  /** The fields of a ShardGroup, which are also what its snapshot holds. */
  datatype GroupState = GroupState(
    shards: seq<Store>,
    owned: seq<bool>,
    frozen: seq<bool>,
    configNums: seq<int>)

  /** The shard of a key: its first byte, modulo the number of shards. */
  function Key2Shard(key: string): Shard {
    if |key| > 0 then key[0] as int % NSHARDS else 0
  }
}
