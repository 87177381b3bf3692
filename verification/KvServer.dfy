// The single-node versioned store (internal/kvsrv/server.go).
module KvServer {
  import opened Core

  function GetFrom(store: Store, key: string): Reply {
    if key in store then GetReply(OK, store[key].value, store[key].version) else GetReply(ErrNoKey, "", 0)
  }

  /** A put takes effect when its version is the key's current one, 0 standing for no key. */
  function PutTo(store: Store, key: string, value: string, version: nat): (Store, Reply) {
    if version == 0 then
      if key in store then (store, PutReply(ErrVersion))
      else (store[key := VersionedValue(value, 1)], PutReply(OK))
    else if key !in store then (store, PutReply(ErrNoKey))
    else if store[key].version != version then (store, PutReply(ErrVersion))
    else (store[key := VersionedValue(value, version + 1)], PutReply(OK))
  }

  type KvRequest = r: Request | r.Get? || r.Put? witness Get("")

  /** What the server does with one request. */
  function Serve(store: Store, r: KvRequest): (Store, Reply) {
    match r
    case Get(key) => (store, GetFrom(store, key))
    case Put(key, value, version) => PutTo(store, key, value, version)
  }

  class KVServer {
    var store: Store

    constructor ()
      ensures store == map[]
    {
      store := map[];
    }

    method Get(key: string) returns (reply: Reply)
      ensures reply == GetFrom(store, key)
    {
      if key !in store {
        return GetReply(ErrNoKey, "", 0);
      }
      var val := store[key];
      return GetReply(OK, val.value, val.version);
    }

    method Put(key: string, value: string, version: nat) returns (reply: Reply)
      modifies this
      ensures (store, reply) == PutTo(old(store), key, value, version)
    {
      if version == 0 {
        if key in store {
          return PutReply(ErrVersion);
        }
        store := store[key := VersionedValue(value, 1)];
        return PutReply(OK);
      }
      if key !in store {
        return PutReply(ErrNoKey);
      }
      var current := store[key];
      if current.version != version {
        return PutReply(ErrVersion);
      }
      store := store[key := VersionedValue(value, current.version + 1)];
      return PutReply(OK);
    }

    /** Snapshot and Restore as values: an empty snapshot restores the empty store. */
    method Snapshot() returns (snapshot: Option<Store>)
      ensures snapshot == Some(store)
    {
      return Some(store);
    }

    method Restore(snapshot: Option<Store>)
      modifies this
      ensures store == if snapshot.Some? then snapshot.value else map[]
    {
      match snapshot
      case None => store := map[];
      case Some(s) => store := s;
    }
  }
}
