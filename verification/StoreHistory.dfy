// What a series of requests to a versioned store answers, told by the requests and answers alone.
module StoreHistory {
  import opened Core
  import opened KvServer
  import opened ShardGroup

  /** The i-th put of key was answered OK. */
  predicate Accepted(rs: seq<KvRequest>, replies: seq<Reply>, key: string, i: nat)
    requires i < |rs| && |replies| == |rs|
  {
    rs[i].Put? && rs[i].key == key && replies[i] == PutReply(OK)
  }

  /** The key's version at the start, and one more for each of the first i requests that was a put of
      it answered OK. From an empty store, that is how many there were. */
  function Count(start: Store, rs: seq<KvRequest>, replies: seq<Reply>, key: string, i: nat): nat
    requires i <= |rs| == |replies|
  {
    if i == 0 then if key in start then start[key].version else 0
    else Count(start, rs, replies, key, i - 1) + (if Accepted(rs, replies, key, i - 1) then 1 else 0)
  }

  /** The value of the last of them, or else the one at the start. */
  function Last(start: Store, rs: seq<KvRequest>, replies: seq<Reply>, key: string, i: nat): string
    requires i <= |rs| == |replies|
  {
    if i == 0 then if key in start then start[key].value else ""
    else if Accepted(rs, replies, key, i - 1) then rs[i - 1].value
    else Last(start, rs, replies, key, i - 1)
  }

  /** What the history makes of a request: a get tells the last value put and the count; a put is
      accepted if and only if its version is the count, and otherwise told whether the key is missing. */
  predicate Answers(start: Store, rs: seq<KvRequest>, replies: seq<Reply>, i: nat)
    requires i < |rs| == |replies|
  {
    var key := rs[i].key;
    var n := Count(start, rs, replies, key, i);
    match rs[i]
    case Get(_) =>
      replies[i] == if n == 0 then GetReply(ErrNoKey, "", 0) else GetReply(OK, Last(start, rs, replies, key, i), n)
    case Put(_, _, version) =>
      replies[i] == PutReply(if version == n then OK else if n == 0 then ErrNoKey else ErrVersion)
  }

  /** A store tells exactly what the history of a key does. */
  ghost predicate Holds(store: Store, start: Store, rs: seq<KvRequest>, replies: seq<Reply>, key: string, i: nat)
    requires i <= |rs| == |replies|
  {
    var n := Count(start, rs, replies, key, i);
    if n == 0 then key !in store
    else key in store && store[key] == VersionedValue(Last(start, rs, replies, key, i), n)
  }

  /** Every key there has been put at least once. */
  ghost predicate Positive(store: Store) {
    forall key {:trigger store[key]} | key in store :: store[key].version > 0
  }

  // ---------- the single server ----------

  /** The states and replies of a server that is sent these requests, in a row. */
  ghost predicate Served(stores: seq<Store>, rs: seq<KvRequest>, replies: seq<Reply>) {
    && |stores| == |rs| + 1 && |replies| == |rs|
    && Positive(stores[0])
    && forall i: nat {:trigger rs[i]} | i < |rs| :: (stores[i + 1], replies[i]) == Serve(stores[i], rs[i])
  }

  lemma {:induction false} ServedHolds(stores: seq<Store>, rs: seq<KvRequest>, replies: seq<Reply>, key: string, i: nat)
    requires Served(stores, rs, replies) && i <= |rs|
    ensures Holds(stores[i], stores[0], rs, replies, key, i)
  {
    if i > 0 {
      ServedHolds(stores, rs, replies, key, i - 1);
      assert (stores[i], replies[i - 1]) == Serve(stores[i - 1], rs[i - 1]);
    }
  }

  /** Over any series of requests a server answers each by the history: a get with the value of the
      last put of its key that was answered OK and the count of those, a put with OK if and only if
      its version is that count. No request touches any other key. */
  lemma ServerAnswers(stores: seq<Store>, rs: seq<KvRequest>, replies: seq<Reply>, i: nat)
    requires Served(stores, rs, replies) && i < |rs|
    ensures Answers(stores[0], rs, replies, i)
    ensures forall key {:trigger key in stores[i + 1]} | key != rs[i].key ::
              && (key in stores[i + 1] <==> key in stores[i])
              && (key in stores[i] ==> stores[i + 1][key] == stores[i][key])
    ensures rs[i].Get? ==> stores[i + 1] == stores[i]
  {
    ServedHolds(stores, rs, replies, rs[i].key, i);
    assert (stores[i + 1], replies[i]) == Serve(stores[i], rs[i]);
  }

  // ---------- a group ----------

  /** The states and replies of a group that is sent these requests. */
  ghost predicate Run(gs: seq<GroupState>, rs: seq<KvRequest>, replies: seq<Reply>) {
    && |gs| == |rs| + 1 && |replies| == |rs|
    && (forall i: nat {:trigger gs[i]} | i < |gs| :: ValidGroup(gs[i]))
    && forall i: nat {:trigger rs[i]} | i < |rs| :: (gs[i + 1], replies[i]) == DoOp(gs[i], rs[i])
  }

  /** A shard that its group owns. */
  ghost predicate Serving(g: GroupState, s: Shard)
    requires ValidGroup(g)
  {
    g.owned[s] && !g.frozen[s] && Positive(g.shards[s])
  }

  /** Clients' requests leave everything of a group alone but the data of the shard they are for. */
  lemma {:induction false} FlagsStay(gs: seq<GroupState>, rs: seq<KvRequest>, replies: seq<Reply>, i: nat)
    requires Run(gs, rs, replies) && i < |gs|
    ensures gs[i].owned == gs[0].owned && gs[i].frozen == gs[0].frozen && gs[i].configNums == gs[0].configNums
  {
    if i > 0 {
      FlagsStay(gs, rs, replies, i - 1);
      assert (gs[i], replies[i - 1]) == DoOp(gs[i - 1], rs[i - 1]);
    }
  }

  lemma {:induction false} OwnerHolds(gs: seq<GroupState>, rs: seq<KvRequest>, replies: seq<Reply>, key: string, i: nat)
    requires Run(gs, rs, replies) && i < |gs| && Serving(gs[0], Key2Shard(key))
    ensures Holds(gs[i].shards[Key2Shard(key)], gs[0].shards[Key2Shard(key)], rs, replies, key, i)
  {
    if i > 0 {
      FlagsStay(gs, rs, replies, i - 1);
      OwnerHolds(gs, rs, replies, key, i - 1);
      assert (gs[i], replies[i - 1]) == DoOp(gs[i - 1], rs[i - 1]);
    }
  }

  /** So does a group, for every shard it owns, and it turns down every other request. */
  lemma GroupAnswers(gs: seq<GroupState>, rs: seq<KvRequest>, replies: seq<Reply>, i: nat)
    requires Run(gs, rs, replies) && i < |rs|
    ensures Serving(gs[0], Key2Shard(rs[i].key)) ==>
              Answers(gs[0].shards[Key2Shard(rs[i].key)], rs, replies, i)
    ensures !gs[0].owned[Key2Shard(rs[i].key)] ==> replies[i].err == ErrWrongGroup && gs[i + 1] == gs[i]
    ensures gs[0].owned[Key2Shard(rs[i].key)] && gs[0].frozen[Key2Shard(rs[i].key)] ==>
              replies[i].err == ErrFrozen && gs[i + 1] == gs[i]
    ensures forall key {:trigger key in gs[i + 1].shards[Key2Shard(key)]} | key != rs[i].key ::
              var was, now := gs[i].shards[Key2Shard(key)], gs[i + 1].shards[Key2Shard(key)];
              (key in now <==> key in was) && (key in was ==> now[key] == was[key])
  {
    var s := Key2Shard(rs[i].key);
    FlagsStay(gs, rs, replies, i);
    if Serving(gs[0], s) {
      OwnerHolds(gs, rs, replies, rs[i].key, i);
    }
    assert (gs[i + 1], replies[i]) == DoOp(gs[i], rs[i]);
  }

  /** A migration request with a number behind the shard's is turned down and changes nothing. Any
      other is accepted and becomes the shard's number: a freeze gives the shard up and tells its data,
      an install takes it with the data sent, a delete empties it. Other shards do not notice. */
  lemma MigrationAnswers(g: GroupState, op: Request)
    requires ValidGroup(g) && (op.Freeze? || op.Install? || op.Delete?)
    ensures var s, h, r := op.shard, DoOp(g, op).0, DoOp(g, op).1;
            && ValidGroup(h)
            && (if op.configNum < g.configNums[s] then
                  h == g && r == match op
                                 case Freeze(_, _) => FreezeReply(ErrVersion, map[])
                                 case Install(_, _, _) => InstallReply(ErrVersion)
                                 case _ => DeleteReply(ErrVersion)
                else
                  && h.configNums[s] == op.configNum && h.owned[s] == op.Install? && h.frozen[s] == op.Freeze?
                  && match op
                     case Freeze(_, _) => h.shards[s] == g.shards[s] && r == FreezeReply(OK, g.shards[s])
                     case Install(_, _, data) => h.shards[s] == data && r == InstallReply(OK)
                     case _ => h.shards[s] == map[] && r == DeleteReply(OK))
            && forall t: Shard {:trigger h.shards[t]} | t != s ::
                 && h.shards[t] == g.shards[t] && h.owned[t] == g.owned[t]
                 && h.frozen[t] == g.frozen[t] && h.configNums[t] == g.configNums[t]
  {
  }
}
