// A run in which a shard with data in it moves from one group to another, so that what is said of
// undisturbed runs is said of something, and one in which a change is overtaken by the next.
module MigrationWitness {
  import opened Core
  import opened ShardGroup
  import opened Migration
  import opened MigrationSafety
  import opened MigrationRefinement
  import opened MigrationOrder

  /** Shard 0 belongs to group 1 first, to group 2 in configuration 1 and to group 3 after that. */
  const PLAN: Plan := (n: int) => seq(NSHARDS, i => if i > 0 || n < 0 then 0 else if n == 0 then 1 else if n == 1 then 2 else 3)

  ghost predicate CleanRun(ws: seq<World>, es: seq<Event>) {
    Run(ws, PLAN, es) && Clean(ws, es)
  }

  lemma Extend(ws: seq<World>, es: seq<Event>, e: Event, w': World) returns (ws': seq<World>, es': seq<Event>)
    requires CleanRun(ws, es) && Next(ws[|es|], PLAN, e, w') && Orderly(ws[|es|], e) && Undisturbed(ws[|es|], e)
    ensures CleanRun(ws', es') && ws'[|es'|] == w'
  {
    hide Next, Orderly, Undisturbed;
    ws', es' := ws + [w'], es + [e];
    forall k: nat | k < |es'|
      ensures Next(ws'[k], PLAN, es'[k], ws'[k + 1]) && Orderly(ws'[k], es'[k]) && Undisturbed(ws'[k], es'[k])
    {
      assert k < |es| ==> Next(ws[k], PLAN, es[k], ws[k + 1]) && Undisturbed(ws[k], es[k]);
    }
  }

  lemma NoMoreMoves(from: int, num: int)
    requires from < num
    ensures NextMoved(PLAN, from, num, 1) == NSHARDS
  {
    forall i: nat | 0 < i < NSHARDS ensures !Moves(PLAN, from, num, i) {
    }
  }

  /** The call the job waits on is served and answered. */
  lemma ServedAndAnswered(ws: seq<World>, es: seq<Event>) returns (ws': seq<World>, es': seq<Event>)
    requires CleanRun(ws, es) && ws[|es|].job.Some? && ws[|es|].job.value.s < NSHARDS
    requires var w, c := ws[|es|], CallOf(PLAN, ws[|es|].job.value);
             && c in w.calls && c.gid in w.groups && ValidGroup(w.groups[c.gid])
             && DoOp(w.groups[c.gid], c.op).1.err == OK && Undisturbed(w, Deliver(c))
    ensures CleanRun(ws', es')
    ensures var w, j := ws[|es|], ws[|es|].job.value;
            var c := CallOf(PLAN, j);
            ws'[|es'|] == Send(PLAN, Delivered(w, c), After(PLAN, j, DoOp(w.groups[c.gid], c.op).1))
  {
    var w, j := ws[|es|], ws[|es|].job.value;
    var c := CallOf(PLAN, j);
    var r := DoOp(w.groups[c.gid], c.op).1;
    ws', es' := Extend(ws, es, Deliver(c), Delivered(w, c));
    ws', es' := Extend(ws', es', Proceed(r), Send(PLAN, Delivered(w, c), After(PLAN, j, r)));
  }

  function Start(): World {
    World(map[1 := NewGroup(), 2 := NewGroup(), 3 := NewGroup()], {}, {}, -1, 0, None, {}, None, {})
  }

  /** InitConfig: shard 0 is installed at group 1 and configuration 0 published. */
  lemma Begins() returns (ws: seq<World>, es: seq<Event>)
    ensures CleanRun(ws, es)
    ensures var w := ws[|es|];
            && w.num == 0 && w.version == 1 && w.open == None && w.took == {Take(1, 0, 0)}
            && w.groups == map[1 := DoOp(NewGroup(), Install(0, 0, map[])).0, 2 := NewGroup(), 3 := NewGroup()]
  {
    ws, es := FirstBegin();
    NoMoreMoves(-1, 0);
    ws, es := ServedAndAnswered(ws, es);
    var w := ws[|es|];
    ws, es := Extend(ws, es, Publish(0, 0), w.(num := 0, version := 1, open := None));
  }

  lemma FirstBegin() returns (ws: seq<World>, es: seq<Event>)
    ensures CleanRun(ws, es)
    ensures var j := Job(0, -1, 0, 0, Installing, map[]);
            ws[|es|] == Start().(job := Some(j), calls := {Call(1, Install(0, 0, map[]))}, open := Some(0))
  {
    ws, es := [Start()], [];
    var j := Job(0, -1, 0, 0, Installing, map[]);
    assert JobAt(PLAN, 0, -1, 0, 0) == j;
    ws, es := Extend(ws, es, Begin(0), Send(PLAN, Start(), j).(open := Some(0)));
  }

  /** The get finds at the target what was put at the source before the shard moved. */
  lemma AShardMoves(value: string) returns (ws: seq<World>, es: seq<Event>)
    ensures CleanRun(ws, es)
    ensures var w := ws[|es|];
            && w.num == 1 && 2 in w.groups && ValidGroup(w.groups[2]) && Owns(w, 2, 0)
            && DoOp(w.groups[2], Get("")).1 == GetReply(OK, value, 1)
  {
    ws, es := Begins();
    var w := ws[|es|];
    ws, es := Extend(ws, es, Stop, w.(job := None));
    w := ws[|es|];
    ws, es := Extend(ws, es, Client(1, Put("", value, 0)), w.(groups := w.groups[1 := DoOp(w.groups[1], Put("", value, 0)).0]));
    w := ws[|es|];
    NoMoreMoves(0, 1);
    var j := Job(1, 0, 1, 0, Freezing, map[]);
    assert JobAt(PLAN, 1, 0, 1, 0) == j;
    ws, es := Extend(ws, es, Begin(1), Send(PLAN, w, j).(open := Some(1)));
    ws, es := ThreeCalls(ws, es, map["" := VersionedValue(value, 1)]);
    w := ws[|es|];
    ws, es := Extend(ws, es, Publish(1, 1), w.(num := 1, version := 2, open := None));
  }

  /** What is known of the world while shard 0 moves. */
  ghost predicate UnderWay(w: World) {
    && w.num == 0 && w.version == 1 && w.open == Some(1) && w.groups.Keys == {1, 2, 3}
    && ValidGroup(w.groups[1]) && ValidGroup(w.groups[2])
    && w.groups[1].configNums[0] <= 1 && w.groups[2].configNums[0] <= 1
    && w.job.Some? && w.job.value.s == 0 && CallOf(PLAN, w.job.value) in w.calls
  }

  lemma FreezeCall(ws: seq<World>, es: seq<Event>, data: Store) returns (ws': seq<World>, es': seq<Event>)
    requires CleanRun(ws, es) && UnderWay(ws[|es|])
    requires ws[|es|].job == Some(Job(1, 0, 1, 0, Freezing, map[])) && ws[|es|].groups[1].shards[0] == data
    ensures CleanRun(ws', es') && UnderWay(ws'[|es'|])
    ensures ws'[|es'|].job == Some(Job(1, 0, 1, 0, Installing, data)) && ws'[|es'|].took == ws[|es|].took
  {
    ws', es' := ServedAndAnswered(ws, es);
  }

  lemma InstallCall(ws: seq<World>, es: seq<Event>, data: Store) returns (ws': seq<World>, es': seq<Event>)
    requires CleanRun(ws, es) && UnderWay(ws[|es|]) && Take(2, 0, 1) !in ws[|es|].took
    requires ws[|es|].job == Some(Job(1, 0, 1, 0, Installing, data))
    ensures CleanRun(ws', es') && UnderWay(ws'[|es'|])
    ensures ws'[|es'|].job == Some(Job(1, 0, 1, 0, Deleting, data))
    ensures var g := ws'[|es'|].groups[2];
            g.owned[0] && !g.frozen[0] && g.shards[0] == data
  {
    ws', es' := ServedAndAnswered(ws, es);
  }

  lemma DeleteCall(ws: seq<World>, es: seq<Event>, data: Store) returns (ws': seq<World>, es': seq<Event>)
    requires CleanRun(ws, es) && UnderWay(ws[|es|]) && ws[|es|].job == Some(Job(1, 0, 1, 0, Deleting, data))
    ensures CleanRun(ws', es')
    ensures var w := ws'[|es'|];
            w.version == 1 && (1, 1) in w.publishes && 2 in w.groups && w.groups[2] == ws[|es|].groups[2]
  {
    NoMoreMoves(0, 1);
    ws', es' := ServedAndAnswered(ws, es);
  }

  /** The three calls that move shard 0. */
  lemma ThreeCalls(ws: seq<World>, es: seq<Event>, data: Store) returns (ws': seq<World>, es': seq<Event>)
    requires CleanRun(ws, es) && UnderWay(ws[|es|]) && Take(2, 0, 1) !in ws[|es|].took
    requires ws[|es|].job == Some(Job(1, 0, 1, 0, Freezing, map[])) && ws[|es|].groups[1].shards[0] == data
    ensures CleanRun(ws', es')
    ensures var w := ws'[|es'|];
            && w.version == 1 && (1, 1) in w.publishes && 2 in w.groups
            && ValidGroup(w.groups[2]) && w.groups[2].owned[0] && !w.groups[2].frozen[0] && w.groups[2].shards[0] == data
  {
    hide CleanRun;
    ws', es' := FreezeCall(ws, es, data);
    ws', es' := InstallCall(ws', es', data);
    ws', es' := DeleteCall(ws', es', data);
  }

  /** Change 1 has frozen the shard and sent its install, and is stopped. */
  lemma StopsBeforeInstall() returns (ws: seq<World>, es: seq<Event>)
    ensures CleanRun(ws, es)
    ensures var w := ws[|es|];
            && w.job == None && w.num == 0 && w.version == 1 && w.open == Some(1) && w.groups.Keys == {1, 2, 3}
            && Call(2, Install(0, 1, map[])) in w.calls
  {
    ws, es := Begins();
    var w := ws[|es|];
    ws, es := Extend(ws, es, Stop, w.(job := None));
    w := ws[|es|];
    NoMoreMoves(0, 1);
    var j := Job(1, 0, 1, 0, Freezing, map[]);
    assert JobAt(PLAN, 1, 0, 1, 0) == j;
    ws, es := Extend(ws, es, Begin(1), Send(PLAN, w, j).(open := Some(1)));
    ws, es := FreezeCall(ws, es, map[]);
    w := ws[|es|];
    ws, es := Extend(ws, es, Stop, w.(job := None));
  }

  /** With change 2 begun instead of completing change 1, two groups can come to own the shard. */
  lemma AnOvertakenChange() returns (ws: seq<World>, es: seq<Event>, w1: World)
    ensures Run(ws, PLAN, es) && Next(ws[|es|], PLAN, Begin(2), w1) && !Orderly(ws[|es|], Begin(2))
    ensures Collides(w1, PLAN, 0)
  {
    ws, es := StopsBeforeInstall();
    var w := ws[|es|];
    w1 := Send(PLAN, w, JobAt(PLAN, 2, 0, 1, 0)).(open := Some(2));
    assert Moves(PLAN, 0, 1, 0) && Moves(PLAN, 0, 2, 0);
    assert InstallSent(w, 2, 0, 1);
    LaterChangeExactly(ws, PLAN, es, 2, w1, 0);
  }
}
