// Moving shards between groups: the controller's configuration changes over the shard groups
// (internal/shardctrler, internal/shardgrp).
module Migration {
  import opened Core
  import opened ShardGroup

  ghost predicate GoodPlan(plan: int -> seq<nat>) {
    && (forall n: int {:trigger plan(n)} :: |plan(n)| == NSHARDS)
    && plan(-1) == seq(NSHARDS, i => 0)
  }

  /** Which group each shard is assigned to, by configuration number; 0 is no group. Number -1
      stands for the time before the first configuration. */
  type Plan = p: int -> seq<nat> | GoodPlan(p)
    ghost witness (n: int) => seq(NSHARDS, i => 0)

  datatype Call = Call(gid: nat, op: Request)

  datatype Phase = Freezing | Installing | Deleting

  /** A controller at work under the lock: it read configuration number from at the given version
      of its key and is moving shard s towards configuration num. s is NSHARDS when all are moved. */
  datatype Job = Job(num: int, from: int, version: nat, s: nat, phase: Phase, data: Store)

  datatype Take = Take(gid: nat, s: nat, num: int)

  /** calls and replies hold every message ever sent; each call may be served at any time, any
      number of times. num and version are the published configuration and the version of its
      key, publishes the puts of it that were sent. open is the number of the change that has
      started but is not published; took records which installs took effect, and where. */
  datatype World = World(
    groups: map<nat, GroupState>,
    calls: set<Call>,
    replies: set<(Call, Reply)>,
    num: int,
    version: nat,
    job: Option<Job>,
    publishes: set<(int, nat)>,
    open: Option<int>,
    took: set<Take>)

  datatype Event =
    | Begin(num: int)
    | Proceed(reply: Reply)
    | Stop
    | Deliver(call: Call)
    | Publish(num: int, version: nat)
    | Client(gid: nat, op: Request)

  ghost predicate Initial(w: World) {
    && 0 !in w.groups
    && (forall g | g in w.groups :: w.groups[g] == NewGroup())
    && w.calls == {} && w.replies == {} && w.num == -1 && w.version == 0
    && w.job == None && w.publishes == {} && w.open == None && w.took == {}
  }

  /** Whether the change from one configuration to another moves shard s. */
  ghost predicate Moves(plan: Plan, from: int, num: int, s: nat)
  {
    s < NSHARDS && plan(from)[s] != plan(num)[s]
  }

  /** The first shard at or after s that the change moves. */
  ghost function NextMoved(plan: Plan, from: int, num: int, s: nat): (t: nat)
    requires s <= NSHARDS
    ensures s <= t <= NSHARDS
    ensures t < NSHARDS ==> Moves(plan, from, num, t)
    ensures forall i: nat {:trigger Moves(plan, from, num, i)} | s <= i < t :: !Moves(plan, from, num, i)
    decreases NSHARDS - s
  {
    if s == NSHARDS || Moves(plan, from, num, s) then s else NextMoved(plan, from, num, s + 1)
  }

  /** The job at the next shard to move: a shard that has a source is frozen there first. */
  ghost function JobAt(plan: Plan, num: int, from: int, version: nat, s: nat): Job
    requires s <= NSHARDS
  {
    var t := NextMoved(plan, from, num, s);
    Job(num, from, version, t, if t < NSHARDS && plan(from)[t] != 0 then Freezing else Installing, map[])
  }

  /** The call the job is waiting on. */
  ghost function CallOf(plan: Plan, j: Job): Call
    requires j.s < NSHARDS
  {
    match j.phase
    case Freezing => Call(plan(j.from)[j.s], Freeze(j.s, j.num))
    case Installing => Call(plan(j.num)[j.s], Install(j.s, j.num, j.data))
    case Deleting => Call(plan(j.from)[j.s], Delete(j.s, j.num))
  }

  /** The job goes on: it makes its call, or publishes when there is nothing left to move. */
  ghost function Send(plan: Plan, w: World, j: Job): World
    requires j.s <= NSHARDS
  {
    if j.s < NSHARDS then w.(job := Some(j), calls := w.calls + {CallOf(plan, j)})
    else w.(job := Some(j), publishes := w.publishes + {(j.num, j.version)})
  }

  /** The job after an OK. */
  ghost function After(plan: Plan, j: Job, reply: Reply): Job
    requires j.s < NSHARDS
  {
    match j.phase
    case Freezing => j.(phase := Installing, data := if reply.FreezeReply? then reply.data else map[])
    case Installing =>
      if plan(j.from)[j.s] != 0 then j.(phase := Deleting)
      else JobAt(plan, j.num, j.from, j.version, j.s + 1)
    case Deleting => JobAt(plan, j.num, j.from, j.version, j.s + 1)
  }

  /** call is an install that would pass the fence. */
  predicate TakesEffect(w: World, call: Call) {
    && call.gid in w.groups && ValidGroup(w.groups[call.gid])
    && call.op.Install? && !Fenced(w.groups[call.gid], call.op.shard, call.op.configNum)
  }

  /** A group serves a migration call. */
  function Delivered(w: World, call: Call): World
    requires call.gid in w.groups && ValidGroup(w.groups[call.gid])
  {
    var g := w.groups[call.gid];
    var r := DoOp(g, call.op);
    w.(groups := w.groups[call.gid := r.0],
       replies := w.replies + {(call, r.1)},
       took := if TakesEffect(w, call) then w.took + {Take(call.gid, call.op.shard, call.op.configNum)} else w.took)
  }

  ghost predicate Next(w: World, plan: Plan, e: Event, w': World)
  {
    match e
    // InitConfig for number 0 while nothing is published, ChangeConfigTo for a higher number after
    case Begin(num) =>
      && w.job == None
      && (if w.version == 0 then num == 0 else num > w.num)
      && w' == Send(plan, w, JobAt(plan, num, w.num, w.version, 0)).(open := Some(num))
    case Proceed(reply) =>
      && w.job.Some? && w.job.value.s < NSHARDS
      && (CallOf(plan, w.job.value), reply) in w.replies
      && w' == if reply.err == OK then Send(plan, w, After(plan, w.job.value, reply)) else w.(job := None)
    case Stop => w' == w.(job := None)
    case Deliver(call) =>
      && call in w.calls && call.gid in w.groups && ValidGroup(w.groups[call.gid])
      && w' == Delivered(w, call)
    case Publish(num, version) =>
      && (num, version) in w.publishes
      && w' == if version == w.version then w.(num := num, version := version + 1, open := None) else w
    case Client(gid, op) =>
      && gid in w.groups && ValidGroup(w.groups[gid]) && (op.Get? || op.Put?)
      && w' == w.(groups := w.groups[gid := DoOp(w.groups[gid], op).0])
  }

  /** A change that was interrupted is completed before a later number is begun. */
  predicate Orderly(w: World, e: Event) {
    e.Begin? && w.open.Some? ==> e.num == w.open.value
  }

  /** An install that takes effect again finds the data it installs. A change may be stopped and
      begun again. */
  predicate Undisturbed(w: World, e: Event) {
    e.Deliver? && TakesEffect(w, e.call) && Take(e.call.gid, e.call.op.shard, e.call.op.configNum) in w.took ==>
      w.groups[e.call.gid].shards[e.call.op.shard] == e.call.op.data
  }

  ghost predicate Run(ws: seq<World>, plan: Plan, es: seq<Event>)
  {
    && |ws| == |es| + 1
    && Initial(ws[0])
    && forall k: nat {:trigger es[k]} | k < |es| :: Next(ws[k], plan, es[k], ws[k + 1]) && Orderly(ws[k], es[k])
  }
}
