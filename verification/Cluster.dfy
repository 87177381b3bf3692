// A cluster of Raft peers over a network that may lose, delay, reorder and duplicate messages.
module Cluster {
  import opened Core
  import opened RaftTypes
  import opened RaftPeer

  /** A reply travels with the arguments it answers: the caller still holds them. */
  datatype Msg =
    | VoteReq(to: nat, vote: RequestVoteArgs)
    | VoteRep(from: nat, vote: RequestVoteArgs, voteReply: RequestVoteReply)
    | AppendReq(to: nat, append: AppendEntriesArgs)
    | AppendRep(from: nat, append: AppendEntriesArgs, appendReply: AppendEntriesReply)
    | SnapReq(to: nat, snap: InstallSnapshotArgs)
    | SnapRep(from: nat, snap: InstallSnapshotArgs, snapReply: InstallSnapshotReply)

  /** net holds every message ever sent. A message never delivered is lost. */
  datatype Cluster = Cluster(peers: seq<Peer>, net: set<Msg>)

  /** One critical section of one peer, or its restart from disk. A handler that saves more than
      once may also crash between two of its saves: CrashIn leaves of the callee what it had saved
      by then, with the first so many of a message's entries written, and restarts it. */
  datatype Step =
    | ElectionTimeout(p: nat)
    | ClientCommand(p: nat, command: Command)
    | SendAppend(p: nat, q: nat)
    | SendSnapshot(p: nat, q: nat)
    | Deliver(m: Msg)
    | ServiceSnapshot(p: nat, index: nat, data: GroupState)
    | ApplierRound(p: nat)
    | Restart(p: nat)
    | CrashIn(m: Msg, written: nat)

  ghost predicate Initial(c: Cluster) {
    && |c.peers| > 0
    && (forall i: nat | i < |c.peers| :: c.peers[i] == Make(i, |c.peers|, Disk(None, None)))
    && c.net == {}
  }

  /** The peer whose critical section handles a message: the callee, or the caller awaiting the reply. */
  function Receiver(m: Msg): nat {
    match m
    case VoteReq(to, _) => to
    case VoteRep(_, a, _) => a.candidateId
    case AppendReq(to, _) => to
    case AppendRep(_, a, _) => a.leaderId
    case SnapReq(to, _) => to
    case SnapRep(_, a, _) => a.leaderId
  }

  function Actor(step: Step): nat {
    match step
    case ElectionTimeout(p) => p
    case ClientCommand(p, _) => p
    case SendAppend(p, _) => p
    case SendSnapshot(p, _) => p
    case Deliver(m) => Receiver(m)
    case ServiceSnapshot(p, _, _) => p
    case ApplierRound(p) => p
    case Restart(p) => p
    case CrashIn(m, _) => Receiver(m)
  }

  /** When the environment can cause a step. A vote goroutine handles one reply only, and the
      service snapshots only what the applier has handed out. */
  predicate Enabled(c: Cluster, step: Step) {
    && Actor(step) < |c.peers|
    && var p := c.peers[Actor(step)];
       match step
       case SendAppend(_, q) => q < |c.peers| && q != Actor(step) && p.role == Leader
       case SendSnapshot(_, q) => q < |c.peers| && q != Actor(step) && p.role == Leader
       case Deliver(m) =>
         && m in c.net
         && (m.VoteRep? && p.role == Candidate && p.currentTerm == m.vote.term ==> m.from in p.waiting)
       case ServiceSnapshot(_, index, _) => index <= p.lastApplied
       case CrashIn(m, written) =>
         m in c.net && (if m.AppendReq? then written <= |m.append.entries| else m.VoteReq? || m.SnapReq?)
       case _ => true
  }

  /** What the actor's code needs in order not to index out of range. Nothing here restricts the
      environment: IndexSafety shows it holds whenever a step is enabled in a reachable state. */
  predicate Defined(c: Cluster, step: Step)
    requires Actor(step) < |c.peers|
  {
    var p := c.peers[Actor(step)];
    && p.Valid()
    && match step
       case SendAppend(_, q) =>
         q < p.n && (p.role == Leader ==> 1 <= p.nextIndex[q] <= p.GetLastLogIndex() + 1)
       case Deliver(m) => m.AppendRep? || m.SnapRep? ==> m.from < p.n
       case ServiceSnapshot(_, index, _) => index <= p.commitIndex && index <= p.GetLastLogIndex()
       case ApplierRound(_) => p.commitIndex <= p.GetLastLogIndex()
       case CrashIn(m, written) => m.AppendReq? ==> written <= |m.append.entries|
       case _ => true
  }

  /** The actor after the step. */
  function ActorNext(c: Cluster, step: Step): Peer
    requires Actor(step) < |c.peers| && Defined(c, step)
  {
    var p := c.peers[Actor(step)];
    match step
    case ElectionTimeout(_) => StartElection(p)
    case ClientCommand(_, command) => Start(p, command).0
    case SendAppend(_, _) => p
    case SendSnapshot(_, _) => p
    case Deliver(m) => Receive(p, m)
    case ServiceSnapshot(_, index, data) => Compact(p, index, data)
    case ApplierRound(_) => Apply(p).0
    case Restart(_) => Make(p.me, p.n, p.disk)
    case CrashIn(m, written) => Make(p.me, p.n, Interrupted(p, m, written).disk)
  }

  /** The callee between two saves of the handler: it has taken up the term, and of an AppendEntries
      message it has written the first so many entries. */
  function Interrupted(p: Peer, m: Msg, written: nat): Peer
    requires p.Valid() && (m.AppendReq? ==> written <= |m.append.entries|)
  {
    match m
    case VoteReq(_, a) => if a.term > p.currentTerm then p.StepDown(a.term) else p
    case AppendReq(_, a) => AppendSaved(p, a, written)
    case SnapReq(_, a) => if a.term < p.currentTerm then p else HeedLeader(p, a.term)
    case _ => p
  }

  function Receive(p: Peer, m: Msg): Peer
    requires p.Valid() && (m.AppendRep? || m.SnapRep? ==> m.from < p.n)
  {
    match m
    case VoteReq(_, a) => RequestVote(p, a).0
    case VoteRep(q, a, r) => VoteReply(p, q, a.term, r)
    case AppendReq(_, a) => AppendEntries(p, a).0
    case AppendRep(q, a, r) => AppendReply(p, q, a, r)
    case SnapReq(_, a) => InstallSnapshot(p, a).0
    case SnapRep(q, a, r) => SnapshotReply(p, q, a, r)
  }

  /** The messages the step puts on the network. */
  ghost function Sent(c: Cluster, step: Step): set<Msg>
    requires Actor(step) < |c.peers| && Defined(c, step)
  {
    var p := c.peers[Actor(step)];
    match step
    case ElectionTimeout(_) =>
      set q | q in Others(p.n, p.me) :: VoteReq(q, VoteRequest(StartElection(p)))
    case SendAppend(_, q) =>
      (match AppendRequest(p, q)
       case Some(a) => {AppendReq(q, a)}
       case None => {})
    case SendSnapshot(_, q) => {SnapReq(q, SnapshotRequest(p))}
    case Deliver(m) => Answer(p, m)
    case _ => {}
  }

  ghost function Answer(p: Peer, m: Msg): set<Msg>
    requires p.Valid()
  {
    match m
    case VoteReq(to, a) => {VoteRep(to, a, RequestVote(p, a).1)}
    case AppendReq(to, a) => {AppendRep(to, a, AppendEntries(p, a).1)}
    case SnapReq(to, a) => {SnapRep(to, a, InstallSnapshot(p, a).1)}
    case _ => {}
  }

  ghost predicate Transition(c: Cluster, step: Step, c': Cluster) {
    && Enabled(c, step)
    && Defined(c, step)
    && c' == Cluster(c.peers[Actor(step) := ActorNext(c, step)], c.net + Sent(c, step))
  }

  /** A finite execution: states, and the steps between them. */
  ghost predicate Run(cs: seq<Cluster>, steps: seq<Step>) {
    && |cs| == |steps| + 1
    && Initial(cs[0])
    && forall k: nat {:trigger steps[k]} | k < |steps| :: Transition(cs[k], steps[k], cs[k + 1])
  }
}
