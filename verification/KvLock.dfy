// The clerk's retry loops and the lock built from versioned puts (internal/kvsrv/client.go, lock.go).
module KvLock {
  import opened Core
  import opened KvServer

  /** What one network call gives its caller: nothing, or the fields of the reply. */
  datatype Answer = Lost | Got(err: Err, value: string, version: nat)

  function AnswerOf(r: Reply): Answer
    requires r.GetReply? || r.PutReply?
  {
    match r
    case GetReply(err, value, version) => Got(err, value, version)
    case PutReply(err) => Got(err, "", 0)
  }

  /** A retransmitted put that finds another version may have been the one that changed it. */
  function Verdict(err: Err, retried: bool): Err {
    if err == ErrVersion && retried then ErrMaybe else err
  }

  /** Where a client stands: outside, in one of the network calls of Acquire or Release, or
      holding the lock. */
  datatype Phase =
    | Idle
    | AcqGet
    | AcqPut(version: nat, retried: bool)
    | AcqCheck
    | Held
    | RelGet
    | RelPut(version: nat, retried: bool)
    | RelCheck

  predicate Calling(ph: Phase) {
    !ph.Idle? && !ph.Held?
  }

  predicate Putting(ph: Phase) {
    ph.AcqPut? || ph.RelPut?
  }

  /** The request a client is waiting on. */
  function RequestOf(name: string, id: string, ph: Phase): KvRequest
    requires Calling(ph)
  {
    match ph
    case AcqPut(version, _) => Put(name, id, version)
    case RelPut(version, _) => Put(name, "", version)
    case _ => Get(name)
  }

  /** The client after its call came back. */
  function OnAnswer(id: string, ph: Phase, a: Answer): Phase {
    match a
    case Lost => if Putting(ph) then ph.(retried := true) else ph
    case Got(err, value, version) =>
      match ph
      case AcqGet =>
        if err == ErrNoKey then AcqPut(0, false)
        else if err != OK then AcqGet
        else if value == id then Held
        else if value == "" then AcqPut(version, false)
        else AcqGet
      case AcqPut(_, retried) =>
        if Verdict(err, retried) in {OK, ErrMaybe} then AcqCheck else AcqGet
      case AcqCheck => if err == OK && value == id then Held else AcqGet
      case RelGet => if err == OK && value == id then RelPut(version, false) else Idle
      case RelPut(_, retried) =>
        if Verdict(err, retried) in {OK, ErrMaybe} then RelCheck else RelGet
      case RelCheck => if err == ErrNoKey || (err == OK && value == "") then Idle else RelGet
      case _ => ph
  }

  /** The client's phase after the first i answers. */
  function Drive(id: string, ph: Phase, answers: seq<Answer>, i: nat): Phase
    requires i <= |answers|
  {
    if i == 0 then ph else OnAnswer(id, Drive(id, ph, answers, i - 1), answers[i - 1])
  }

  lemma {:induction false} DriveLost(id: string, ph: Phase, answers: seq<Answer>, i: nat, j: nat)
    requires i <= j <= |answers|
    requires forall k | i <= k < j :: answers[k] == Lost
    ensures var at := Drive(id, ph, answers, i);
            Drive(id, ph, answers, j) == if Putting(at) && i < j then at.(retried := true) else at
    decreases j - i
  {
    if i < j {
      DriveLost(id, ph, answers, i, j - 1);
    }
  }

  /** A clerk whose network answers its calls with answers[0], answers[1], ...: the i-th answer
      belongs to the i-th call, and a lost call is made again. sent holds the calls so far. */
  class Clerk {
    var sent: seq<Request>

    constructor ()
      ensures sent == []
    {
      sent := [];
    }

    method Get(key: string, answers: seq<Answer>, i: nat) returns (a: Answer, j: nat)
      requires i <= |answers|
      modifies this
      ensures i <= j <= |answers|
      ensures sent == old(sent) + seq(j - i, _ => Request.Get(key))
      ensures a == Lost ==> j == |answers| && forall k | i <= k < j :: answers[k] == Lost
      ensures a != Lost ==> i < j && a == answers[j - 1] && forall k | i <= k < j - 1 :: answers[k] == Lost
    {
      j := i;
      while j < |answers|
        invariant i <= j <= |answers|
        invariant sent == old(sent) + seq(j - i, _ => Request.Get(key))
        invariant forall k | i <= k < j :: answers[k] == Lost
      {
        sent := sent + [Request.Get(key)];
        a := answers[j];
        j := j + 1;
        if a != Lost {
          return;
        }
      }
      a := Lost;
    }

    /** The error a put ends with: the first answer's, made ambiguous if an attempt came before. */
    method Put(key: string, value: string, version: nat, answers: seq<Answer>, i: nat) returns (err: Option<Err>, j: nat)
      requires i <= |answers|
      modifies this
      ensures i <= j <= |answers|
      ensures sent == old(sent) + seq(j - i, _ => Request.Put(key, value, version))
      ensures err.None? ==> j == |answers| && forall k | i <= k < j :: answers[k] == Lost
      ensures err.Some? ==>
                && i < j && answers[j - 1] != Lost
                && (forall k | i <= k < j - 1 :: answers[k] == Lost)
                && err.value == Verdict(answers[j - 1].err, j > i + 1)
    {
      var retried := false;
      j := i;
      while j < |answers|
        invariant i <= j <= |answers|
        invariant sent == old(sent) + seq(j - i, _ => Request.Put(key, value, version))
        invariant forall k | i <= k < j :: answers[k] == Lost
        invariant retried == (j > i)
      {
        sent := sent + [Request.Put(key, value, version)];
        var reply := answers[j];
        j := j + 1;
        if reply != Lost {
          if reply.err == ErrVersion && retried {
            return Some(ErrMaybe), j;
          }
          return Some(reply.err), j;
        }
        retried := true;
      }
      err := None;
    }
  }

  /** The loops of Acquire and Release, given everything the network answers. Both are shown to
      walk the phases and to send what the phases send, so what LockSafety proves of clients that
      follow the phases holds of these loops. */
  class Lock {
    const ck: Clerk
    const lockName: string
    const clientID: string

    constructor (ck: Clerk, lockName: string, clientID: string)
      ensures this.ck == ck && this.lockName == lockName && this.clientID == clientID
    {
      this.ck := ck;
      this.lockName := lockName;
      this.clientID := clientID;
    }

    ghost function After(start: Phase, answers: seq<Answer>, i: nat): Phase
      requires i <= |answers|
    {
      Drive(clientID, start, answers, i)
    }

    /** The first n answers were to the calls the phases make, in order, sent after those before. */
    ghost predicate Asked(before: seq<Request>, sent: seq<Request>, start: Phase, answers: seq<Answer>, n: nat)
      requires n <= |answers|
    {
      && |sent| == |before| + n
      && before <= sent
      && forall k: nat {:trigger After(start, answers, k)} | k < n ::
           && Calling(After(start, answers, k))
           && sent[|before| + k] == RequestOf(lockName, clientID, After(start, answers, k))
    }

    method Acquire(answers: seq<Answer>) returns (done: bool, n: nat)
      modifies ck
      ensures n <= |answers| && (!done ==> n == |answers|)
      ensures done <==> After(AcqGet, answers, n) == Held
      ensures Asked(old(ck.sent), ck.sent, AcqGet, answers, n)
    {
      n := 0;
      ghost var was;
      while n < |answers|
        invariant n <= |answers|
        invariant After(AcqGet, answers, n) == AcqGet || (n == |answers| && Calling(After(AcqGet, answers, n)))
        invariant Asked(old(ck.sent), ck.sent, AcqGet, answers, n)
        decreases |answers| - n
      {
        var start := n;
        var got;
        was := ck.sent;
        got, n := ck.Get(lockName, answers, n);
        StaysInCall(old(ck.sent), AcqGet, was, ck.sent, answers, start, n);
        if got == Lost {
          return false, n;
        }
        if got.err == ErrNoKey {
          var held;
          held, n := Claim(answers, n, 0, old(ck.sent));
          if held {
            return true, n;
          }
        } else if got.err == OK {
          if got.value == clientID {
            return true, n;
          }
          if got.value == "" {
            var held;
            held, n := Claim(answers, n, got.version, old(ck.sent));
            if held {
              return true, n;
            }
          }
        }
      }
      done := false;
    }

    /** Acquire's put of the client's ID at the version it saw, and the look whether it is there. */
    method Claim(answers: seq<Answer>, i: nat, version: nat, ghost before: seq<Request>) returns (held: bool, n: nat)
      requires i <= |answers| && After(AcqGet, answers, i) == AcqPut(version, false)
      requires Asked(before, ck.sent, AcqGet, answers, i)
      modifies ck
      ensures i <= n <= |answers|
      ensures held ==> After(AcqGet, answers, n) == Held
      ensures !held ==> After(AcqGet, answers, n) == AcqGet || (n == |answers| && Calling(After(AcqGet, answers, n)))
      ensures Asked(before, ck.sent, AcqGet, answers, n)
    {
      ghost var was := ck.sent;
      var putErr;
      putErr, n := ck.Put(lockName, clientID, version, answers, i);
      StaysInCall(before, AcqGet, was, ck.sent, answers, i, n);
      if putErr.None? {
        return false, n;
      }
      if putErr.value == OK || putErr.value == ErrMaybe {
        var got;
        var start := n;
        was := ck.sent;
        got, n := ck.Get(lockName, answers, n);
        StaysInCall(before, AcqGet, was, ck.sent, answers, start, n);
        if got == Lost {
          return false, n;
        }
        if got.err == OK && got.value == clientID {
          return true, n;
        }
      }
      held := false;
    }

    method Release(answers: seq<Answer>) returns (done: bool, n: nat)
      modifies ck
      ensures n <= |answers| && (!done ==> n == |answers|)
      ensures done <==> After(RelGet, answers, n) == Idle
      ensures Asked(old(ck.sent), ck.sent, RelGet, answers, n)
    {
      n := 0;
      while n < |answers|
        invariant n <= |answers|
        invariant After(RelGet, answers, n) == RelGet || (n == |answers| && Calling(After(RelGet, answers, n)))
        invariant Asked(old(ck.sent), ck.sent, RelGet, answers, n)
        decreases |answers| - n
      {
        var start := n;
        ghost var was := ck.sent;
        var got;
        got, n := ck.Get(lockName, answers, n);
        StaysInCall(old(ck.sent), RelGet, was, ck.sent, answers, start, n);
        if got == Lost {
          return false, n;
        }
        if got.err == OK {
          if got.value != clientID {
            return true, n;
          }
          var free;
          free, n := Clear(answers, n, got.version, old(ck.sent));
          if free {
            return true, n;
          }
        } else {
          return true, n;
        }
      }
      done := false;
    }

    /** Release's put of the empty value at the version it saw, and the look whether it is there. */
    method Clear(answers: seq<Answer>, i: nat, version: nat, ghost before: seq<Request>) returns (free: bool, n: nat)
      requires i <= |answers| && After(RelGet, answers, i) == RelPut(version, false)
      requires Asked(before, ck.sent, RelGet, answers, i)
      modifies ck
      ensures i <= n <= |answers|
      ensures free ==> After(RelGet, answers, n) == Idle
      ensures !free ==> After(RelGet, answers, n) == RelGet || (n == |answers| && Calling(After(RelGet, answers, n)))
      ensures Asked(before, ck.sent, RelGet, answers, n)
    {
      ghost var was := ck.sent;
      var putErr;
      putErr, n := ck.Put(lockName, "", version, answers, i);
      StaysInCall(before, RelGet, was, ck.sent, answers, i, n);
      if putErr.None? {
        return false, n;
      }
      if putErr.value == OK || putErr.value == ErrMaybe {
        var got;
        var start := n;
        was := ck.sent;
        got, n := ck.Get(lockName, answers, n);
        StaysInCall(before, RelGet, was, ck.sent, answers, start, n);
        if got == Lost {
          return false, n;
        }
        if got.err == ErrNoKey || (got.err == OK && got.value == "") {
          return true, n;
        }
      }
      free := false;
    }

    /** While answers are lost the client repeats its call; the one that is not lost moves it on. */
    lemma StaysInCall(
        before: seq<Request>, start: Phase, was: seq<Request>, sent: seq<Request>, answers: seq<Answer>, i: nat, j: nat)
      requires i <= j <= |answers| && Calling(After(start, answers, i))
      requires forall k | i <= k < j - 1 :: answers[k] == Lost
      requires Asked(before, was, start, answers, i)
      requires sent == was + seq(j - i, _ => RequestOf(lockName, clientID, After(start, answers, i)))
      ensures Asked(before, sent, start, answers, j)
      ensures i < j ==>
                var at := After(start, answers, i);
                After(start, answers, j) ==
                OnAnswer(clientID, if Putting(at) && i < j - 1 then at.(retried := true) else at, answers[j - 1])
    {
      forall k: nat | i <= k < j
        ensures Calling(After(start, answers, k))
        ensures sent[|before| + k] == RequestOf(lockName, clientID, After(start, answers, k))
      {
        DriveLost(clientID, start, answers, i, k);
      }
      if i < j {
        DriveLost(clientID, start, answers, i, j - 1);
      }
    }
  }
}
