// Log entries and the notion of two logs agreeing on a prefix (internal/core/raft.go).
module RaftTypes {
  import opened Core

  /** A command as Raft sees it: the dummy slot at the base of a log holds none. */
  datatype Command = NoCommand | Submitted(id: int, payload: Request)

  datatype Entry = Entry(term: nat, index: nat, command: Command)

  /** A full log: entry i sits at position i, and position 0 is the dummy entry. */
  type Log = seq<Entry>

  const DUMMY: Entry := Entry(0, 0, NoCommand)

  /** a and b both reach length n and are equal up to there. */
  ghost predicate Agree(a: Log, b: Log, n: nat) {
    && n <= |a|
    && n <= |b|
    && forall k | 0 <= k < n :: a[k] == b[k]
  }

  ghost function LastTerm(log: Log): nat
    requires |log| > 0
  {
    log[|log| - 1].term
  }

  /** The vote check on whole logs: c is at least as up to date as v. */
  ghost predicate UpToDate(c: Log, v: Log)
    requires |c| > 0 && |v| > 0
  {
    LastTerm(c) > LastTerm(v) || (LastTerm(c) == LastTerm(v) && |c| >= |v|)
  }

  /** Q is a strict majority of the peers 0..n-1. */
  ghost predicate Majority(Q: set<nat>, n: nat) {
    && (forall q | q in Q :: q < n)
    && |Q| > n / 2
  }

  function Peers(n: nat): (s: set<nat>)
    ensures forall q: nat :: q in s <==> q < n
    ensures |s| == n
  {
    if n == 0 then {} else Peers(n - 1) + {n - 1}
  }

  lemma SubsetSize(a: set<nat>, b: set<nat>)
    requires a <= b
    ensures |a| <= |b|
  {
    assert b == a + (b - a);
  }

  /** Two majorities share a peer. */
  lemma MajoritiesMeet(A: set<nat>, B: set<nat>, n: nat) returns (q: nat)
    requires Majority(A, n) && Majority(B, n)
    ensures q in A && q in B
  {
    if A * B == {} {
      assert |A + B| == |A| + |B|;
      SubsetSize(A + B, Peers(n));
      assert false;
    }
    q :| q in A * B;
  }
}
