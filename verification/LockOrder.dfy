/**
 Lock order once the audit chain is counted. A transfer ends by writing its
 required audit row, which takes the database-wide advisory lock while it holds
 both user rows. A top-up approval takes that lock first and the user row second,
 and so does any call that just notes an audit row about a user, because the row's
 foreign key locks the user's. A mix of jobs can reach a circular wait, and does so
 exactly when the owner of a top-up or of a note takes part in one of the transfers.
 */
module LockOrder {

  datatype Lock = PendingRow(id: nat) | TopUpRow(id: nat) | UserRow(id: nat) | AuditChain

  datatype Job =
    | Transfer(pending: nat, lower: nat, higher: nat)
    | TopUpApproval(request: nat, owner: nat)
    | Note(owner: nat)

  predicate Proper(jobs: seq<Job>) {
    forall i :: 0 <= i < |jobs| && jobs[i].Transfer? ==> jobs[i].lower < jobs[i].higher
  }

  function Size(j: Job): nat {
    match j
    case Transfer(_, _, _) => 4
    case TopUpApproval(_, _) => 3
    case Note(_) => 2
  }

  /** The locks a job takes, in the order it takes them; all are released together at its end. */
  function Takes(j: Job, k: nat): Lock
    requires k < Size(j)
  {
    match j
    case Transfer(p, lo, hi) =>
      if k == 0 then PendingRow(p) else if k == 1 then UserRow(lo) else if k == 2 then UserRow(hi) else AuditChain
    case TopUpApproval(r, u) => if k == 0 then TopUpRow(r) else if k == 1 then AuditChain else UserRow(u)
    case Note(u) => if k == 0 then AuditChain else UserRow(u)
  }

  /** The turn at which a job takes a lock, or its size if it never does. */
  function Turn(j: Job, r: Lock): (k: nat)
    ensures k <= Size(j) && (k < Size(j) ==> Takes(j, k) == r)
  {
    if Takes(j, 0) == r then 0
    else if Takes(j, 1) == r then 1
    else if !j.Note? && Takes(j, 2) == r then 2
    else if j.Transfer? && r == AuditChain then 3
    else Size(j)
  }

  /** How many locks each job has taken, or that it has ended. */
  datatype Progress = Taken(count: nat) | Ended

  type State = seq<Progress>

  predicate Fits(jobs: seq<Job>, s: State) {
    |s| == |jobs| && forall i :: 0 <= i < |s| && s[i].Taken? ==> s[i].count <= Size(jobs[i])
  }

  predicate HoldsLock(jobs: seq<Job>, s: State, i: nat, r: Lock)
    requires Fits(jobs, s) && i < |jobs|
  {
    s[i].Taken? && Turn(jobs[i], r) < s[i].count
  }

  predicate Waiting(jobs: seq<Job>, s: State, i: nat)
    requires Fits(jobs, s) && i < |jobs|
  {
    s[i].Taken? && s[i].count < Size(jobs[i])
  }

  function Wanted(jobs: seq<Job>, s: State, i: nat): Lock
    requires Fits(jobs, s) && i < |jobs| && Waiting(jobs, s, i)
  {
    Takes(jobs[i], s[i].count)
  }

  datatype Move = Go(job: nat) | End(job: nat)

  /** A job takes its next lock if nobody else holds it, or ends and releases everything. */
  function Act(jobs: seq<Job>, s: State, m: Move): (after: State)
    requires Fits(jobs, s)
    ensures Fits(jobs, after)
  {
    if m.job >= |jobs| || s[m.job].Ended? then s
    else if m.End? || !Waiting(jobs, s, m.job) then s[m.job := Ended]
    else if exists j :: 0 <= j < |jobs| && j != m.job && HoldsLock(jobs, s, j, Wanted(jobs, s, m.job)) then s
    else s[m.job := Taken(s[m.job].count + 1)]
  }

  /** The lock job i is waiting for is among those some other job has taken so far. */
  ghost predicate TakenByAnother(jobs: seq<Job>, s: State, i: nat)
    requires Fits(jobs, s) && i < |jobs| && s[i].Taken? && s[i].count < Size(jobs[i])
  {
    exists j, k :: && 0 <= j < |jobs| && j != i && s[j].Taken?
                   && 0 <= k < s[j].count && Takes(jobs[j], k) == Takes(jobs[i], s[i].count)
  }

  /** A job moves on exactly when nobody else has taken its next lock; one that has them all can only end. */
  lemma ActAnswers(jobs: seq<Job>, s: State, i: nat)
    requires Fits(jobs, s) && i < |jobs| && s[i].Taken?
    ensures Act(jobs, s, End(i)) == s[i := Ended]
    ensures Act(jobs, s, Go(i)) ==
            if s[i].count == Size(jobs[i]) then s[i := Ended]
            else if TakenByAnother(jobs, s, i) then s
            else s[i := Taken(s[i].count + 1)]
  {
    if s[i].count < Size(jobs[i]) {
      forall j | 0 <= j < |jobs| && j != i
        ensures HoldsLock(jobs, s, j, Wanted(jobs, s, i)) <==>
                s[j].Taken? && exists k :: 0 <= k < s[j].count && Takes(jobs[j], k) == Takes(jobs[i], s[i].count)
      {
        TurnIsFirst(jobs[j], Wanted(jobs, s, i));
      }
    }
  }

  lemma TurnIsFirst(job: Job, r: Lock)
    ensures forall k :: 0 <= k < Size(job) && Takes(job, k) == r ==> Turn(job, r) <= k
  {
  }

  function Schedule(jobs: seq<Job>, moves: seq<Move>): (s: State)
    ensures Fits(jobs, s)
  {
    if moves == [] then seq(|jobs|, _ => Taken(0))
    else Act(jobs, Schedule(jobs, moves[..|moves| - 1]), moves[|moves| - 1])
  }

  ghost predicate HeldWithin(jobs: seq<Job>, s: State, i: nat, ring: set<nat>)
    requires Fits(jobs, s) && i < |jobs| && Waiting(jobs, s, i) && forall j :: j in ring ==> j < |jobs|
  {
    exists j :: j in ring && j != i && HoldsLock(jobs, s, j, Wanted(jobs, s, i))
  }

  /** A set of jobs, each waiting for a lock that another of them holds. */
  ghost predicate CircularWait(jobs: seq<Job>, s: State, ring: set<nat>)
    requires Fits(jobs, s)
  {
    && ring != {} && (forall i :: i in ring ==> i < |jobs|)
    && (forall i :: i in ring ==> Waiting(jobs, s, i))
    && (forall i {:trigger HeldWithin(jobs, s, i, ring)} :: i in ring ==> HeldWithin(jobs, s, i, ring))
  }

  predicate Shares(t: Job, a: Job) {
    t.Transfer? && !a.Transfer? && (a.owner == t.lower || a.owner == t.higher)
  }

  ghost predicate OwnerTransacts(jobs: seq<Job>) {
    exists i, j :: 0 <= i < |jobs| && 0 <= j < |jobs| && Shares(jobs[i], jobs[j])
  }

  // ----- the unsafe mix

  lemma StartThenTake(jobs: seq<Job>, moves: seq<Move>, i: nat)
    ensures Schedule(jobs, moves + [Go(i)]) == Act(jobs, Schedule(jobs, moves), Go(i))
  {
    assert (moves + [Go(i)])[..|moves|] == moves;
  }

  lemma TransferLocksItsToken(jobs: seq<Job>, t: nat)
    requires Proper(jobs) && t < |jobs| && jobs[t].Transfer?
    ensures Schedule(jobs, [Go(t)]) == (seq(|jobs|, _ => Taken(0)))[t := Taken(1)]
  {
    var idle: State := seq(|jobs|, _ => Taken(0));
    StartThenTake(jobs, [], t);
    assert Schedule(jobs, []) == idle;
    assert [] + [Go(t)] == [Go(t)];
  }

  lemma TransferLocksBothUsers(jobs: seq<Job>, t: nat)
    requires Proper(jobs) && t < |jobs| && jobs[t].Transfer?
    ensures Schedule(jobs, [Go(t), Go(t), Go(t)]) == (seq(|jobs|, _ => Taken(0)))[t := Taken(3)]
  {
    var idle: State := seq(|jobs|, _ => Taken(0));
    TransferLocksItsToken(jobs, t);
    StartThenTake(jobs, [Go(t)], t);
    assert [Go(t)] + [Go(t)] == [Go(t), Go(t)];
    assert Schedule(jobs, [Go(t), Go(t)]) == idle[t := Taken(2)];
    StartThenTake(jobs, [Go(t), Go(t)], t);
    assert [Go(t), Go(t)] + [Go(t)] == [Go(t), Go(t), Go(t)];
  }

  /** The moves by which a job that is not a transfer takes the chain. */
  function ToTheChain(a: nat, job: Job): seq<Move> {
    if job.Note? then [Go(a)] else [Go(a), Go(a)]
  }

  lemma FirstLockIsFree(jobs: seq<Job>, t: nat, a: nat)
    requires t < |jobs| && a < |jobs| && jobs[t].Transfer? && !jobs[a].Transfer?
    ensures var s: State := (seq(|jobs|, _ => Taken(0)))[t := Taken(3)];
            Fits(jobs, s) && Act(jobs, s, Go(a)) == s[a := Taken(1)]
  {
  }

  lemma OtherTakesItsFirst(jobs: seq<Job>, t: nat, a: nat)
    requires Proper(jobs) && t < |jobs| && a < |jobs| && jobs[t].Transfer? && !jobs[a].Transfer?
    ensures Schedule(jobs, [Go(t), Go(t), Go(t)] + [Go(a)]) ==
            (seq(|jobs|, _ => Taken(0)))[t := Taken(3)][a := Taken(1)]
  {
    TransferLocksBothUsers(jobs, t);
    FirstLockIsFree(jobs, t, a);
    StartThenTake(jobs, [Go(t), Go(t), Go(t)], a);
  }

  lemma ChainIsFree(jobs: seq<Job>, t: nat, a: nat)
    requires t < |jobs| && a < |jobs| && jobs[t].Transfer? && jobs[a].TopUpApproval?
    ensures var s: State := (seq(|jobs|, _ => Taken(0)))[t := Taken(3)];
            Fits(jobs, s[a := Taken(1)]) && Act(jobs, s[a := Taken(1)], Go(a)) == s[a := Taken(2)]
  {
  }

  lemma TopUpTakesTheChain(jobs: seq<Job>, t: nat, a: nat)
    requires Proper(jobs) && t < |jobs| && a < |jobs| && jobs[t].Transfer? && jobs[a].TopUpApproval?
    ensures Schedule(jobs, [Go(t), Go(t), Go(t)] + [Go(a), Go(a)]) ==
            (seq(|jobs|, _ => Taken(0)))[t := Taken(3)][a := Taken(2)]
  {
    var before := [Go(t), Go(t), Go(t)] + [Go(a)];
    OtherTakesItsFirst(jobs, t, a);
    ChainIsFree(jobs, t, a);
    StartThenTake(jobs, before, a);
    assert before + [Go(a)] == [Go(t), Go(t), Go(t)] + [Go(a), Go(a)];
  }

  /** The state those moves lead to. */
  function Entangled(jobs: seq<Job>, t: nat, a: nat): State
    requires t < |jobs| && a < |jobs|
  {
    (seq(|jobs|, _ => Taken(0)))[t := Taken(3)][a := Taken(if jobs[a].Note? then 1 else 2)]
  }

  lemma EachHoldsTheOthers(jobs: seq<Job>, t: nat, a: nat)
    requires t < |jobs| && a < |jobs| && Shares(jobs[t], jobs[a])
    ensures Fits(jobs, Entangled(jobs, t, a)) && CircularWait(jobs, Entangled(jobs, t, a), {t, a})
  {
    var s := Entangled(jobs, t, a);
    assert HoldsLock(jobs, s, a, Wanted(jobs, s, t));
    assert HoldsLock(jobs, s, t, Wanted(jobs, s, a));
  }

  lemma SharedOwnerDeadlocks(jobs: seq<Job>, t: nat, a: nat)
    requires Proper(jobs) && t < |jobs| && a < |jobs| && Shares(jobs[t], jobs[a])
    ensures CircularWait(jobs, Schedule(jobs, [Go(t), Go(t), Go(t)] + ToTheChain(a, jobs[a])), {t, a})
  {
    if jobs[a].Note? {
      OtherTakesItsFirst(jobs, t, a);
    } else {
      TopUpTakesTheChain(jobs, t, a);
    }
    EachHoldsTheOthers(jobs, t, a);
  }

  // ----- the safe mixes

  function Ceiling(jobs: seq<Job>): (c: nat)
    ensures forall i :: 0 <= i < |jobs| && jobs[i].Transfer? ==> jobs[i].higher < c
  {
    if jobs == [] then 0
    else
      var c := Ceiling(jobs[..|jobs| - 1]);
      var last := jobs[|jobs| - 1];
      if last.Transfer? && c <= last.higher then last.higher + 1 else c
  }

  /** Owners of top-ups and notes rank above the audit chain, all other users below it. */
  ghost function Rank(jobs: seq<Job>, r: Lock): nat {
    match r
    case PendingRow(_) => 0
    case TopUpRow(_) => 0
    case AuditChain => Ceiling(jobs) + 1
    case UserRow(u) =>
      if exists j :: 0 <= j < |jobs| && !jobs[j].Transfer? && jobs[j].owner == u then Ceiling(jobs) + 2 + u else u + 1
  }

  lemma ProgramsAscend(jobs: seq<Job>, i: nat, a: nat, b: nat)
    requires Proper(jobs) && !OwnerTransacts(jobs) && i < |jobs| && a < b < Size(jobs[i])
    ensures Rank(jobs, Takes(jobs[i], a)) < Rank(jobs, Takes(jobs[i], b))
  {
    if jobs[i].Transfer? {
      forall j | 0 <= j < |jobs| && !jobs[j].Transfer?
        ensures jobs[j].owner != jobs[i].lower && jobs[j].owner != jobs[i].higher
      {
        assert !Shares(jobs[i], jobs[j]);
      }
    }
  }

  lemma {:induction false} HighestWanted(jobs: seq<Job>, s: State, among: set<nat>,
                          rank: Lock -> nat) returns (top: nat)
    requires Fits(jobs, s) && among != {} && forall i :: i in among ==> i < |jobs| && Waiting(jobs, s, i)
    ensures top in among
    ensures forall i :: i in among ==> rank(Wanted(jobs, s, i)) <= rank(Wanted(jobs, s, top))
    decreases |among|
  {
    var one :| one in among;
    if among == {one} {
      top := one;
    } else {
      var rest := HighestWanted(jobs, s, among - {one}, rank);
      top := if rank(Wanted(jobs, s, one)) <= rank(Wanted(jobs, s, rest)) then rest else one;
    }
  }

  /** Jobs that take their locks in ascending rank never wait in a circle. */
  lemma AscendingJobsAreSafe(jobs: seq<Job>, s: State, ring: set<nat>, rank: Lock -> nat)
    requires Fits(jobs, s)
    requires forall i, a, b :: 0 <= i < |jobs| && 0 <= a < b < Size(jobs[i]) ==>
               rank(Takes(jobs[i], a)) < rank(Takes(jobs[i], b))
    ensures !CircularWait(jobs, s, ring)
  {
    if ring != {} && forall i :: i in ring ==> i < |jobs| && Waiting(jobs, s, i) {
      var top := HighestWanted(jobs, s, ring, rank);
      var r := Wanted(jobs, s, top);
      forall holder | holder in ring ensures !HoldsLock(jobs, s, holder, r) {
      }
      assert !HeldWithin(jobs, s, top, ring);
    }
  }

  lemma DisjointOwnersAreSafe(jobs: seq<Job>, s: State, ring: set<nat>)
    requires Proper(jobs) && !OwnerTransacts(jobs) && Fits(jobs, s)
    ensures !CircularWait(jobs, s, ring)
  {
    forall i, a, b | 0 <= i < |jobs| && 0 <= a < b < Size(jobs[i])
      ensures Rank(jobs, Takes(jobs[i], a)) < Rank(jobs, Takes(jobs[i], b))
    {
      ProgramsAscend(jobs, i, a, b);
    }
    AscendingJobsAreSafe(jobs, s, ring, r => Rank(jobs, r));
  }

  ghost predicate CanDeadlock(jobs: seq<Job>) {
    exists moves, ring :: CircularWait(jobs, Schedule(jobs, moves), ring)
  }

  /**
   Some schedule of the jobs reaches a circular wait exactly when the owner of a top-up or a note is in
   a transfer.
   */
  lemma CircularWaitIffOwnerTransacts(jobs: seq<Job>)
    requires Proper(jobs)
    ensures CanDeadlock(jobs) <==> OwnerTransacts(jobs)
  {
    if OwnerTransacts(jobs) {
      var t, a :| 0 <= t < |jobs| && 0 <= a < |jobs| && Shares(jobs[t], jobs[a]);
      SharedOwnerDeadlocks(jobs, t, a);
      var moves, ring: set<nat> := [Go(t), Go(t), Go(t)] + ToTheChain(a, jobs[a]), {t, a};
      assert CircularWait(jobs, Schedule(jobs, moves), ring);
    } else {
      forall moves, ring ensures !CircularWait(jobs, Schedule(jobs, moves), ring) {
        DisjointOwnersAreSafe(jobs, Schedule(jobs, moves), ring);
      }
    }
  }
}
