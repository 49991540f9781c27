/**
 Freezing, locking and releasing one customer account. The automatic lock and
 the approved unlock write the account in one commit; the staff freeze, the
 staff unfreeze and the customer's own freeze check the row, lose it when TOTP
 verification commits, and write later.
 */
module AccountLocks {
  import opened Sums

  datatype Reason = PasswordFailures | MfaFailures | PasswordChangeFailures | StaffFraudFreeze

  datatype Account = Account(frozen: bool, lockedAt: Option<int>, reason: Option<Reason>)

  predicate CanAct(a: Account) {
    !a.frozen && a.lockedAt.None?
  }

  predicate Reviewable(r: Option<Reason>) {
    r.Some? && r.value != PasswordChangeFailures
  }

  /** Staff may release a freeze that has no lock reason. */
  predicate InStaffQueue(a: Account) {
    a.frozen && a.reason.None?
  }

  /** Root admins may review a frozen account with a lock time and a reviewable reason. */
  predicate InRootQueue(a: Account) {
    a.frozen && a.lockedAt.Some? && Reviewable(a.reason)
  }

  /** Lock time and lock reason are both set or both empty. */
  predicate Paired(a: Account) {
    a.lockedAt.Some? <==> a.reason.Some?
  }

  function LockedAccount(r: Reason, now: int): Account {
    Account(true, Some(now), Some(r))
  }

  /** The customer row as one uninterrupted call at a time updates it. */
  class CustomerAccount {
    var frozen: bool
    var lockedAt: Option<int>
    var reason: Option<Reason>

    function Stored(): Account
      reads this
    {
      Account(frozen, lockedAt, reason)
    }

    constructor ()
      ensures Stored() == Account(false, None, None)
    {
      frozen, lockedAt, reason := false, None, None;
    }

    method LockUserAccount(r: Reason, now: int)
      modifies this
      ensures Stored() == LockedAccount(r, now)
    {
      frozen := true;
      lockedAt := Some(now);
      reason := Some(r);
    }

    method FreezeOwnAccount(totp: bool) returns (ok: bool)
      modifies this`frozen
      ensures ok <==> old(CanAct(Stored())) && totp
      ensures Stored() == old(Stored()).(frozen := old(frozen) || ok)
      ensures ok && old(Paired(Stored())) ==> InStaffQueue(Stored())
    {
      if frozen || lockedAt.Some? || !totp {
        return false;
      }
      frozen := true;
      return true;
    }

    /** `eligible`: an active account of a customer. */
    method FreezeAsStaff(eligible: bool, totp: bool, now: int) returns (ok: bool)
      modifies this
      ensures ok <==> eligible && !old(frozen) && totp
      ensures Stored() == if ok then LockedAccount(StaffFraudFreeze, now) else old(Stored())
      ensures ok ==> InRootQueue(Stored())
    {
      if !eligible || frozen || !totp {
        return false;
      }
      LockUserAccount(StaffFraudFreeze, now);
      return true;
    }

    method UnfreezeAsStaff(totp: bool) returns (ok: bool)
      modifies this`frozen
      ensures ok <==> old(InStaffQueue(Stored())) && totp
      ensures Stored() == old(Stored()).(frozen := old(frozen) && !ok)
      ensures ok && old(Paired(Stored())) ==> CanAct(Stored())
    {
      if !frozen || reason.Some? || !totp {
        return false;
      }
      frozen := false;
      return true;
    }

    /** Releases the lock only if it is the one the request was made for. */
    method ExecuteSecurityUnlock(expectedReason: Option<Reason>, expectedLockedAt: Option<int>) returns (ok: bool)
      modifies this
      ensures ok <==> old(InRootQueue(Stored())) && old(reason) == expectedReason && old(lockedAt) == expectedLockedAt
      ensures Stored() == if ok then Account(false, None, None) else old(Stored())
    {
      if !frozen || lockedAt.None? || !Reviewable(reason) {
        return false;
      }
      if reason != expectedReason || lockedAt != expectedLockedAt {
        return false;
      }
      frozen := false;
      lockedAt := None;
      reason := None;
      return true;
    }
  }

  /** An unlock request remembers the lock it was made for; `lock` numbers that lock among all locks. */
  datatype Request = Request(reason: Option<Reason>, lockedAt: Option<int>, lock: nat)

  /** A write that has passed its check and its TOTP step but is not committed yet. */
  datatype Late = OwnFreeze | StaffFreeze | StaffUnfreeze

  /** `stamps` lists the times of all locks so far, in the order of their commits. */
  datatype State = State(account: Account, late: seq<Late>, requests: seq<Request>, clock: int, stamps: seq<int>)

  datatype Event =
    | Tick(elapsed: nat)
    | AutoLock(reason: Reason, at: int)
    | Check(write: Late)
    | WriteLate(i: nat, at: int)
    | RequestUnlock
    | ExecuteUnlock(i: nat)

  predicate Admits(a: Account, w: Late) {
    match w
    case OwnFreeze => CanAct(a)
    case StaffFreeze => !a.frozen
    case StaffUnfreeze => InStaffQueue(a)
  }

  /** A lock takes its time before it commits, and no two locks take the same one. */
  predicate StampFresh(s: State, at: int) {
    at <= s.clock && at !in s.stamps
  }

  function Lock(s: State, r: Reason, at: int): State {
    s.(account := LockedAccount(r, at), stamps := s.stamps + [at])
  }

  function Written(s: State, w: Late, at: int): State {
    match w
    case OwnFreeze => s.(account := s.account.(frozen := true))
    case StaffFreeze => if StampFresh(s, at) then Lock(s, StaffFraudFreeze, at) else s
    case StaffUnfreeze => s.(account := s.account.(frozen := false))
  }

  predicate MatchesRequest(a: Account, r: Request) {
    InRootQueue(a) && a.reason == r.reason && a.lockedAt == r.lockedAt
  }

  function Next(s: State, e: Event): State {
    match e
    case Tick(elapsed) => s.(clock := s.clock + elapsed)
    case AutoLock(r, at) => if r != StaffFraudFreeze && StampFresh(s, at) then Lock(s, r, at) else s
    case Check(w) => if Admits(s.account, w) then s.(late := s.late + [w]) else s
    case WriteLate(i, at) =>
      if i < |s.late| then Written(s, s.late[i], at).(late := s.late[..i] + s.late[i + 1..]) else s
    case RequestUnlock =>
      if InRootQueue(s.account) && s.stamps != []
      then s.(requests := s.requests + [Request(s.account.reason, s.account.lockedAt, |s.stamps| - 1)]) else s
    case ExecuteUnlock(i) =>
      if i < |s.requests| && MatchesRequest(s.account, s.requests[i])
      then s.(account := Account(false, None, None)) else s
  }

  const FRESH := State(Account(false, None, None), [], [], 0, [])

  function Run(events: seq<Event>): State {
    if events == [] then FRESH else Next(Run(events[..|events| - 1]), events[|events| - 1])
  }

  // ----- what always holds

  ghost predicate StampsDiffer(stamps: seq<int>) {
    forall i, j :: 0 <= i < j < |stamps| ==> stamps[i] != stamps[j]
  }

  predicate LockIsLatest(a: Account, stamps: seq<int>) {
    Paired(a) && (a.lockedAt.Some? ==> stamps != [] && a.lockedAt.value == stamps[|stamps| - 1])
  }

  predicate NamesItsLock(r: Request, stamps: seq<int>) {
    r.lock < |stamps| && r.lockedAt == Some(stamps[r.lock])
  }

  ghost predicate RequestsNameLocks(requests: seq<Request>, stamps: seq<int>) {
    forall i :: 0 <= i < |requests| ==> NamesItsLock(requests[i], stamps)
  }

  ghost predicate Inv(s: State) {
    StampsDiffer(s.stamps) && LockIsLatest(s.account, s.stamps) && RequestsNameLocks(s.requests, s.stamps)
  }

  /** Only a lock adds a stamp, and it becomes the account's lock time. */
  lemma NextStamps(s: State, e: Event)
    requires StampsDiffer(s.stamps) && LockIsLatest(s.account, s.stamps)
    ensures StampsDiffer(Next(s, e).stamps) && LockIsLatest(Next(s, e).account, Next(s, e).stamps)
    ensures s.stamps <= Next(s, e).stamps
  {
  }

  lemma NextRequests(s: State, e: Event)
    requires Inv(s) && s.stamps <= Next(s, e).stamps
    ensures RequestsNameLocks(Next(s, e).requests, Next(s, e).stamps)
  {
    var after := Next(s, e);
    forall i | 0 <= i < |after.requests| ensures NamesItsLock(after.requests[i], after.stamps) {
      assert i < |s.requests| ==> after.requests[i] == s.requests[i] && NamesItsLock(s.requests[i], s.stamps);
    }
  }

  lemma {:induction false} RunKeepsInv(events: seq<Event>)
    ensures Inv(Run(events))
  {
    if events != [] {
      RunKeepsInv(events[..|events| - 1]);
      NextStamps(Run(events[..|events| - 1]), events[|events| - 1]);
      NextRequests(Run(events[..|events| - 1]), events[|events| - 1]);
    }
  }

  /** An executed unlock clears the very lock it was requested for, and leaves an account that can act. */
  lemma UnlockClearsItsOwnLock(events: seq<Event>, i: nat)
    requires var s := Run(events); i < |s.requests| && MatchesRequest(s.account, s.requests[i])
    ensures var s := Run(events);
            && s.requests[i].lock == |s.stamps| - 1
            && CanAct(Next(s, ExecuteUnlock(i)).account)
  {
    RunKeepsInv(events);
  }

  // ----- a reason implies frozen, up to one race

  predicate ReasonMeansFrozen(a: Account) {
    a.reason.Some? ==> a.frozen
  }

  /** A staff unfreeze about to be written although the account has been locked since its check. */
  predicate Overtaken(s: State, e: Event) {
    e.WriteLate? && e.i < |s.late| && s.late[e.i] == StaffUnfreeze && s.account.reason.Some?
  }

  /** Exactly the overtaken unfreeze breaks "a reason means frozen"; no other event ever does. */
  lemma KeptUnlessOvertaken(events: seq<Event>, e: Event)
    requires ReasonMeansFrozen(Run(events).account)
    ensures ReasonMeansFrozen(Next(Run(events), e).account) <==> !Overtaken(Run(events), e)
  {
    RunKeepsInv(events);
  }

  lemma {:induction false} KeptInRunsWithoutRace(events: seq<Event>)
    requires forall n :: 0 <= n < |events| ==> !Overtaken(Run(events[..n]), events[n])
    ensures ReasonMeansFrozen(Run(events).account)
  {
    if events != [] {
      var before := events[..|events| - 1];
      forall n | 0 <= n < |before| ensures !Overtaken(Run(before[..n]), before[n]) {
        assert before[..n] == events[..n];
      }
      KeptInRunsWithoutRace(before);
      KeptUnlessOvertaken(before, events[|events| - 1]);
    }
  }

  /** The race is reachable, and leaves an account that cannot act and is in neither release queue. */
  lemma RaceStrandsTheAccount() returns (events: seq<Event>)
    ensures var a := Run(events).account; !CanAct(a) && !InStaffQueue(a) && !InRootQueue(a)
  {
    events := [Check(OwnFreeze), WriteLate(0, 0), Check(StaffUnfreeze), AutoLock(MfaFailures, 0), WriteLate(0, 0)];
    assert Run(events[..0]) == FRESH;
    assert Run(events[..1]) == FRESH.(late := [OwnFreeze]) by { assert events[..1][..0] == events[..0]; }
    var frozen := Account(true, None, None);
    assert Run(events[..2]) == FRESH.(account := frozen) by { assert events[..2][..1] == events[..1]; }
    assert Run(events[..3]) ==
           FRESH.(account := frozen, late := [StaffUnfreeze]) by { assert events[..3][..2] == events[..2]; }
    assert Run(events[..4]).account == Account(true, Some(0), Some(MfaFailures))
           && Run(events[..4]).late == [StaffUnfreeze] by {
      assert events[..4][..3] == events[..3];
    }
    assert events[..5][..4] == events[..4] && events[..5] == events;
  }

  /** A lock reason on an account that is not frozen. */
  predicate Unfrozen(a: Account) {
    a.reason.Some? && !a.frozen
  }

  /**
   In every run the two release queues are disjoint, and an account that cannot act
   is in neither exactly when it was locked for failed password changes or an
   overtaken unfreeze has left it unfrozen.
   */
  lemma QueuesPartitionBlockedAccounts(events: seq<Event>)
    ensures var a := Run(events).account;
            && !(InStaffQueue(a) && InRootQueue(a))
            && (InStaffQueue(a) || InRootQueue(a) ==> !CanAct(a))
            && (!CanAct(a) && !InStaffQueue(a) && !InRootQueue(a) <==>
                a.reason == Some(PasswordChangeFailures) || Unfrozen(a))
  {
    RunKeepsInv(events);
  }

  /** A staff release written with no lock in between leaves an account that can act. */
  lemma UnfreezeReleases(events: seq<Event>, i: nat, at: int)
    requires var s := Run(events); i < |s.late| && s.late[i] == StaffUnfreeze && s.account.reason.None?
    ensures CanAct(Next(Run(events), WriteLate(i, at)).account)
  {
    RunKeepsInv(events);
  }

  // ----- when each event takes effect

  /** An own freeze needs an account that can act, a staff freeze one not frozen, a staff release a plain freeze. */
  lemma CheckAnswers(s: State, w: Late)
    ensures Next(s, Check(w)) ==
            var a := s.account;
            var passes := match w
              case OwnFreeze => !a.frozen && a.lockedAt == None
              case StaffFreeze => !a.frozen
              case StaffUnfreeze => a.frozen && a.reason == None;
            if passes then s.(late := s.late + [w]) else s
  {
  }

  lemma WriteAnswers(s: State, i: nat, at: int)
    requires i < |s.late|
    ensures Next(s, WriteLate(i, at)).account ==
            match s.late[i]
            case OwnFreeze => Account(true, s.account.lockedAt, s.account.reason)
            case StaffFreeze =>
              if at <= s.clock && at !in s.stamps then Account(true, Some(at), Some(StaffFraudFreeze)) else s.account
            case StaffUnfreeze => Account(false, s.account.lockedAt, s.account.reason)
  {
  }

  lemma LockAnswers(s: State, r: Reason, at: int)
    ensures Next(s, AutoLock(r, at)).account ==
            if r != StaffFraudFreeze && at <= s.clock && at !in s.stamps then Account(true, Some(at), Some(r))
            else s.account
  {
  }

  /** An unlock can be requested, and is executed, exactly for a frozen account locked for a reviewable reason. */
  lemma UnlockAnswers(s: State, i: nat)
    ensures var a := s.account;
            var listed := && a.frozen && a.lockedAt.Some?
                          && (a.reason == Some(PasswordFailures) || a.reason == Some(MfaFailures)
                              || a.reason == Some(StaffFraudFreeze));
            && Next(s, RequestUnlock).requests ==
               (if listed && s.stamps != [] then s.requests + [Request(a.reason, a.lockedAt, |s.stamps| - 1)]
                else s.requests)
            && Next(s, ExecuteUnlock(i)).account ==
               if i < |s.requests| && listed && s.requests[i].reason == a.reason && s.requests[i].lockedAt == a.lockedAt
               then Account(false, None, None) else a
  {
  }
}
