/**
 When maker-checker calls take effect, said over the rows and the inputs alone, and
 that nothing an admin does takes effect without a right second factor.
 */
module ApprovalRules {
  import opened Sums
  import opened MakerChecker

  /** Known, root and active. */
  predicate Eligible(s: State, a: AdminId) {
    a in s.admins && s.admins[a].root && s.admins[a].active
  }

  /** The row still carries the seal of its own fields under the active key. */
  predicate Untouched(s: State, aid: ActionId)
    requires aid in s.actions
  {
    var a := s.actions[aid];
    a.seal.key == s.activeKey && a.seal.id == aid && a.seal.content == a.content
  }

  // ----- deciding on an action

  /** An approval runs the action exactly when. */
  predicate ApprovalRuns(s: State, actor: AdminId, aid: ActionId, totp: bool)
    requires aid in s.actions
  {
    var a := s.actions[aid];
    && a.status == Pending && s.clock < a.content.expiresAt && Untouched(s, aid)
    && Eligible(s, actor) && Eligible(s, a.content.requester) && actor != a.content.requester && totp
  }

  /** The step the action asks for succeeds exactly when. */
  predicate StepSucceeds(s: State, c: Content, fit: bool, separate: bool) {
    match c.op
    case OtherOperation(_) => fit
    case ApproveRecovery =>
      && separate && c.target in s.recoveries && s.clock < s.recoveries[c.target].expiresAt
      && (s.recoveries[c.target].stage == UnderReview || s.recoveries[c.target].stage == Approved)
    case DenyRecovery =>
      && separate && c.target in s.recoveries
      && ((s.clock < s.recoveries[c.target].expiresAt
           && (s.recoveries[c.target].stage == Submitted || s.recoveries[c.target].stage == UnderReview))
          || s.recoveries[c.target].stage == Denied)
    case CompleteRecovery =>
      && separate && c.target in s.recoveries && s.clock < s.recoveries[c.target].expiresAt
      && s.recoveries[c.target].stage == Approved && fit
  }

  /** What an approval makes of a pending action. */
  lemma ApproveAnswers(s: State, actor: AdminId, aid: ActionId, totp: bool, fit: bool, separate: bool)
    requires aid in s.actions && s.actions[aid].status == Pending
    ensures var a, after := s.actions[aid], Next(s, Approve(actor, aid, totp, fit, separate, false));
            && aid in after.actions
            && (after.actions[aid].status == TimedOut <==> Eligible(s, actor) && a.content.expiresAt <= s.clock)
            && (after.actions[aid].status == Executed <==>
                ApprovalRuns(s, actor, aid, totp) && StepSucceeds(s, a.content, fit, separate))
            && (after.actions[aid].status == ExecutionFailed <==>
                ApprovalRuns(s, actor, aid, totp) && !StepSucceeds(s, a.content, fit, separate))
            && (ApprovalRuns(s, actor, aid, totp) ==> after.actions[aid].approver == Some(actor))
  {
  }

  /** A rejection takes effect exactly for another active root admin than the requester, with a right code. */
  lemma RejectAnswers(s: State, actor: AdminId, aid: ActionId, totp: bool)
    requires aid in s.actions && s.actions[aid].status == Pending
    ensures var a, after := s.actions[aid], Next(s, Reject(actor, aid, totp));
            && aid in after.actions
            && (after.actions[aid].status == TimedOut <==> Eligible(s, actor) && a.content.expiresAt <= s.clock)
            && (after.actions[aid].status == Rejected <==>
                && Eligible(s, actor) && s.clock < a.content.expiresAt && Untouched(s, aid) && totp
                && actor != a.content.requester)
            && (after.actions[aid].status == Rejected ==> after.actions[aid].approver == Some(actor))
            && after.recoveries == s.recoveries
  {
  }

  /** A withdrawal takes effect exactly for the requester, still an active root admin, with a right code. */
  lemma WithdrawAnswers(s: State, actor: AdminId, aid: ActionId, totp: bool)
    requires aid in s.actions && s.actions[aid].status == Pending
    ensures var a, after := s.actions[aid], Next(s, Withdraw(actor, aid, totp));
            && aid in after.actions
            && (after.actions[aid].status == TimedOut <==> Eligible(s, actor) && a.content.expiresAt <= s.clock)
            && (after.actions[aid].status == Withdrawn <==>
                && Eligible(s, actor) && s.clock < a.content.expiresAt && Untouched(s, aid) && totp
                && actor == a.content.requester)
            && after.recoveries == s.recoveries
  {
  }

  /** The sweep times out exactly the pending actions past their expiry. */
  lemma SweepAnswers(s: State, aid: ActionId)
    requires aid in s.actions
    ensures var a, after := s.actions[aid], Next(s, SweepAction(aid));
            && aid in after.actions
            && after.actions[aid].status ==
               if a.status == Pending && a.content.expiresAt <= s.clock then TimedOut else a.status
  {
  }

  /** The sweep expires exactly the open requests past their expiry. */
  lemma SweepRecoveryAnswers(s: State, rid: RecoveryId)
    requires rid in s.recoveries
    ensures var r, after := s.recoveries[rid], Next(s, SweepRecovery(rid));
            if r.stage in {Submitted, UnderReview, Approved} && r.expiresAt <= s.clock
            then after == s.(recoveries := s.recoveries[rid :=
                               r.(stage := Expired, trail := r.trail + [Lapsed(s.clock)])])
            else after == s
  {
  }

  /** A crash after the inner commit leaves the request as the finished call would, the action as if not approved. */
  lemma CrashAnswers(s: State, actor: AdminId, aid: ActionId, totp: bool, fit: bool, separate: bool)
    requires aid in s.actions && ApprovalRuns(s, actor, aid, totp)
    ensures var crashed := Next(s, Approve(actor, aid, totp, fit, separate, true));
            var done := Next(s, Approve(actor, aid, totp, fit, separate, false));
            && crashed.recoveries == done.recoveries && aid in crashed.actions
            && crashed.actions[aid].status == Pending && crashed.actions[aid].approver == s.actions[aid].approver
            && crashed.actions[aid].content == s.actions[aid].content
            && crashed.actions[aid].seal == s.actions[aid].seal
  {
  }

  // ----- asking for an action, and reviewing

  predicate StageAllows(stage: Stage, op: Operation) {
    match op
    case ApproveRecovery => stage == UnderReview
    case DenyRecovery => stage == Submitted || stage == UnderReview
    case CompleteRecovery => stage == Approved
    case OtherOperation(_) => true
  }

  /** An action is created exactly when; it is pending, sealed, and expires a day later. */
  lemma AskAnswers(s: State, actor: AdminId, aid: ActionId, op: Operation, rid: RecoveryId, totp: bool, separate: bool)
    requires aid !in s.actions
    ensures var after := Next(s, Ask(actor, aid, op, rid, totp, separate));
            && (aid in after.actions <==>
                && Eligible(s, actor) && totp && rid in s.recoveries && StageAllows(s.recoveries[rid].stage, op)
                && (op.OtherOperation? || (separate && s.clock < s.recoveries[rid].expiresAt)))
            && (aid in after.actions ==>
                  && after.actions[aid].content == Content(op, rid, actor, s.clock, s.clock + 24 * 60 * 60)
                  && after.actions[aid].status == Pending && after.actions[aid].approver == None
                  && after.actions[aid].effects == 0 && Untouched(after, aid))
  {
  }

  /** A review starts exactly when. */
  lemma ReviewAnswers(s: State, actor: AdminId, rid: RecoveryId, totp: bool, separate: bool)
    requires rid in s.recoveries && s.recoveries[rid].stage != UnderReview
    ensures var r, after := s.recoveries[rid], Next(s, StartReview(actor, rid, totp, separate));
            && rid in after.recoveries
            && (after.recoveries[rid].stage == UnderReview <==>
                && actor in s.admins && s.admins[actor].root && totp && separate
                && r.stage == Submitted && s.clock < r.expiresAt)
  {
  }

  /** A request is submitted for a period. */
  lemma SubmitAnswers(s: State, rid: RecoveryId, customer: Option<CustomerId>, ttl: int)
    requires rid !in s.recoveries
    ensures var after := Next(s, Submit(rid, customer, ttl));
            rid in after.recoveries && after.recoveries[rid] == Recovery(customer, Submitted, s.clock + ttl, [], 0)
  {
  }

  /** The stage that carries a request forward. */
  function Onward(stage: Stage): Stage {
    match stage
    case Submitted => UnderReview
    case UnderReview => Approved
    case _ => Completed
  }

  /**
   A transition succeeds exactly when the stage stays the same, or a request that is open and not
   overdue moves onward, expires, is cancelled, or is denied before it was approved.
   */
  lemma TransitionAnswers(r: Recovery, next: Stage, now: int, mark: Mark)
    ensures var (after, done) := Transition(r, next, now, mark);
            var open := r.stage in {Submitted, UnderReview, Approved};
            var overdue := open && r.expiresAt <= now;
            && (done <==> !overdue && (next == r.stage || (open && (next in {Onward(r.stage), Expired, Cancelled}
                                                           || (next == Denied && r.stage != Approved)))))
            && after == if overdue then r.(stage := Expired, trail := r.trail + [Lapsed(now)])
                        else if done && next != r.stage then r.(stage := next, trail := r.trail + [mark])
                        else r
  {
  }

  /** What the step of an approved action does to its recovery, when it succeeds and changes something. */
  lemma StepEffect(s: State, actor: AdminId, aid: ActionId, fit: bool, separate: bool, crash: bool)
    requires aid in s.actions && ApprovalRuns(s, actor, aid, true)
    requires !s.actions[aid].content.op.OtherOperation? && StepSucceeds(s, s.actions[aid].content, fit, separate)
    ensures var c, after := s.actions[aid].content, Next(s, Approve(actor, aid, true, fit, separate, crash));
            var was, stage := s.recoveries[c.target], StageOf(c.op);
            && c.target in after.recoveries && after.recoveries[c.target].stage == stage
            && after.recoveries[c.target].resets == was.resets + (if c.op == CompleteRecovery then 1 else 0)
            && (was.stage != stage ==>
                  after.recoveries[c.target].trail == was.trail + [Decided(stage, c.requester, actor, s.clock)])
  {
  }

  // ----- the expiry sweep over recovery requests

  predicate IsDue(r: Recovery, identifier: nat, wanted: Option<nat>, now: int) {
    && r.stage in {Submitted, UnderReview, Approved} && r.expiresAt <= now
    && (wanted == None || wanted == Some(identifier))
  }

  function DuePositions(records: seq<Recovery>, identifiers: seq<nat>, wanted: Option<nat>, now: int): set<nat>
    requires |records| <= |identifiers|
  {
    set i: nat | i < |records| && IsDue(records[i], identifiers[i], wanted, now)
  }

  lemma {:induction false} DueCounts(records: seq<Recovery>, identifiers: seq<nat>, wanted: Option<nat>, now: int)
    requires |records| <= |identifiers|
    ensures DueCount(records, identifiers, wanted, now) == |DuePositions(records, identifiers, wanted, now)|
  {
    if records != [] {
      var last := |records| - 1;
      DueCounts(records[..last], identifiers, wanted, now);
      var before := DuePositions(records[..last], identifiers, wanted, now);
      var all := DuePositions(records, identifiers, wanted, now);
      assert all == if IsDue(records[last], identifiers[last], wanted, now) then before + {last} else before;
    }
  }

  /** A record is swept exactly when it is due and fewer due ones precede it than the limit, which is at least one. */
  lemma SweptIff(records: seq<Recovery>, identifiers: seq<nat>, wanted: Option<nat>, limit: Option<int>, now: int,
                 i: nat)
    requires i < |records| == |identifiers|
    ensures Swept(records, identifiers, wanted, limit, now, i) <==>
            && IsDue(records[i], identifiers[i], wanted, now)
            && (limit.Some? ==>
                  |DuePositions(records[..i], identifiers, wanted, now)| < if limit.value < 1 then 1 else limit.value)
  {
    DueCounts(records[..i], identifiers, wanted, now);
  }

  // ----- nothing without a code

  /**
   In every run, an event that changes an action's status, other than timing it out, is an
   approval, rejection or withdrawal of it by an active root admin with a right code.
   */
  lemma DecisionsCarryACode(events: seq<Event>, e: Event, aid: ActionId)
    requires var s := Run(events);
             aid in s.actions && aid in Next(s, e).actions && Next(s, e).actions[aid].status != s.actions[aid].status
    ensures var s := Run(events);
            || Next(s, e).actions[aid].status == TimedOut
            || ((e.Approve? || e.Reject? || e.Withdraw?) && e.aid == aid && e.totp && Eligible(s, e.actor))
  {
  }

  /** The decision an event takes on an action: by whom, and with which result. */
  predicate Decides(s: State, e: Event, aid: ActionId, status: Status) {
    && (e.Approve? || e.Reject? || e.Withdraw?) && e.aid == aid && e.totp && Eligible(s, e.actor)
    && aid in s.actions && s.actions[aid].status == Pending && Untouched(s, aid)
    && (e.Withdraw? <==> e.actor == s.actions[aid].content.requester)
    && (status == Executed || status == ExecutionFailed <==> e.Approve?)
    && (status == Rejected <==> e.Reject?) && (status == Withdrawn <==> e.Withdraw?)
  }

  lemma StepDecides(s: State, e: Event, aid: ActionId)
    requires aid in Next(s, e).actions && Next(s, e).actions[aid].status !in {Pending, TimedOut}
    ensures || (aid in s.actions && s.actions[aid].status == Next(s, e).actions[aid].status)
            || Decides(s, e, aid, Next(s, e).actions[aid].status)
  {
  }

  /**
   In every run, an action that is executed, failed, rejected or withdrawn was so decided by one
   event of the run: an active root admin's, with a right code, on the row as it was sealed; by
   the requester exactly if withdrawn.
   */
  lemma {:induction false} DecisionBehind(events: seq<Event>, aid: ActionId) returns (k: nat)
    requires aid in Run(events).actions && Run(events).actions[aid].status !in {Pending, TimedOut}
    ensures k < |events| && Decides(Run(events[..k]), events[k], aid, Run(events).actions[aid].status)
  {
    var last := |events| - 1;
    var s := Run(events[..last]);
    StepDecides(s, events[last], aid);
    if aid in s.actions && s.actions[aid].status == Run(events).actions[aid].status {
      k := DecisionBehind(events[..last], aid);
      assert events[..last][..k] == events[..k];
    } else {
      k := last;
    }
  }

  /**
   In every run, an event that changes a recovery's stage is the expiry sweep or a root
   admin's call with a right code.
   */
  lemma StageChangesCarryACode(events: seq<Event>, e: Event, rid: RecoveryId)
    requires var s := Run(events);
             rid in s.recoveries && rid in Next(s, e).recoveries && Next(s, e).recoveries[rid] != s.recoveries[rid]
    ensures var s := Run(events);
            || (e.SweepRecovery? && e.rid == rid && s.recoveries[rid].expiresAt <= s.clock)
            || ((e.StartReview? || e.Ask? || e.Approve?) && e.totp && e.actor in s.admins && s.admins[e.actor].root)
  {
  }
}
