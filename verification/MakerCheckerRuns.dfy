/**
 Two runs, from nothing, in which an admin action is recorded as failed although
 it had its effect: a completion retried after a crash, and an approval retried
 after the request it approved has lapsed.
 */
module MakerCheckerRuns {
  import opened Sums
  import opened MakerChecker

  lemma RunStep(events: seq<Event>, e: Event)
    ensures Run(events + [e]) == Next(Run(events), e)
  {
    assert (events + [e])[..|events|] == events;
  }

  const ROOTS: map<AdminId, Admin> := map[1 := Admin(true, true), 2 := Admin(true, true)]
  const SUBMITTED: Recovery := Recovery(Some(9), Submitted, 100, [], 0)
  const REVIEWED: Recovery := Recovery(Some(9), UnderReview, 100, [Reviewed(1, 0)], 0)
  const APPROVED: Recovery := Recovery(Some(9), Approved, 100, [Reviewed(1, 0), Decided(Approved, 1, 2, 0)], 0)
  const COMPLETED: Recovery := Recovery(
    Some(9), Completed, 100, [Reviewed(1, 0), Decided(Approved, 1, 2, 0), Decided(Completed, 1, 2, 0)], 1)

  /** The only recovery is number 0. */
  function At(r: Recovery, actions: map<ActionId, Action>, clock: int): State {
    State(ROOTS, map[0 := r], actions, 0, clock)
  }

  function Asked(aid: ActionId, op: Operation, effects: nat): Action {
    var c := Content(op, 0, 1, 0, ACTION_TTL);
    Action(c, Seal(0, aid, c), Pending, None, c, effects)
  }

  function Approval(aid: ActionId, crash: bool): Event {
    Approve(2, aid, true, true, true, crash)
  }

  lemma OneRecovery(r: Recovery, next: Recovery)
    ensures (map[0 := r])[0 := next] == map[0 := next]
  {
  }

  lemma TwoAdmins()
    ensures var two := [SetAdmin(1, Admin(true, true))] + [SetAdmin(2, Admin(true, true))];
            Run(two) == State(ROOTS, map[], map[], 0, 0)
  {
    var a, b := SetAdmin(1, Admin(true, true)), SetAdmin(2, Admin(true, true));
    assert [] + [a] == [a];
    RunStep([], a);
    RunStep([a], b);
  }

  lemma ReviewStep()
    ensures Next(At(SUBMITTED, map[], 0), StartReview(1, 0, true, true)) == At(REVIEWED, map[], 0)
  {
    OneRecovery(SUBMITTED, REVIEWED);
    assert SUBMITTED.trail + [Reviewed(1, 0)] == REVIEWED.trail;
  }

  function Start(): seq<Event> {
    [SetAdmin(1, Admin(true, true))] + [SetAdmin(2, Admin(true, true))] + [Submit(0, Some(9), 100)]
      + [StartReview(1, 0, true, true)]
  }

  /** Two root admins and a request under review. */
  lemma StartRun()
    ensures Run(Start()) == At(REVIEWED, map[], 0)
  {
    var two := [SetAdmin(1, Admin(true, true))] + [SetAdmin(2, Admin(true, true))];
    TwoAdmins();
    RunStep(two, Submit(0, Some(9), 100));
    RunStep(two + [Submit(0, Some(9), 100)], StartReview(1, 0, true, true));
    ReviewStep();
  }

  const WANT_APPROVAL: map<ActionId, Action> := map[0 := Asked(0, ApproveRecovery, 0)]

  lemma AskApproval()
    ensures Run(Start() + [Ask(1, 0, ApproveRecovery, 0, true, true)]) == At(REVIEWED, WANT_APPROVAL, 0)
  {
    StartRun();
    RunStep(Start(), Ask(1, 0, ApproveRecovery, 0, true, true));
  }

  lemma ApprovalEffect()
    ensures Effect(REVIEWED, Asked(0, ApproveRecovery, 0).content, 2, true, 0) == (APPROVED, true)
  {
    assert REVIEWED.trail + [Decided(Approved, 1, 2, 0)] == APPROVED.trail;
  }

  lemma CrashedApproval()
    ensures Next(At(REVIEWED, WANT_APPROVAL, 0), Approval(0, true)) ==
            At(APPROVED, map[0 := Asked(0, ApproveRecovery, 1)], 0)
  {
    ApprovalEffect();
    OneRecovery(REVIEWED, APPROVED);
    assert MayApprove(At(REVIEWED, WANT_APPROVAL, 0), Approval(0, true));
    assert WANT_APPROVAL[0 := Asked(0, ApproveRecovery, 1)] == map[0 := Asked(0, ApproveRecovery, 1)];
  }

  lemma LateRetry()
    ensures var s := Next(At(APPROVED, map[0 := Asked(0, ApproveRecovery, 1)], 100), Approval(0, false));
            && 0 in s.actions && FailedYetEffective(s.actions[0])
            && 0 in s.recoveries && s.recoveries[0].stage == Expired
  {
    assert MayApprove(At(APPROVED, map[0 := Asked(0, ApproveRecovery, 1)], 100), Approval(0, false));
  }

  /** The approval commits its effect and crashes, the request lapses, and the retry is recorded as failed. */
  lemma CrashedApprovalLapses()
    ensures var s := Run(Start() + [Ask(1, 0, ApproveRecovery, 0, true, true)] + [Approval(0, true)] + [Tick(100)]
                         + [Approval(0, false)]);
            && 0 in s.actions && FailedYetEffective(s.actions[0])
            && 0 in s.recoveries && s.recoveries[0].stage == Expired
  {
    var asked := Start() + [Ask(1, 0, ApproveRecovery, 0, true, true)];
    AskApproval();
    RunStep(asked, Approval(0, true));
    CrashedApproval();
    RunStep(asked + [Approval(0, true)], Tick(100));
    RunStep(asked + [Approval(0, true)] + [Tick(100)], Approval(0, false));
    LateRetry();
  }

  function Done(): Action {
    Asked(0, ApproveRecovery, 1).(status := Executed, approver := Some(2))
  }

  lemma CleanApproval()
    ensures Next(At(REVIEWED, WANT_APPROVAL, 0), Approval(0, false)) == At(APPROVED, map[0 := Done()], 0)
  {
    ApprovalEffect();
    OneRecovery(REVIEWED, APPROVED);
    assert MayApprove(At(REVIEWED, WANT_APPROVAL, 0), Approval(0, false));
    assert WANT_APPROVAL[0 := Asked(0, ApproveRecovery, 1)][0 := Done()] == map[0 := Done()];
  }

  function Both(effects: nat): map<ActionId, Action> {
    map[0 := Done(), 1 := Asked(1, CompleteRecovery, effects)]
  }

  lemma CrashedCompletion()
    ensures Next(At(APPROVED, Both(0), 0), Approval(1, true)) == At(COMPLETED, Both(1), 0)
  {
    assert APPROVED.trail + [Decided(Completed, 1, 2, 0)] == COMPLETED.trail;
    assert Effect(APPROVED, Asked(1, CompleteRecovery, 0).content, 2, true, 0) == (COMPLETED, true);
    OneRecovery(APPROVED, COMPLETED);
    assert MayApprove(At(APPROVED, Both(0), 0), Approval(1, true));
    assert Both(0)[1 := Asked(1, CompleteRecovery, 1)] == Both(1);
  }

  lemma SecondCompletion()
    ensures var s := Next(At(COMPLETED, Both(1), 0), Approval(1, false));
            && 1 in s.actions && FailedYetEffective(s.actions[1])
            && 0 in s.recoveries && s.recoveries[0].resets == 1
  {
    assert MayApprove(At(COMPLETED, Both(1), 0), Approval(1, false));
  }

  /** The completion resets the customer's MFA and crashes, and its retry is recorded as failed. */
  lemma CrashedCompletionReportsFailure()
    ensures var s := Run(Start() + [Ask(1, 0, ApproveRecovery, 0, true, true)] + [Approval(0, false)]
                         + [Ask(1, 1, CompleteRecovery, 0, true, true)] + [Approval(1, true)] + [Approval(1, false)]);
            && 1 in s.actions && FailedYetEffective(s.actions[1])
            && 0 in s.recoveries && s.recoveries[0].resets == 1
  {
    var asked := Start() + [Ask(1, 0, ApproveRecovery, 0, true, true)];
    AskApproval();
    RunStep(asked, Approval(0, false));
    CleanApproval();
    var second := asked + [Approval(0, false)];
    RunStep(second, Ask(1, 1, CompleteRecovery, 0, true, true));
    assert Next(At(APPROVED, map[0 := Done()], 0), Ask(1, 1, CompleteRecovery, 0, true, true)) ==
           At(APPROVED, Both(0), 0);
    RunStep(second + [Ask(1, 1, CompleteRecovery, 0, true, true)], Approval(1, true));
    CrashedCompletion();
    RunStep(second + [Ask(1, 1, CompleteRecovery, 0, true, true)] + [Approval(1, true)], Approval(1, false));
    SecondCompletion();
  }

  lemma AskAfterExpiry()
    ensures var s := Next(At(COMPLETED, Both(1), 100), Ask(1, 2, ApproveRecovery, 0, true, true));
            0 in s.recoveries && s.recoveries[0].stage == Expired && s.recoveries[0].resets == 1
  {
  }

  /** A completed request, asked about after its expiry, reads as expired. */
  lemma CompletedReadsExpired()
    ensures var s := Run(Start() + [Ask(1, 0, ApproveRecovery, 0, true, true)] + [Approval(0, false)]
                         + [Ask(1, 1, CompleteRecovery, 0, true, true)] + [Approval(1, true)]
                         + [Tick(100)] + [Ask(1, 2, ApproveRecovery, 0, true, true)]);
            0 in s.recoveries && s.recoveries[0].stage == Expired && s.recoveries[0].resets == 1
  {
    var asked := Start() + [Ask(1, 0, ApproveRecovery, 0, true, true)];
    AskApproval();
    RunStep(asked, Approval(0, false));
    CleanApproval();
    var second := asked + [Approval(0, false)];
    RunStep(second, Ask(1, 1, CompleteRecovery, 0, true, true));
    assert Next(At(APPROVED, map[0 := Done()], 0), Ask(1, 1, CompleteRecovery, 0, true, true)) ==
           At(APPROVED, Both(0), 0);
    var third := second + [Ask(1, 1, CompleteRecovery, 0, true, true)] + [Approval(1, true)];
    RunStep(second + [Ask(1, 1, CompleteRecovery, 0, true, true)], Approval(1, true));
    CrashedCompletion();
    RunStep(third, Tick(100));
    RunStep(third + [Tick(100)], Ask(1, 2, ApproveRecovery, 0, true, true));
    AskAfterExpiry();
  }
}
