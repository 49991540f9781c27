/**
 Maker-checker admin actions over manual recovery requests. Approving an action
 runs the recovery step, which commits on its own, and then marks the action
 executed in a second commit; a crash can fall between the two. Rows may also be
 edited behind the service's back: every action carries a keyed seal over its
 fields, and the editor can only reuse seals that exist.
 */
module MakerChecker {
  import opened Sums

  type AdminId = nat
  type CustomerId = nat
  type RecoveryId = nat
  type ActionId = nat
  type Key = nat

  const ACTION_TTL := 86400

  // ----- manual recovery requests

  datatype Stage = Submitted | UnderReview | Approved | Denied | Expired | Cancelled | Completed

  predicate Open(s: Stage) {
    s == Submitted || s == UnderReview || s == Approved
  }

  predicate MayFollow(was: Stage, next: Stage) {
    match was
    case Submitted => next == UnderReview || next == Denied || next == Expired || next == Cancelled
    case UnderReview => next == Approved || next == Denied || next == Expired || next == Cancelled
    case Approved => next == Completed || next == Expired || next == Cancelled
    case _ => false
  }

  /** Who brought about a change of stage, and when. */
  datatype Mark =
    | Reviewed(reviewer: AdminId, at: int)
    | Decided(stage: Stage, requester: AdminId, approver: AdminId, at: int)
    | Lapsed(at: int)

  /** `trail` is the history of committed changes; `resets` counts MFA resets made for this request. */
  datatype Recovery = Recovery(customer: Option<CustomerId>, stage: Stage, expiresAt: int, trail: seq<Mark>,
                          resets: nat)

  function Lapse(r: Recovery, now: int): Recovery {
    r.(stage := Expired, trail := r.trail + [Lapsed(now)])
  }

  predicate Stale(r: Recovery, now: int) {
    Open(r.stage) && r.expiresAt <= now
  }

  /** The transition call: a stale request lapses, an unchanged stage succeeds without a change. */
  function Transition(r: Recovery, next: Stage, now: int, mark: Mark): (Recovery, bool) {
    if Stale(r, now) then (Lapse(r, now), false)
    else if next == r.stage then (r, true)
    else if !MayFollow(r.stage, next) then (r, false)
    else (r.(stage := next, trail := r.trail + [mark]), true)
  }

  function Complete(r: Recovery, customerFit: bool, now: int, mark: Mark): (Recovery, bool) {
    if Stale(r, now) then (Lapse(r, now), false)
    else if r.stage != Approved || !customerFit then (r, false)
    else (r.(stage := Completed, trail := r.trail + [mark], resets := r.resets + 1), true)
  }

  /** The recovery record as the service updates it in place. */
  class RecoveryRecord {
    var record: Recovery

    constructor (r: Recovery)
      ensures record == r
    {
      record := r;
    }

    method ExpireIfStale(now: int) returns (expired: bool)
      modifies this
      ensures expired == old(Stale(record, now))
      ensures record == if expired then Lapse(old(record), now) else old(record)
    {
      if !Open(record.stage) {
        return false;
      }
      if record.expiresAt > now {
        return false;
      }
      record := record.(stage := Expired);
      record := record.(trail := record.trail + [Lapsed(now)]);
      return true;
    }

    method TransitionTo(next: Stage, now: int, mark: Mark) returns (ok: bool)
      modifies this
      ensures (record, ok) == Transition(old(record), next, now, mark)
    {
      var expired := ExpireIfStale(now);
      if expired {
        return false;
      }
      if next == record.stage {
        return true;
      }
      if !MayFollow(record.stage, next) {
        return false;
      }
      record := record.(stage := next);
      record := record.(trail := record.trail + [mark]);
      return true;
    }

    method CompleteRequest(customerFit: bool, now: int, mark: Mark) returns (ok: bool)
      modifies this
      ensures (record, ok) == Complete(old(record), customerFit, now, mark)
    {
      var expired := ExpireIfStale(now);
      if expired || record.stage != Approved || !customerFit {
        return false;
      }
      record := record.(resets := record.resets + 1);
      record := record.(stage := Completed, trail := record.trail + [mark]);
      return true;
    }
  }

  /** A stale record that the optional filter by identifier lets through. */
  predicate Due(r: Recovery, identifier: nat, wanted: Option<nat>, now: int) {
    Stale(r, now) && (wanted.None? || wanted.value == identifier)
  }

  function DueCount(records: seq<Recovery>, identifiers: seq<nat>, wanted: Option<nat>, now: int): nat
    requires |records| <= |identifiers|
  {
    if records == [] then 0
    else
      var last := |records| - 1;
      DueCount(records[..last], identifiers, wanted, now) + if Due(records[last], identifiers[last], wanted, now)
        then 1 else 0
  }

  /** A batch limit below one counts as one. */
  predicate WithinLimit(n: nat, limit: Option<int>) {
    limit.None? || n < limit.value || n < 1
  }

  /** The record at i is expired by a sweep over these records. */
  predicate Swept(records: seq<Recovery>, identifiers: seq<nat>, wanted: Option<nat>, limit: Option<int>, now: int,
                  i: nat)
    requires i < |records| == |identifiers|
  {
    && Due(records[i], identifiers[i], wanted, now)
    && WithinLimit(DueCount(records[..i], identifiers, wanted, now), limit)
  }

  /**
   The expiry sweep over the records in the order of the query: exactly the due
   ones within the limit lapse, the others are untouched, and they are counted.
   */
  method ExpireRequests(records: array<Recovery>, identifiers: seq<nat>, wanted: Option<nat>, limit: Option<int>,
                        now: int)
    returns (count: nat)
    requires |identifiers| == records.Length
    modifies records
    ensures forall i :: 0 <= i < records.Length ==>
              records[i] == if Swept(old(records[..]), identifiers, wanted, limit, now, i)
                            then Lapse(old(records[i]), now) else old(records[i])
    ensures var due := DueCount(old(records[..]), identifiers, wanted, now);
            count == if limit.None? || due <= limit.value || due <= 1 then due else if limit.value < 1 then 1
              else limit.value
  {
    count := 0;
    ghost var was := records[..];
    for n := 0 to records.Length
      invariant forall i :: n <= i < records.Length ==> records[i] == was[i]
      invariant forall i :: 0 <= i < n ==>
                  records[i] == if Swept(was, identifiers, wanted, limit, now, i) then Lapse(was[i], now) else was[i]
      invariant var due := DueCount(was[..n], identifiers, wanted, now);
                count == if limit.None? || due <= limit.value || due <= 1 then due else if limit.value < 1 then 1
                  else limit.value
    {
      assert was[..n + 1][..n] == was[..n];
      if Due(records[n], identifiers[n], wanted, now) && WithinLimit(count, limit) {
        records[n] := Lapse(records[n], now);
        count := count + 1;
      }
    }
    assert was[..records.Length] == was;
  }

  // ----- admin actions

  datatype Operation = ApproveRecovery | DenyRecovery | CompleteRecovery | OtherOperation(kind: nat)

  datatype Content = Content(op: Operation, target: RecoveryId, requester: AdminId, createdAt: int, expiresAt: int)

  /** HMAC over a row's id and fields under a key. */
  datatype Seal = Seal(key: Key, id: ActionId, content: Content)

  datatype Status = Pending | Executed | Rejected | Withdrawn | TimedOut | ExecutionFailed

  /**
   `original` is what was created and `effects` how often the action changed its target; both only for
   stating results.
   */
  datatype Action = Action(
    content: Content, seal: Seal, status: Status, approver: Option<AdminId>, original: Content, effects: nat)

  datatype Admin = Admin(root: bool, active: bool)

  datatype State = State(
    admins: map<AdminId, Admin>, recoveries: map<RecoveryId, Recovery>, actions: map<ActionId, Action>,
    activeKey: Key, clock: int)

  /** `separate`: the acting admin is not linked to the customer as a person. */
  datatype Event =
    | Tick(elapsed: nat)
    | SetAdmin(id: AdminId, admin: Admin)
    | Rotate(key: Key)
    | Submit(rid: RecoveryId, customer: Option<CustomerId>, ttl: int)
    | StartReview(actor: AdminId, rid: RecoveryId, totp: bool, separate: bool)
    | Ask(actor: AdminId, aid: ActionId, op: Operation, rid: RecoveryId, totp: bool, separate: bool)
    | Approve(actor: AdminId, aid: ActionId, totp: bool, fit: bool, separate: bool, crash: bool)
    | Reject(actor: AdminId, aid: ActionId, totp: bool)
    | Withdraw(actor: AdminId, aid: ActionId, totp: bool)
    | SweepAction(aid: ActionId)
    | SweepRecovery(rid: RecoveryId)
    | Edit(aid: ActionId, content: Content, sealFrom: ActionId)

  predicate IsRoot(s: State, a: AdminId) {
    a in s.admins && s.admins[a].root
  }

  predicate ActiveRoot(s: State, a: AdminId) {
    IsRoot(s, a) && s.admins[a].active
  }

  function StageOf(op: Operation): Stage {
    match op
    case ApproveRecovery => Approved
    case DenyRecovery => Denied
    case _ => Completed
  }

  /** The check made when an action is requested; it also lapses any overdue request, even a settled one. */
  predicate MayAsk(r: Recovery, op: Operation) {
    match op
    case ApproveRecovery => r.stage == UnderReview
    case DenyRecovery => r.stage == Submitted || r.stage == UnderReview
    case CompleteRecovery => r.stage == Approved
    case OtherOperation(_) => true
  }

  predicate SealHolds(s: State, aid: ActionId)
    requires aid in s.actions
  {
    s.actions[aid].seal == Seal(s.activeKey, aid, s.actions[aid].content)
  }

  /** All the conditions an approval must meet before anything is executed. */
  predicate MayApprove(s: State, e: Event) {
    && e.Approve? && e.aid in s.actions && ActiveRoot(s, e.actor)
    && var a := s.actions[e.aid];
    && a.status == Pending && s.clock < a.content.expiresAt && SealHolds(s, e.aid)
    && ActiveRoot(s, a.content.requester) && a.content.requester != e.actor && e.totp
  }

  /** The recovery step that an approved action runs, and whether it reported success. */
  function Effect(r: Recovery, c: Content, actor: AdminId, fit: bool, now: int): (Recovery, bool) {
    var mark := Decided(StageOf(c.op), c.requester, actor, now);
    if c.op == CompleteRecovery then Complete(r, fit, now, mark) else Transition(r, StageOf(c.op), now, mark)
  }

  function Finish(s: State, aid: ActionId, status: Status, approver: Option<AdminId>): State
    requires aid in s.actions
  {
    s.(actions := s.actions[aid := s.actions[aid].(status := status, approver := approver)])
  }

  function Count(s: State, aid: ActionId): State
    requires aid in s.actions
  {
    s.(actions := s.actions[aid := s.actions[aid].(effects := s.actions[aid].effects + 1)])
  }

  /** Inner commit, then the outer commit unless the process dies first. */
  function Execute(s: State, e: Event): State
    requires MayApprove(s, e)
  {
    var c := s.actions[e.aid].content;
    if c.op.OtherOperation? then
      if e.crash then s
      else if !e.fit then Finish(s, e.aid, ExecutionFailed, Some(e.actor))
      else Finish(Count(s, e.aid), e.aid, Executed, Some(e.actor))
    else if !e.separate || c.target !in s.recoveries then
      if e.crash then s else Finish(s, e.aid, ExecutionFailed, Some(e.actor))
    else
      var (r, ok) := Effect(s.recoveries[c.target], c, e.actor, e.fit, s.clock);
      var inner := s.(recoveries := s.recoveries[c.target := r]);
      var counted := if ok && r != s.recoveries[c.target] then Count(inner, e.aid) else inner;
      if e.crash then counted
      else Finish(counted, e.aid, if ok then Executed else ExecutionFailed, Some(e.actor))
  }

  predicate Overdue(s: State, aid: ActionId)
    requires aid in s.actions
  {
    s.actions[aid].status == Pending && s.actions[aid].content.expiresAt <= s.clock
  }

  predicate MayDecide(s: State, actor: AdminId, aid: ActionId, totp: bool) {
    aid in s.actions && ActiveRoot(s, actor) && s.actions[aid].status == Pending && SealHolds(s, aid) && totp
  }

  function Next(s: State, e: Event): State {
    match e
    case Tick(elapsed) => s.(clock := s.clock + elapsed)
    case SetAdmin(id, admin) => s.(admins := s.admins[id := admin])
    case Rotate(key) => s.(activeKey := key)
    case Submit(rid, customer, ttl) =>
      if rid in s.recoveries then s
      else s.(recoveries := s.recoveries[rid := Recovery(customer, Submitted, s.clock + ttl, [], 0)])
    case StartReview(actor, rid, totp, separate) =>
      if !IsRoot(s, actor) || !totp || !separate || rid !in s.recoveries then s
      else s.(recoveries := s.recoveries[rid := Transition(s.recoveries[rid], UnderReview, s.clock,
        Reviewed(actor, s.clock)).0])
    case Ask(actor, aid, op, rid, totp, separate) =>
      if !IsRoot(s, actor) || !totp || aid in s.actions || rid !in s.recoveries then s
      else if !op.OtherOperation? && !separate then s
      else if !op.OtherOperation? && s.recoveries[rid].expiresAt <= s.clock then
        s.(recoveries := s.recoveries[rid := Lapse(s.recoveries[rid], s.clock)])
      else if !MayAsk(s.recoveries[rid], op) || !ActiveRoot(s, actor) then s
      else
        var c := Content(op, rid, actor, s.clock, s.clock + ACTION_TTL);
        s.(actions := s.actions[aid := Action(c, Seal(s.activeKey, aid, c), Pending, None, c, 0)])
    case Approve(_, aid, _, _, _, _) =>
      if aid in s.actions && ActiveRoot(s, e.actor)
        && Overdue(s, aid) then Finish(s, aid, TimedOut, s.actions[aid].approver)
      else if MayApprove(s, e) then Execute(s, e) else s
    case Reject(actor, aid, totp) =>
      if aid in s.actions && ActiveRoot(s, actor)
        && Overdue(s, aid) then Finish(s, aid, TimedOut, s.actions[aid].approver)
      else if MayDecide(s, actor, aid, totp) && s.actions[aid].content.requester != actor
      then Finish(s, aid, Rejected, Some(actor)) else s
    case Withdraw(actor, aid, totp) =>
      if aid in s.actions && ActiveRoot(s, actor)
        && Overdue(s, aid) then Finish(s, aid, TimedOut, s.actions[aid].approver)
      else if MayDecide(s, actor, aid, totp) && s.actions[aid].content.requester == actor
      then Finish(s, aid, Withdrawn, s.actions[aid].approver) else s
    case SweepAction(aid) =>
      if aid in s.actions && Overdue(s, aid) then Finish(s, aid, TimedOut, s.actions[aid].approver) else s
    case SweepRecovery(rid) =>
      if rid in s.recoveries && Stale(s.recoveries[rid], s.clock)
      then s.(recoveries := s.recoveries[rid := Lapse(s.recoveries[rid], s.clock)]) else s
    case Edit(aid, content, sealFrom) =>
      if aid !in s.actions || sealFrom !in s.actions then s
      else s.(actions := s.actions[aid := s.actions[aid].(content := content, seal := s.actions[sealFrom].seal)])
  }

  function Run(events: seq<Event>): State {
    if events == [] then State(map[], map[], map[], 0, 0)
    else Next(Run(events[..|events| - 1]), events[|events| - 1])
  }

  // ----- recovery trails

  predicate ByTwo(m: Mark, stage: Stage) {
    m.Decided? && m.stage == stage && m.requester != m.approver
  }

  predicate TimesInOrder(r: Recovery, now: int) {
    && (forall i, j :: 0 <= i < j < |r.trail| ==> r.trail[i].at <= r.trail[j].at)
    && (forall i :: 0 <= i < |r.trail| ==> r.trail[i].at <= now)
  }

  /** The committed history that each stage stands for. */
  predicate TrailTellsStage(r: Recovery) {
    match r.stage
    case Submitted => r.trail == [] && r.resets == 0
    case UnderReview => |r.trail| == 1 && r.trail[0].Reviewed? && r.trail[0].at < r.expiresAt && r.resets == 0
    case Approved => FirstTwo(r) && |r.trail| == 2 && r.resets == 0
    case Completed => FirstThree(r) && |r.trail| == 3 && r.resets == 1
    case _ => r.resets == 0 || (r.resets == 1 && r.stage == Expired && FirstThree(r)
                                && forall i :: 3 <= i < |r.trail| ==> r.trail[i].Lapsed?)
  }

  predicate FirstTwo(r: Recovery) {
    |r.trail| >= 2 && r.trail[0].Reviewed? && ByTwo(r.trail[1], Approved) && r.trail[1].at < r.expiresAt
  }

  predicate FirstThree(r: Recovery) {
    FirstTwo(r) && |r.trail| >= 3 && ByTwo(r.trail[2], Completed) && r.trail[2].at < r.expiresAt
  }

  predicate RecoveryOk(r: Recovery, now: int) {
    TrailTellsStage(r) && TimesInOrder(r, now)
  }

  ghost predicate TrailsOk(s: State) {
    forall rid :: rid in s.recoveries ==> RecoveryOk(s.recoveries[rid], s.clock)
  }

  lemma LapseKeepsTrail(r: Recovery, now: int)
    requires RecoveryOk(r, now)
    ensures RecoveryOk(Lapse(r, now), now)
  {
  }

  lemma TransitionKeepsTrail(r: Recovery, next: Stage, now: int, mark: Mark)
    requires RecoveryOk(r, now) && mark.at == now
    requires (next == UnderReview && mark.Reviewed?) || (next == Approved && ByTwo(mark, Approved)) || next == Denied
    ensures RecoveryOk(Transition(r, next, now, mark).0, now)
  {
  }

  lemma CompleteKeepsTrail(r: Recovery, fit: bool, now: int, mark: Mark)
    requires RecoveryOk(r, now) && mark.at == now && ByTwo(mark, Completed)
    ensures RecoveryOk(Complete(r, fit, now, mark).0, now)
  {
  }

  lemma EffectKeepsTrail(r: Recovery, c: Content, actor: AdminId, fit: bool, now: int)
    requires RecoveryOk(r, now) && c.requester != actor && !c.op.OtherOperation?
    ensures RecoveryOk(Effect(r, c, actor, fit, now).0, now)
  {
    var mark := Decided(StageOf(c.op), c.requester, actor, now);
    if c.op == CompleteRecovery {
      CompleteKeepsTrail(r, fit, now, mark);
    } else {
      TransitionKeepsTrail(r, StageOf(c.op), now, mark);
    }
  }

  /** What an event can do to one recovery record. */
  lemma NextRecovery(s: State, e: Event, rid: RecoveryId)
    requires rid in s.recoveries
    ensures rid in Next(s, e).recoveries
    ensures var r, after := s.recoveries[rid], Next(s, e).recoveries[rid];
            || after == r
            || after == Lapse(r, s.clock)
            || (e.StartReview? && after == Transition(r, UnderReview, s.clock, Reviewed(e.actor, s.clock)).0)
            || (MayApprove(s, e) && !s.actions[e.aid].content.op.OtherOperation?
                && after == Effect(r, s.actions[e.aid].content, e.actor, e.fit, s.clock).0)
  {
  }

  lemma LaterIsFine(r: Recovery, now: int, later: int)
    requires RecoveryOk(r, now) && now <= later
    ensures RecoveryOk(r, later)
  {
  }

  lemma NextKeepsTrail(s: State, e: Event, rid: RecoveryId)
    requires rid in s.recoveries && RecoveryOk(s.recoveries[rid], s.clock)
    ensures rid in Next(s, e).recoveries && RecoveryOk(Next(s, e).recoveries[rid], s.clock)
  {
    var r := s.recoveries[rid];
    NextRecovery(s, e, rid);
    LapseKeepsTrail(r, s.clock);
    if e.StartReview? {
      TransitionKeepsTrail(r, UnderReview, s.clock, Reviewed(e.actor, s.clock));
    } else if MayApprove(s, e) && !s.actions[e.aid].content.op.OtherOperation? {
      EffectKeepsTrail(r, s.actions[e.aid].content, e.actor, e.fit, s.clock);
    }
  }

  lemma NextKeepsTrails(s: State, e: Event)
    requires TrailsOk(s)
    ensures TrailsOk(Next(s, e))
  {
    forall rid | rid in Next(s, e).recoveries ensures RecoveryOk(Next(s, e).recoveries[rid], Next(s, e).clock) {
      if rid in s.recoveries {
        NextKeepsTrail(s, e, rid);
        LaterIsFine(Next(s, e).recoveries[rid], s.clock, Next(s, e).clock);
      }
    }
  }

  lemma {:induction false} RunKeepsTrails(events: seq<Event>)
    ensures TrailsOk(Run(events))
  {
    if events != [] {
      RunKeepsTrails(events[..|events| - 1]);
      NextKeepsTrails(Run(events[..|events| - 1]), events[|events| - 1]);
    }
  }

  /**
   In every run, with crashes, edits and rotations, a request whose MFA reset
   has happened was reset once, and its history opens with a review, then an
   approval by two different admins, then a completion by two different admins,
   in time order and before its expiry, with nothing in between; all that can
   follow is a lapse.
   */
  lemma ResetNeedsReviewAndTwoPairs(events: seq<Event>, rid: RecoveryId)
    requires rid in Run(events).recoveries && Run(events).recoveries[rid].resets > 0
    ensures var r := Run(events).recoveries[rid];
            && r.resets == 1 && |r.trail| >= 3 && r.trail[0].Reviewed?
            && ByTwo(r.trail[1], Approved) && ByTwo(r.trail[2], Completed)
            && r.trail[0].at <= r.trail[1].at <= r.trail[2].at < r.expiresAt
            && forall i :: 3 <= i < |r.trail| ==> r.trail[i].Lapsed?
  {
    RunKeepsTrails(events);
  }

  // ----- actions

  predicate SealGenuine(actions: map<ActionId, Action>, aid: ActionId)
    requires aid in actions
  {
    var seal := actions[aid].seal;
    seal.id in actions && seal.content == actions[seal.id].original
  }

  /** A seal found anywhere was issued for the row it names, over what that row was created with. */
  ghost predicate SealsGenuine(s: State) {
    forall aid {:trigger SealGenuine(s.actions, aid)} :: aid in s.actions ==> SealGenuine(s.actions, aid)
  }

  /** A row is there or not, and its fields, seal and origin are the same. */
  predicate SameSealed(before: map<ActionId, Action>, after: map<ActionId, Action>, aid: ActionId) {
    && (aid in before <==> aid in after)
    && (aid in before ==>
          && after[aid].seal == before[aid].seal && after[aid].original == before[aid].original
          && after[aid].content == before[aid].content)
  }

  lemma ExecuteKeepsSealed(s: State, e: Event, aid: ActionId)
    requires MayApprove(s, e)
    ensures SameSealed(s.actions, Execute(s, e).actions, aid)
  {
  }

  /** Apart from requesting and editing, nothing adds a row or touches a row's fields, seal or origin. */
  lemma DecisionsKeepSealed(s: State, e: Event, aid: ActionId)
    requires !e.Ask? && !e.Edit?
    ensures SameSealed(s.actions, Next(s, e).actions, aid)
  {
    if e.Approve? && MayApprove(s, e) {
      ExecuteKeepsSealed(s, e, aid);
    }
  }

  lemma NextKeepsSeal(s: State, e: Event, aid: ActionId)
    requires SealsGenuine(s) && aid in Next(s, e).actions
    ensures SealGenuine(Next(s, e).actions, aid)
  {
    if aid in s.actions {
      assert SealGenuine(s.actions, aid);
    }
    if !e.Ask? && !e.Edit? {
      DecisionsKeepSealed(s, e, aid);
      DecisionsKeepSealed(s, e, s.actions[aid].seal.id);
    } else if e.Edit? && e.sealFrom in s.actions {
      assert SealGenuine(s.actions, e.sealFrom);
    }
  }

  lemma NextKeepsSeals(s: State, e: Event)
    requires SealsGenuine(s)
    ensures SealsGenuine(Next(s, e))
  {
    forall aid | aid in Next(s, e).actions ensures SealGenuine(Next(s, e).actions, aid) {
      NextKeepsSeal(s, e, aid);
    }
  }

  lemma {:induction false} RunKeepsSeals(events: seq<Event>)
    ensures SealsGenuine(Run(events))
  {
    if events != [] {
      RunKeepsSeals(events[..|events| - 1]);
      NextKeepsSeals(Run(events[..|events| - 1]), events[|events| - 1]);
    }
  }

  lemma ExecutionNeedsApproval(s: State, e: Event, aid: ActionId)
    requires aid in s.actions && s.actions[aid].status == Pending
    requires aid in Next(s, e).actions && Next(s, e).actions[aid].status == Executed
    ensures MayApprove(s, e) && e.aid == aid && Next(s, e).actions[aid].approver == Some(e.actor)
  {
  }

  /**
   Whenever an action becomes executed, its approver is a different, active
   root admin with a right code, its requester still is one, it has not expired, and it is what
   was created, whatever was edited in the meantime.
   */
  lemma ExecutedActionsAreSound(events: seq<Event>, e: Event, aid: ActionId)
    requires aid in Run(events).actions && Run(events).actions[aid].status == Pending
    requires aid in Next(Run(events), e).actions && Next(Run(events), e).actions[aid].status == Executed
    ensures var s := Run(events);
            var a := s.actions[aid];
            && e.Approve? && e.aid == aid && e.totp && ActiveRoot(s, e.actor) && ActiveRoot(s, a.original.requester)
            && e.actor != a.original.requester && s.clock < a.original.expiresAt
            && a.content == a.original && Next(s, e).actions[aid].approver == Some(e.actor)
  {
    RunKeepsSeals(events);
    ExecutionNeedsApproval(Run(events), e, aid);
    assert SealGenuine(Run(events).actions, aid);
  }

  /** Rejected, withdrawn, timed-out, failed and executed actions never change status again. */
  lemma SettledActionsStay(events: seq<Event>, e: Event, aid: ActionId)
    requires aid in Run(events).actions && Run(events).actions[aid].status != Pending
    ensures aid in Next(Run(events), e).actions
    ensures Next(Run(events), e).actions[aid].status == Run(events).actions[aid].status
    ensures Next(Run(events), e).actions[aid].effects == Run(events).actions[aid].effects
  {
  }

  function Height(s: Stage): nat {
    match s
    case Submitted => 0
    case UnderReview => 1
    case Approved => 2
    case _ => 3
  }

  /** An action that has had its effect has had it once, and its target is past the point of having it again. */
  predicate EffectSpent(s: State, a: Action) {
    a.effects == 0 ||
    (a.effects == 1 &&
     var c := a.original;
     if c.op.OtherOperation? then a.status == Executed
     else c.target in s.recoveries && Height(s.recoveries[c.target].stage) >= Height(StageOf(c.op)))
  }

  ghost predicate EffectsOk(s: State) {
    SealsGenuine(s) && forall aid :: aid in s.actions ==> EffectSpent(s, s.actions[aid])
  }

  lemma NextOnlyClimbs(s: State, e: Event, rid: RecoveryId)
    requires rid in s.recoveries
    ensures rid in Next(s, e).recoveries
    ensures Height(Next(s, e).recoveries[rid].stage) >= Height(s.recoveries[rid].stage)
  {
    NextRecovery(s, e, rid);
  }

  /** Whatever does not run an action leaves its effect count, its origin and any final status alone. */
  lemma OthersLeaveEffects(s: State, e: Event, aid: ActionId)
    requires aid in s.actions && !(MayApprove(s, e) && e.aid == aid)
    ensures aid in Next(s, e).actions
    ensures var a, b := s.actions[aid], Next(s, e).actions[aid];
            b.effects == a.effects && b.original == a.original && (a.status == Executed ==> b.status == Executed)
  {
  }

  lemma OthersKeepEffects(s: State, e: Event, aid: ActionId)
    requires EffectsOk(s) && aid in s.actions && !(MayApprove(s, e) && e.aid == aid)
    ensures aid in Next(s, e).actions && EffectSpent(Next(s, e), Next(s, e).actions[aid])
  {
    OthersLeaveEffects(s, e, aid);
    if s.actions[aid].original.target in s.recoveries {
      NextOnlyClimbs(s, e, s.actions[aid].original.target);
    }
  }

  lemma ApprovalKeepsEffects(s: State, e: Event)
    requires EffectsOk(s) && MayApprove(s, e)
    ensures EffectSpent(Next(s, e), Next(s, e).actions[e.aid])
  {
    var a := s.actions[e.aid];
    assert SealGenuine(s.actions, e.aid);
    assert a.content == a.original;
    assert Next(s, e) == Execute(s, e);
  }

  lemma NextKeepsEffects(s: State, e: Event)
    requires EffectsOk(s)
    ensures EffectsOk(Next(s, e))
  {
    NextKeepsSeals(s, e);
    forall aid | aid in Next(s, e).actions ensures EffectSpent(Next(s, e), Next(s, e).actions[aid]) {
      if MayApprove(s, e) && e.aid == aid {
        ApprovalKeepsEffects(s, e);
      } else if aid in s.actions {
        OthersKeepEffects(s, e, aid);
      }
    }
  }

  /** In every run an action changes its target at most once, however often it is retried after a crash. */
  lemma {:induction false} EffectAtMostOnce(events: seq<Event>)
    ensures EffectsOk(Run(events))
    ensures forall aid :: aid in Run(events).actions ==> Run(events).actions[aid].effects <= 1
  {
    if events != [] {
      EffectAtMostOnce(events[..|events| - 1]);
      NextKeepsEffects(Run(events[..|events| - 1]), events[|events| - 1]);
    }
  }

  // ----- what "execution failed" and "completed" are worth

  /** A retry, after a crash, of an action whose target no longer lets the same step succeed. */
  predicate FailsAfterEffect(s: State, e: Event) {
    && MayApprove(s, e) && !e.crash && s.actions[e.aid].effects == 1
    && var c := s.actions[e.aid].content;
       c.target in s.recoveries
       && (!e.separate || c.op == CompleteRecovery
           || Stale(s.recoveries[c.target], s.clock) || s.recoveries[c.target].stage != StageOf(c.op))
  }

  predicate FailedYetEffective(a: Action) {
    a.status == ExecutionFailed && a.effects == 1
  }

  /** An approval leaves its action failed and yet effective exactly in that case. */
  lemma ApprovalFailsAfterEffectIff(s: State, e: Event)
    requires EffectsOk(s) && MayApprove(s, e)
    ensures e.aid in Next(s, e).actions
    ensures FailedYetEffective(Next(s, e).actions[e.aid]) <==> FailsAfterEffect(s, e)
  {
    var a := s.actions[e.aid];
    assert SealGenuine(s.actions, e.aid) && a.content == a.original && EffectSpent(s, a);
    assert Next(s, e) == Execute(s, e);
  }

  lemma NextFailedYetEffective(s: State, e: Event, aid: ActionId)
    requires EffectsOk(s) && aid in Next(s, e).actions
    ensures FailedYetEffective(Next(s, e).actions[aid]) <==>
            (aid in s.actions && FailedYetEffective(s.actions[aid]))
              || (e.Approve? && e.aid == aid && FailsAfterEffect(s, e))
  {
    if MayApprove(s, e) && e.aid == aid {
      ApprovalFailsAfterEffectIff(s, e);
    } else if aid in s.actions {
      OthersLeaveEffects(s, e, aid);
      OthersFailNothing(s, e, aid);
    }
  }

  lemma OthersFailNothing(s: State, e: Event, aid: ActionId)
    requires aid in s.actions && !(MayApprove(s, e) && e.aid == aid)
    ensures aid in Next(s, e).actions
    ensures Next(s, e).actions[aid].status == ExecutionFailed <==> s.actions[aid].status == ExecutionFailed
  {
  }

  /**
   In every run an action stands as failed although it had its effect if and only
   if it was retried, after a crash, when its target no longer allowed the step: a
   completion, a target that lapsed or moved on, or an approver not separate enough.
   */
  lemma {:induction false} FailedYetEffectiveIffRetriedTooLate(events: seq<Event>, aid: ActionId)
    requires aid in Run(events).actions
    ensures FailedYetEffective(Run(events).actions[aid]) <==> EverRetriedTooLate(events, aid)
  {
    var before, e := events[..|events| - 1], events[|events| - 1];
    EffectAtMostOnce(before);
    NextFailedYetEffective(Run(before), e, aid);
    RetriedTooLatePush(before, e, aid);
    assert events == before + [e];
    if aid in Run(before).actions {
      FailedYetEffectiveIffRetriedTooLate(before, aid);
    } else {
      NotYetAsked(before, aid);
    }
  }

  ghost predicate EverRetriedTooLate(events: seq<Event>, aid: ActionId) {
    exists n :: 0 <= n < |events| && RetriedTooLate(events, n, aid)
  }

  lemma RetriedTooLatePush(before: seq<Event>, e: Event, aid: ActionId)
    ensures EverRetriedTooLate(before + [e], aid) <==>
            EverRetriedTooLate(before, aid) || (e.Approve? && e.aid == aid && FailsAfterEffect(Run(before), e))
  {
    var events := before + [e];
    assert events[..|before|] == before;
    assert RetriedTooLate(events, |before|, aid) <==> (e.Approve? && e.aid == aid && FailsAfterEffect(Run(before), e));
    forall n | 0 <= n < |before| ensures RetriedTooLate(before, n, aid) <==> RetriedTooLate(events, n, aid) {
      assert before[..n] == events[..n];
    }
  }

  predicate RetriedTooLate(events: seq<Event>, n: nat, aid: ActionId)
    requires n < |events|
  {
    events[n].Approve? && events[n].aid == aid && FailsAfterEffect(Run(events[..n]), events[n])
  }

  /** Actions never disappear, so one that is not there was never approved. */
  lemma {:induction false} NotYetAsked(events: seq<Event>, aid: ActionId)
    requires aid !in Run(events).actions
    ensures !EverRetriedTooLate(events, aid)
  {
    if events != [] {
      var before, e := events[..|events| - 1], events[|events| - 1];
      if aid in Run(before).actions {
        NextKeepsActions(Run(before), e, aid);
      }
      NotYetAsked(before, aid);
      RetriedTooLatePush(before, e, aid);
      assert events == before + [e];
    }
  }

  lemma NextKeepsActions(s: State, e: Event, aid: ActionId)
    requires aid in s.actions
    ensures aid in Next(s, e).actions
  {
  }

  predicate Settled(s: Stage) {
    s == Completed || s == Denied || s == Cancelled
  }

  /** A root admin, not the customer's own other self, asking for a recovery step after the request's expiry. */
  predicate AskedAfterExpiry(s: State, e: Event, rid: RecoveryId)
    requires rid in s.recoveries
  {
    && e.Ask? && e.rid == rid && IsRoot(s, e.actor) && e.totp && e.aid !in s.actions
    && !e.op.OtherOperation? && e.separate && s.recoveries[rid].expiresAt <= s.clock
  }

  /** In every run a settled request keeps its stage through every event but one: being asked about after its expiry. */
  lemma SettledUnlessAskedAfterExpiry(events: seq<Event>, e: Event, rid: RecoveryId)
    requires rid in Run(events).recoveries && Settled(Run(events).recoveries[rid].stage)
    ensures var s := Run(events);
            && rid in Next(s, e).recoveries
            && (Next(s, e).recoveries[rid].stage != s.recoveries[rid].stage <==> AskedAfterExpiry(s, e, rid))
            && (AskedAfterExpiry(s, e, rid) ==> Next(s, e).recoveries[rid].stage == Expired)
  {
    NextRecovery(Run(events), e, rid);
  }
}
