/**
 One-time use of authenticator codes. A verification searches the acceptance
 window, then inserts a replay record whose unique key holds an HMAC of the user,
 scope, step and code under the active key; a clash means replay. Expired records
 may be deleted at any time. Compare section 5.2 of RFC 6238.
 */
module TotpReplay {
  import opened Sums

  const STEP := 30

  type User = nat
  type Code = nat
  type Secret = nat
  type Key = nat

  datatype HighRiskAction =
    | AccountFreeze | AccountTopupApproval | MfaReplaceStart | PasswordChange | PayeeAdd | PayeeRemove
    | PayupTransfer | ProfileEmailChangeCommit | ProfileEmailChangeRequest | ProfileUpdate
    | RecoveryCodesRegenerate | SessionRevokeOthers | TransactionAuthorization | Transfer | TransferLimitsChange

  datatype Scope = MfaLogin | HighRisk(action: HighRiskAction) | Other(name: nat)

  /** All fifteen high-risk actions share one replay scope; every other scope is its own. */
  datatype ReplayScope = CustomerHighRisk | Own(scope: Scope)

  function ReplayScopeOf(s: Scope): ReplayScope {
    if s.HighRisk? then CustomerHighRisk else Own(s)
  }

  datatype Config = Config(loginWindow: nat, highRiskWindow: nat)

  function ValidWindow(cfg: Config, s: Scope): nat {
    if s == MfaLogin then cfg.loginWindow else cfg.highRiskWindow
  }

  function WindowOf(cfg: Config, r: ReplayScope): nat {
    if r == Own(MfaLogin) then cfg.loginWindow else cfg.highRiskWindow
  }

  function ReplayTtl(w: nat): int {
    if (w * 2 + 2) * STEP > 30 then (w * 2 + 2) * STEP else 30
  }

  // ----- searching the window

  /** The first non-negative step in [first, last] whose code matches. */
  function Search(totp: (Secret, int) -> Code, secret: Secret, code: Code, first: int, last: int): (step: Option<int>)
    ensures step.Some? ==> first <= step.value <= last && 0 <= step.value && totp(secret, step.value) == code
    ensures step.Some? ==> forall k :: first <= k < step.value && 0 <= k ==> totp(secret, k) != code
    ensures step.None? ==> forall k :: first <= k <= last && 0 <= k ==> totp(secret, k) != code
    decreases last - first
  {
    if first > last then None
    else if first >= 0 && totp(secret, first) == code then Some(first)
    else Search(totp, secret, code, first + 1, last)
  }

  method AcceptedTotpStep(totp: (Secret, int) -> Code, secret: Secret, code: Code, now: int, w: nat)
    returns (step: Option<int>)
    ensures step == Search(totp, secret, code, now / STEP - w, now / STEP + w)
  {
    var current := now / STEP;
    var offset := 0 - w;
    while offset <= w
      invariant 0 - w <= offset <= w + 1
      invariant Search(totp, secret, code, current - w, current + w) ==
                Search(totp, secret, code, current + offset, current + w)
    {
      var candidate := current + offset;
      if candidate >= 0 && totp(secret, candidate) == code {
        return Some(candidate);
      }
      offset := offset + 1;
    }
    return None;
  }

  // ----- replay records

  /** Keyed digest of the submitted code; equal only for equal keys and messages. */
  datatype Digest = Hmac(key: Key, user: User, scope: ReplayScope, step: int, code: Code)

  /** The unique key of a replay record. */
  datatype Slot = Slot(user: User, scope: ReplayScope, step: int, digest: Digest)

  datatype Acceptance = Acceptance(user: User, scope: ReplayScope, step: int, code: Code, key: Key)

  datatype State = State(records: map<Slot, int>, activeKey: Key, clock: int, accepted: seq<Acceptance>)

  datatype Event =
    | Tick(elapsed: nat)
    | Rotate(key: Key)
    | Cleanup(slot: Slot)
    | Verify(user: User, scope: Scope, secret: Secret, code: Code, readAt: int, stampedAt: int)

  function SlotOf(a: Acceptance): Slot {
    Slot(a.user, a.scope, a.step, Hmac(a.key, a.user, a.scope, a.step, a.code))
  }

  function Candidate(totp: (Secret, int) -> Code, cfg: Config, s: State, e: Event): Option<Acceptance>
    requires e.Verify?
  {
    var w := ValidWindow(cfg, e.scope);
    var step := Search(totp, e.secret, e.code, e.readAt / STEP - w, e.readAt / STEP + w);
    if step.None? then None
    else Some(Acceptance(e.user, ReplayScopeOf(e.scope), step.value, e.code, s.activeKey))
  }

  /**
   The clock was read for the search at `readAt` and for the record's expiry at `stampedAt`; the record
   is committed now.
   */
  function Next(totp: (Secret, int) -> Code, cfg: Config, s: State, e: Event): State {
    match e
    case Tick(elapsed) => s.(clock := s.clock + elapsed)
    case Rotate(key) => s.(activeKey := key)
    case Cleanup(slot) =>
      if slot in s.records && s.records[slot] <= s.clock then s.(records := s.records - {slot}) else s
    case Verify(_, scope, _, _, _, stampedAt) =>
      var a := Candidate(totp, cfg, s, e);
      if a.None? || SlotOf(a.value) in s.records then s
      else s.(records := s.records[SlotOf(a.value) := stampedAt + ReplayTtl(ValidWindow(cfg, scope))],
              accepted := s.accepted + [a.value])
  }

  function Run(totp: (Secret, int) -> Code, cfg: Config, s: State, events: seq<Event>): State
    decreases |events|
  {
    if events == [] then s else Run(totp, cfg, Next(totp, cfg, s, events[0]), events[1..])
  }

  /** A verification that commits its record within a delay of reading the clock. */
  predicate Within(delay: int, s: State, e: Event) {
    e.Verify? ==> e.readAt <= e.stampedAt <= s.clock <= e.readAt + delay
  }

  predicate AllWithin(delay: int, totp: (Secret, int) -> Code, cfg: Config, s: State, events: seq<Event>)
    decreases |events|
  {
    events == [] || (Within(delay, s, events[0])
                     && AllWithin(delay, totp, cfg, Next(totp, cfg, s, events[0]), events[1..]))
  }

  /** Within one step. */
  predicate Prompt(s: State, e: Event) { Within(STEP, s, e) }

  // ----- the invariant

  /** From this instant on the acceptance window for the step has closed, with one step to spare. */
  function ClosedFrom(cfg: Config, scope: ReplayScope, step: int): int {
    STEP * (step + WindowOf(cfg, scope) + 2)
  }

  ghost predicate Inv(cfg: Config, s: State) {
    && (forall slot :: slot in s.records ==>
          s.records[slot] >= ClosedFrom(cfg, slot.scope, slot.step)
          && exists i :: 0 <= i < |s.accepted| && SlotOf(s.accepted[i]) == slot)
    && (forall i :: 0 <= i < |s.accepted| ==>
          SlotOf(s.accepted[i]) in s.records || s.clock >= ClosedFrom(cfg, s.accepted[i].scope, s.accepted[i].step))
    && (forall i, j :: 0 <= i < j < |s.accepted| ==> s.accepted[i] != s.accepted[j])
  }

  lemma SharedScopeSharedWindow(cfg: Config, s: Scope)
    ensures ValidWindow(cfg, s) == WindowOf(cfg, ReplayScopeOf(s))
  {
  }

  /** A code found at a prompt verification was found before its window closed. */
  lemma FoundInTime(totp: (Secret, int) -> Code, cfg: Config, s: State, e: Event)
    requires e.Verify? && Prompt(s, e) && Candidate(totp, cfg, s, e).Some?
    ensures var a := Candidate(totp, cfg, s, e).value;
            && s.clock < ClosedFrom(cfg, a.scope, a.step)
            && e.stampedAt + ReplayTtl(ValidWindow(cfg, e.scope)) >= ClosedFrom(cfg, a.scope, a.step)
  {
    SharedScopeSharedWindow(cfg, e.scope);
  }

  /**
   Reusing a code: within one scope a prompt verification accepts a matching
   code if and only if that same user, step and code has not already been
   accepted under the active key.
   */
  lemma AcceptedIffNewUnderKey(totp: (Secret, int) -> Code, cfg: Config, s: State, e: Event)
    requires Inv(cfg, s) && e.Verify? && Prompt(s, e) && Candidate(totp, cfg, s, e).Some?
    ensures |Next(totp, cfg, s, e).accepted| > |s.accepted| <==> Candidate(totp, cfg, s, e).value !in s.accepted
  {
    var a := Candidate(totp, cfg, s, e).value;
    FoundInTime(totp, cfg, s, e);
    if SlotOf(a) in s.records {
      var i :| 0 <= i < |s.accepted| && SlotOf(s.accepted[i]) == SlotOf(a);
      assert s.accepted[i] == a;
    }
  }

  lemma VerifyKeepsInv(totp: (Secret, int) -> Code, cfg: Config, s: State, e: Event)
    requires Inv(cfg, s) && Prompt(s, e) && e.Verify?
    ensures Inv(cfg, Next(totp, cfg, s, e))
  {
    var after := Next(totp, cfg, s, e);
    if Candidate(totp, cfg, s, e).Some? {
      FoundInTime(totp, cfg, s, e);
      AcceptedIffNewUnderKey(totp, cfg, s, e);
      if after != s {
        forall slot | slot in after.records
          ensures exists i :: 0 <= i < |after.accepted| && SlotOf(after.accepted[i]) == slot
        {
          if slot in s.records {
            var i :| 0 <= i < |s.accepted| && SlotOf(s.accepted[i]) == slot;
            assert after.accepted[i] == s.accepted[i];
          } else {
            assert SlotOf(after.accepted[|s.accepted|]) == slot;
          }
        }
      }
    }
  }

  lemma {:induction false} RunKeepsInv(totp: (Secret, int) -> Code, cfg: Config, s: State, events: seq<Event>)
    requires Inv(cfg, s) && AllWithin(STEP, totp, cfg, s, events)
    ensures Inv(cfg, Run(totp, cfg, s, events))
    decreases |events|
  {
    if events != [] {
      if events[0].Verify? {
        VerifyKeepsInv(totp, cfg, s, events[0]);
      }
      RunKeepsInv(totp, cfg, Next(totp, cfg, s, events[0]), events[1..]);
    }
  }

  predicate SameCode(a: Acceptance, b: Acceptance) {
    a.user == b.user && a.scope == b.scope && a.step == b.step && a.code == b.code
  }

  function Initial(key: Key, clock: int): State {
    State(map[], key, clock, [])
  }

  /**
   In every run whose verifications commit within one step of reading the clock,
   with expired records deleted at any time, no user's code for a step is accepted twice in one replay scope under
   the same key: two such acceptances can only be on either side of a rotation.
   */
  lemma NoReplayWithoutRotation(totp: (Secret, int) -> Code, cfg: Config, key: Key, clock: int, events: seq<Event>,
                          i: nat, j: nat)
    requires AllWithin(STEP, totp, cfg, Initial(key, clock), events)
    requires i < j < |Run(totp, cfg, Initial(key, clock), events).accepted|
    ensures var log := Run(totp, cfg, Initial(key, clock), events).accepted;
            SameCode(log[i], log[j]) ==> log[i].key != log[j].key
  {
    RunKeepsInv(totp, cfg, Initial(key, clock), events);
  }

  // ----- both conditions are needed

  /** Codes of one secret that match at a single step. */
  function OnlyAt(step: int): (Secret, int) -> Code {
    (secret, k) => if k == step then 123456 else 0
  }

  function TryIt(action: HighRiskAction, readAt: int): Event {
    Verify(7, HighRisk(action), 1, 123456, readAt, readAt)
  }

  function Accepted(step: int, key: Key): Acceptance {
    Acceptance(7, CustomerHighRisk, step, 123456, key)
  }

  /** The code of step w is found whenever w is in the window. */
  lemma FoundAt(cfg: Config, s: State, action: HighRiskAction, readAt: int)
    requires var w := cfg.highRiskWindow; readAt / STEP - w <= w <= readAt / STEP + w
    ensures Candidate(OnlyAt(cfg.highRiskWindow), cfg, s, TryIt(action, readAt)) ==
            Some(Accepted(cfg.highRiskWindow, s.activeKey))
  {
    var w := cfg.highRiskWindow;
    var totp := OnlyAt(w);
    assert totp(1, w) == 123456;
    assert Search(totp, 1, 123456, readAt / STEP - w, readAt / STEP + w).Some?;
  }

  lemma {:induction false} RunTwo(totp: (Secret, int) -> Code, cfg: Config, s: State, a: Event, rest: seq<Event>)
    ensures Run(totp, cfg, s, [a] + rest) == Run(totp, cfg, Next(totp, cfg, s, a), rest)
    ensures forall d :: AllWithin(d, totp, cfg, s, [a] + rest)
              <==> Within(d, s, a) && AllWithin(d, totp, cfg, Next(totp, cfg, s, a), rest)
  {
    assert ([a] + rest)[1..] == rest;
  }

  /** After the active HMAC key is rotated, a code already used is accepted again in the same scope. */
  lemma RotationAllowsReuse(cfg: Config)
    ensures var w := cfg.highRiskWindow;
            var s := Run(OnlyAt(w), cfg, Initial(1, 0), [TryIt(Transfer, 0)]
                         + ([Rotate(2)] + ([TryIt(PayeeAdd, 0)] + [])));
            s.accepted == [Accepted(w, 1), Accepted(w, 2)]
  {
    var totp := OnlyAt(cfg.highRiskWindow);
    var s0 := Initial(1, 0);
    FoundAt(cfg, s0, Transfer, 0);
    var s1 := Next(totp, cfg, s0, TryIt(Transfer, 0));
    var s2 := Next(totp, cfg, s1, Rotate(2));
    FoundAt(cfg, s2, PayeeAdd, 0);
    RunTwo(totp, cfg, s0, TryIt(Transfer, 0), [Rotate(2)] + ([TryIt(PayeeAdd, 0)] + []));
    RunTwo(totp, cfg, s1, Rotate(2), [TryIt(PayeeAdd, 0)] + []);
    RunTwo(totp, cfg, s2, TryIt(PayeeAdd, 0), []);
  }

  function Stall(cfg: Config): seq<Event> {
    var w := cfg.highRiskWindow;
    [TryIt(Transfer, 0)]
      + ([Tick(60 * w + 60)] + ([Cleanup(SlotOf(Accepted(w, 1)))] + ([TryIt(PayeeAdd, 60 * w + 29)] + [])))
  }

  /** The state after the first acceptance has expired and its record was deleted. */
  function Forgotten(cfg: Config): State {
    State(map[], 1, 60 * cfg.highRiskWindow + 60, [Accepted(cfg.highRiskWindow, 1)])
  }

  lemma FirstUseForgotten(cfg: Config)
    ensures var w := cfg.highRiskWindow;
            var totp := OnlyAt(w);
            var s1 := Next(totp, cfg, Initial(1, 0), TryIt(Transfer, 0));
            Next(totp, cfg, Next(totp, cfg, s1, Tick(60 * w + 60)), Cleanup(SlotOf(Accepted(w, 1)))) == Forgotten(cfg)
  {
    var w := cfg.highRiskWindow;
    FoundAt(cfg, Initial(1, 0), Transfer, 0);
    var s1 := Next(OnlyAt(w), cfg, Initial(1, 0), TryIt(Transfer, 0));
    assert s1 == State(map[SlotOf(Accepted(w, 1)) := 60 * w + 60], 1, 0, [Accepted(w, 1)]);
  }

  lemma SecondUse(cfg: Config)
    ensures var w := cfg.highRiskWindow;
            var e := TryIt(PayeeAdd, 60 * w + 29);
            && Within(STEP + 1, Forgotten(cfg), e)
            && Next(OnlyAt(w), cfg, Forgotten(cfg), e).accepted == [Accepted(w, 1), Accepted(w, 1)]
  {
    FoundAt(cfg, Forgotten(cfg), PayeeAdd, 60 * cfg.highRiskWindow + 29);
  }

  /** For every window, one second more than a step between reading the clock and committing is enough for a replay. */
  lemma StallAllowsReuse(cfg: Config)
    ensures AllWithin(STEP + 1, OnlyAt(cfg.highRiskWindow), cfg, Initial(1, 0), Stall(cfg))
    ensures Run(OnlyAt(cfg.highRiskWindow), cfg, Initial(1, 0), Stall(cfg)).accepted ==
            [Accepted(cfg.highRiskWindow, 1), Accepted(cfg.highRiskWindow, 1)]
  {
    var w := cfg.highRiskWindow;
    var totp, slot := OnlyAt(w), SlotOf(Accepted(w, 1));
    var first, last := TryIt(Transfer, 0), TryIt(PayeeAdd, 60 * w + 29);
    FirstUseForgotten(cfg);
    SecondUse(cfg);
    var s1 := Next(totp, cfg, Initial(1, 0), first);
    var s2 := Next(totp, cfg, s1, Tick(60 * w + 60));
    RunTwo(totp, cfg, Initial(1, 0), first, [Tick(60 * w + 60)] + ([Cleanup(slot)] + ([last] + [])));
    RunTwo(totp, cfg, s1, Tick(60 * w + 60), [Cleanup(slot)] + ([last] + []));
    RunTwo(totp, cfg, s2, Cleanup(slot), [last] + []);
    RunTwo(totp, cfg, Forgotten(cfg), last, []);
  }

  ghost predicate NoReplay(accepted: seq<Acceptance>) {
    forall i, j :: 0 <= i < j < |accepted| ==> accepted[i] != accepted[j]
  }

  /** No run whose verifications keep to the delay accepts a code twice under one key. */
  ghost predicate DelayIsSafe(cfg: Config, delay: int) {
    forall totp: (Secret, int) -> Code, key, clock, events ::
      AllWithin(delay, totp, cfg, Initial(key, clock), events) ==>
        NoReplay(Run(totp, cfg, Initial(key, clock), events).accepted)
  }

  lemma {:induction false} ShorterIsWithin(d: int, longer: int, totp: (Secret, int) -> Code, cfg: Config, s: State,
                          events: seq<Event>)
    requires d <= longer && AllWithin(d, totp, cfg, s, events)
    ensures AllWithin(longer, totp, cfg, s, events)
    decreases |events|
  {
    if events != [] {
      ShorterIsWithin(d, longer, totp, cfg, Next(totp, cfg, s, events[0]), events[1..]);
    }
  }

  /** For every configuration, a delay rules out replays under one key if and only if it is at most one step. */
  lemma DelaySafeIffAtMostAStep(cfg: Config, delay: int)
    ensures DelayIsSafe(cfg, delay) <==> delay <= STEP
  {
    if delay <= STEP {
      forall totp: (Secret, int) -> Code, key: Key, clock,
        events | AllWithin(delay, totp, cfg, Initial(key, clock), events)
        ensures NoReplay(Run(totp, cfg, Initial(key, clock), events).accepted)
      {
        ShorterIsWithin(delay, STEP, totp, cfg, Initial(key, clock), events);
        RunKeepsInv(totp, cfg, Initial(key, clock), events);
      }
    } else {
      StallAllowsReuse(cfg);
      var totp := OnlyAt(cfg.highRiskWindow);
      ShorterIsWithin(STEP + 1, delay, totp, cfg, Initial(1, 0), Stall(cfg));
      var accepted := Run(totp, cfg, Initial(1, 0), Stall(cfg)).accepted;
      assert accepted[0] == accepted[1];
      assert !NoReplay(accepted);
    }
  }

  // ----- when a code is accepted

  /** All fifteen high-risk actions share one replay scope, which nothing else shares. */
  lemma ScopesShared(a: Scope, b: Scope)
    ensures ReplayScopeOf(a) == ReplayScopeOf(b) <==> a == b || (a.HighRisk? && b.HighRisk?)
  {
  }

  /** Steps of 30 s; the login window for logins, the high-risk window for everything else. */
  function WindowFor(cfg: Config, scope: Scope): nat {
    match scope
    case MfaLogin => cfg.loginWindow
    case HighRisk(_) => cfg.highRiskWindow
    case Other(_) => cfg.highRiskWindow
  }

  predicate Matches(totp: (Secret, int) -> Code, cfg: Config, e: Event, step: int)
    requires e.Verify?
  {
    0 <= step && e.readAt / 30 - WindowFor(cfg, e.scope) <= step <= e.readAt / 30 + WindowFor(cfg, e.scope)
    && totp(e.secret, step) == e.code
  }

  /** A verification with no matching step in the window changes nothing. */
  lemma NoMatchAnswers(totp: (Secret, int) -> Code, cfg: Config, s: State, e: Event)
    requires e.Verify? && forall step :: !Matches(totp, cfg, e, step)
    ensures Next(totp, cfg, s, e) == s
  {
    var w := ValidWindow(cfg, e.scope);
    forall k | e.readAt / STEP - w <= k <= e.readAt / STEP + w && 0 <= k ensures totp(e.secret, k) != e.code {
      assert !Matches(totp, cfg, e, k);
    }
  }

  lemma FirstMatchIsFound(totp: (Secret, int) -> Code, cfg: Config, e: Event, step: int)
    requires e.Verify? && Matches(totp, cfg, e, step) && forall k :: Matches(totp, cfg, e, k) ==> step <= k
    ensures var w := ValidWindow(cfg, e.scope);
            Search(totp, e.secret, e.code, e.readAt / STEP - w, e.readAt / STEP + w) == Some(step)
  {
    var w := ValidWindow(cfg, e.scope);
    var found := Search(totp, e.secret, e.code, e.readAt / STEP - w, e.readAt / STEP + w);
    assert found.Some?;
    assert Matches(totp, cfg, e, found.value);
  }

  /**
   Otherwise it is accepted exactly when the first matching step's slot, under the active key,
   is not taken; it then takes the slot for (2w + 2) * 30 s.
   */
  lemma MatchAnswers(totp: (Secret, int) -> Code, cfg: Config, s: State, e: Event, step: int)
    requires e.Verify? && Matches(totp, cfg, e, step) && forall k :: Matches(totp, cfg, e, k) ==> step <= k
    ensures var scope := if e.scope.HighRisk? then CustomerHighRisk else Own(e.scope);
            var slot := Slot(e.user, scope, step, Hmac(s.activeKey, e.user, scope, step, e.code));
            Next(totp, cfg, s, e) ==
              if slot in s.records then s
              else s.(records := s.records[slot := e.stampedAt + (2 * WindowFor(cfg, e.scope) + 2) * 30],
                      accepted := s.accepted + [Acceptance(e.user, scope, step, e.code, s.activeKey)])
  {
    FirstMatchIsFound(totp, cfg, e, step);
  }
}
