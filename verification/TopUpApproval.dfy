/**
 Approving one top-up request from several devices at once. An attempt locks the
 request row, loses the lock when TOTP verification commits, and reloads the row
 under lock before crediting. The branch for a wrong code, the branch for a
 refused credit and the status poll write the row after their lock is gone.
 */
module TopUpApproval {
  import opened Sums

  const MAX_FAILURES := 5

  datatype Status = Pending | Completed | Expired | Failed

  datatype Row = Row(status: Status, failures: nat, expiresAt: int)

  datatype Phase =
    | Start
    | Loaded                          // row locked, request pending
    | Owned                           // row locked, and its owner found eligible
    | Rejected                        // wrong code; its bookkeeping committed and dropped the lock
    | Wrong(locked: bool, seen: nat, after: nat)  // wrong code; failure count read, not yet written
    | Verified                        // right code; the replay record's commit dropped the lock
    | Crediting(loadedAt: int)        // row locked again and still pending
    | Refused                         // credit refused and rolled back; about to mark the row failed
    | Peeked                          // poll saw an overdue pending row; about to mark it expired
    | Over

  /**
   `counted` is the number of wrong codes whose count has been committed; `after` in a phase is its
   value at the read.
   */
  datatype State = State(row: Row, attempts: map<nat, Phase>, clock: int, credits: nat, counted: nat,
                         creditLoadedAt: Option<int>)

  datatype Event =
    | Tick(elapsed: nat) | Begin(a: nat)
    | Load(a: nat) | Leave(a: nat) | CheckOwner(a: nat, owner: Option<Owner>)
    | WrongCode(a: nat, keepsLock: bool) | Reread(a: nat) | CountWrong(a: nat)
    | RightCode(a: nat) | Reload(a: nat) | Credit(a: nat) | RefuseCredit(a: nat) | MarkFailed(a: nat)
    | Peek(a: nat) | MarkExpired(a: nat)

  datatype Owner = Owner(customer: bool, active: bool, frozen: bool, lockReason: bool)

  predicate OwnerIsEligible(owner: Option<Owner>) {
    owner.Some? && owner.value.customer && owner.value.active && !owner.value.frozen && !owner.value.lockReason
  }

  predicate Locks(p: Phase) {
    p.Loaded? || p.Owned? || p.Crediting? || (p.Wrong? && p.locked)
  }

  predicate RowFree(s: State, except: nat) {
    forall a :: a in s.attempts && a != except ==> !Locks(s.attempts[a])
  }

  function PhaseOf(s: State, a: nat): Phase {
    if a in s.attempts then s.attempts[a] else Over
  }

  function Enter(s: State, a: nat, p: Phase): State {
    s.(attempts := s.attempts[a := p])
  }

  function Write(s: State, a: nat, row: Row): State {
    Enter(s, a, Over).(row := row)
  }

  predicate Overdue(row: Row, now: int) {
    row.status == Pending && row.expiresAt <= now
  }

  /** The request row as the service updates it, one call at a time. */
  class TopUpRequest {
    var status: Status
    var failures: nat
    const expiresAt: int

    constructor (now: int, ttl: int)
      ensures Stored() == Row(Pending, 0, now + ttl)
    {
      status, failures, expiresAt := Pending, 0, now + ttl;
    }

    function Stored(): Row
      reads this
    {
      Row(status, failures, expiresAt)
    }

    method LazilyExpire(now: int)
      modifies this`status
      ensures Stored() == if Overdue(old(Stored()), now) then old(Stored()).(status := Expired) else old(Stored())
    {
      if status == Pending && expiresAt <= now {
        status := Expired;
      }
    }

    /** Found only if the verifier matches and the request is still pending and not overdue. */
    method LoadForApproval(verifierMatches: bool, now: int) returns (found: bool)
      modifies this`status
      ensures found <==> verifierMatches && old(status) == Pending && now < expiresAt
      ensures found ==> Stored() == old(Stored())
      ensures !verifierMatches ==> Stored() == old(Stored())
      ensures !found && verifierMatches ==> status != Pending
    {
      if !verifierMatches {
        return false;
      }
      LazilyExpire(now);
      found := status == Pending;
    }

    method RecordWrongCode() returns (locked: bool)
      modifies this`status, this`failures
      ensures failures == old(failures) + 1 && (locked <==> failures >= 5)
      ensures status == if locked then Failed else old(status)
    {
      failures := failures + 1;
      if failures >= MAX_FAILURES {
        status := Failed;
        return true;
      }
      return false;
    }
  }

  /** A locked load: an overdue request is expired, anything but a pending one ends the attempt. */
  function LockedLoad(s: State, a: nat, next: Phase): State {
    if Overdue(s.row, s.clock) then Write(s, a, s.row.(status := Expired))
    else if s.row.status != Pending then Enter(s, a, Over)
    else Enter(s, a, next)
  }

  function Next(s: State, e: Event): State {
    match e
    case Tick(elapsed) => s.(clock := s.clock + elapsed)
    case Begin(a) => if a in s.attempts then s else Enter(s, a, Start)
    case Load(a) => if PhaseOf(s, a).Start? && RowFree(s, a) then LockedLoad(s, a, Loaded) else s
    case Leave(a) =>
      if PhaseOf(s, a).Loaded? || PhaseOf(s, a).Owned? || PhaseOf(s, a).Crediting? then Enter(s, a, Over) else s
    case CheckOwner(a, owner) =>
      if !PhaseOf(s, a).Loaded? then s
      else if OwnerIsEligible(owner) then Enter(s, a, Owned)
      else Write(s, a, s.row.(status := Failed))
    case WrongCode(a, keepsLock) =>
      if PhaseOf(s, a).Owned?
        then Enter(s, a, if keepsLock then Wrong(true, s.row.failures, s.counted) else Rejected) else s
    case Reread(a) => if PhaseOf(s, a).Rejected? then Enter(s, a, Wrong(false, s.row.failures, s.counted)) else s
    case CountWrong(a) =>
      if PhaseOf(s, a).Wrong? && RowFree(s, a) then
        var count := s.attempts[a].seen + 1;
        Write(s, a, s.row.(failures := count, status := if count >= MAX_FAILURES then Failed else s.row.status))
        .(counted := s.counted + 1)
      else s
    case RightCode(a) => if PhaseOf(s, a).Owned? then Enter(s, a, Verified) else s
    case Reload(a) => if PhaseOf(s, a).Verified? && RowFree(s, a) then LockedLoad(s, a, Crediting(s.clock)) else s
    case Credit(a) =>
      if PhaseOf(s, a).Crediting? then
        Write(s, a, s.row.(status := Completed)).(credits := s.credits + 1,
                                                  creditLoadedAt := Some(s.attempts[a].loadedAt))
      else s
    case RefuseCredit(a) => if PhaseOf(s, a).Crediting? then Enter(s, a, Refused) else s
    case MarkFailed(a) =>
      if PhaseOf(s, a).Refused? && RowFree(s, a) then Write(s, a, s.row.(status := Failed)) else s
    case Peek(a) => if PhaseOf(s, a).Start? then Enter(s, a, if Overdue(s.row, s.clock) then Peeked else Over) else s
    case MarkExpired(a) =>
      if PhaseOf(s, a).Peeked? && RowFree(s, a) then Write(s, a, s.row.(status := Expired)) else s
  }

  function Run(s: State, events: seq<Event>): State
    decreases |events|
  {
    if events == [] then s else Run(Next(s, events[0]), events[1..])
  }

  function Fresh(expiresAt: int, clock: int): State {
    State(Row(Pending, 0, expiresAt), map[], clock, 0, 0, None)
  }

  // ----- safety

  ghost predicate OneLock(attempts: map<nat, Phase>) {
    forall a, b :: a in attempts && b in attempts && Locks(attempts[a]) && Locks(attempts[b]) ==> a == b
  }

  ghost predicate CreditsOk(s: State) {
    && (forall a :: a in s.attempts && s.attempts[a].Crediting? ==>
          s.row.status == Pending && s.attempts[a].loadedAt < s.row.expiresAt)
    && s.credits <= 1
    && (s.credits == 1 ==> s.row.status != Pending && s.creditLoadedAt.Some?)
    && (s.creditLoadedAt.Some? ==> s.creditLoadedAt.value < s.row.expiresAt)
  }

  ghost predicate Inv(s: State) {
    OneLock(s.attempts) && CreditsOk(s)
  }

  lemma NextKeepsOneLock(s: State, e: Event)
    requires OneLock(s.attempts)
    ensures OneLock(Next(s, e).attempts)
  {
  }

  lemma NextKeepsCredits(s: State, e: Event)
    requires Inv(s)
    ensures CreditsOk(Next(s, e)) && Next(s, e).row.expiresAt == s.row.expiresAt
    ensures s.row.status != Pending ==> Next(s, e).row.status != Pending && Next(s, e).credits == s.credits
  {
  }

  lemma NextKeepsInv(s: State, e: Event)
    requires Inv(s)
    ensures Inv(Next(s, e)) && Next(s, e).row.expiresAt == s.row.expiresAt
    ensures s.row.status != Pending ==> Next(s, e).row.status != Pending && Next(s, e).credits == s.credits
  {
    NextKeepsOneLock(s, e);
    NextKeepsCredits(s, e);
  }

  lemma {:induction false} RunKeepsInv(s: State, events: seq<Event>)
    requires Inv(s)
    ensures Inv(Run(s, events)) && Run(s, events).row.expiresAt == s.row.expiresAt
    ensures s.row.status != Pending ==> Run(s, events).row.status != Pending && Run(s, events).credits == s.credits
    decreases |events|
  {
    if events != [] {
      NextKeepsInv(s, events[0]);
      RunKeepsInv(Next(s, events[0]), events[1..]);
    }
  }

  /**
   In every interleaving a request is credited at most once, on the strength of
   a locked reload made before it expired.
   */
  lemma CreditedAtMostOnce(expiresAt: int, clock: int, events: seq<Event>)
    ensures var s := Run(Fresh(expiresAt, clock), events);
            s.credits <= 1 && (s.credits == 1 ==> s.creditLoadedAt.Some? && s.creditLoadedAt.value < expiresAt)
  {
    RunKeepsInv(Fresh(expiresAt, clock), events);
  }

  lemma {:induction false} RunSplits(s: State, first: seq<Event>, more: seq<Event>)
    ensures Run(s, first + more) == Run(Run(s, first), more)
    decreases |first|
  {
    if first == [] {
      assert first + more == more;
    } else {
      assert (first + more)[1..] == first[1..] + more;
      RunSplits(Next(s, first[0]), first[1..], more);
    }
  }

  /** Once expired, failed or completed, a request is never pending again and never credited again. */
  lemma SettledForGood(expiresAt: int, clock: int, events: seq<Event>, more: seq<Event>)
    requires Run(Fresh(expiresAt, clock), events).row.status != Pending
    ensures var s, later := Run(Fresh(expiresAt, clock), events), Run(Fresh(expiresAt, clock), events + more);
            later.row.status != Pending && later.credits == s.credits
  {
    RunKeepsInv(Fresh(expiresAt, clock), events);
    RunSplits(Fresh(expiresAt, clock), events, more);
    RunKeepsInv(Run(Fresh(expiresAt, clock), events), more);
  }

  // ----- the status is not as safe as the money

  ghost predicate NobodyLocks(s: State) {
    forall a :: a in s.attempts ==> !Locks(s.attempts[a])
  }

  /** Attempts whose wrong code is known but whose failure count is still to be read. */
  ghost function ToRead(s: State): set<nat> {
    set a | a in s.attempts && s.attempts[a].Rejected?
  }

  /** Whatever the attempt does next, with the unread ones counting on top of it, stays under the limit. */
  ghost predicate Harmless(p: Phase, unread: nat) {
    && !p.Refused? && !p.Peeked?
    && (p.Wrong? ==> p.seen + 1 < MAX_FAILURES && (unread > 0 ==> p.seen + 1 + unread < MAX_FAILURES))
  }

  /** No refused credit and no overdue poll is about to write, and no wrong codes in flight can add up to the limit. */
  ghost predicate StatusSafe(s: State) {
    && (|ToRead(s)| > 0 ==> s.row.failures + |ToRead(s)| < MAX_FAILURES)
    && (forall a :: a in s.attempts ==> Harmless(s.attempts[a], |ToRead(s)|))
  }

  /** A step of a completed request: what can still happen to it. */
  lemma CompletedStep(s: State, e: Event)
    requires s.row.status == Completed && NobodyLocks(s) && StatusSafe(s)
    ensures var n := Next(s, e); n.row.status == Completed && NobodyLocks(n) && StatusSafe(n)
  {
    var n := Next(s, e);
    if e.Reread? && PhaseOf(s, e.a).Rejected? {
      assert Harmless(s.attempts[e.a], |ToRead(s)|);
      assert ToRead(n) == ToRead(s) - {e.a} && e.a in ToRead(s);
    } else {
      assert ToRead(n) == ToRead(s);
      if e.CountWrong? && PhaseOf(s, e.a).Wrong? {
        assert Harmless(s.attempts[e.a], |ToRead(s)|);
      }
      if e.MarkFailed? || e.MarkExpired? {
        assert e.a in s.attempts ==> Harmless(s.attempts[e.a], |ToRead(s)|);
      }
    }
  }

  lemma {:induction false} SafeStaysCompleted(s: State, events: seq<Event>)
    requires s.row.status == Completed && NobodyLocks(s) && StatusSafe(s)
    ensures Run(s, events).row.status == Completed
    decreases |events|
  {
    if events != [] {
      CompletedStep(s, events[0]);
      SafeStaysCompleted(Next(s, events[0]), events[1..]);
    }
  }

  lemma RunOne(s: State, e: Event)
    ensures Run(s, [e]) == Next(s, e)
  {
    assert Run(s, [e]) == Run(Next(s, e), []);
  }

  /** The unread wrong codes, read and counted one after the other, reach the limit. */
  lemma {:induction false} ClimbToLimit(s: State) returns (events: seq<Event>)
    requires NobodyLocks(s) && ToRead(s) != {} && s.row.failures + |ToRead(s)| >= MAX_FAILURES
    ensures Run(s, events).row.status == Failed
    decreases |ToRead(s)|
  {
    var a :| a in ToRead(s);
    var read := Next(s, Reread(a));
    var after := Next(read, CountWrong(a));
    assert after.row.failures == s.row.failures + 1;
    assert ToRead(after) == ToRead(s) - {a};
    RunOne(read, CountWrong(a));
    assert Run(s, [Reread(a)] + [CountWrong(a)]) == after by {
      RunSplits(s, [Reread(a)], [CountWrong(a)]);
      RunOne(s, Reread(a));
    }
    events := [Reread(a)] + [CountWrong(a)];
    if after.row.failures < MAX_FAILURES {
      var rest := ClimbToLimit(after);
      RunSplits(s, events, rest);
      events := events + rest;
    }
  }

  lemma UnsafeCanLeaveCompleted(s: State) returns (events: seq<Event>)
    requires s.row.status == Completed && NobodyLocks(s) && !StatusSafe(s)
    ensures Run(s, events).row.status != Completed
  {
    if a :| a in s.attempts && s.attempts[a].Refused? {
      RunOne(s, MarkFailed(a));
      events := [MarkFailed(a)];
    } else if a :| a in s.attempts && s.attempts[a].Peeked? {
      RunOne(s, MarkExpired(a));
      events := [MarkExpired(a)];
    } else if a :| a in s.attempts && !Harmless(s.attempts[a], |ToRead(s)|) {
      var after := Next(s, CountWrong(a));
      RunOne(s, CountWrong(a));
      events := [CountWrong(a)];
      if after.row.status == Completed {
        assert ToRead(after) == ToRead(s);
        var rest := ClimbToLimit(after);
        RunSplits(s, events, rest);
        events := events + rest;
      }
    } else {
      events := ClimbToLimit(s);
    }
  }

  /**
   After a credit commits, the stored status stays "completed" in every
   continuation if and only if no other attempt is about to mark the row failed
   or expired and the wrong codes still in flight cannot add up to the limit.
   */
  lemma StaysCompletedIffSafe(s: State, a: nat)
    requires Inv(s) && a in s.attempts && s.attempts[a].Crediting?
    ensures var done := Next(s, Credit(a));
            (forall events :: Run(done, events).row.status == Completed) <==> StatusSafe(done)
  {
    var done := Next(s, Credit(a));
    assert NobodyLocks(done);
    if StatusSafe(done) {
      forall events ensures Run(done, events).row.status == Completed {
        SafeStaysCompleted(done, events);
      }
    } else {
      var events := UnsafeCanLeaveCompleted(done);
      assert Run(done, events).row.status != Completed;
    }
  }

  // ----- which wrong codes are counted

  /** A wrong code written although another was counted between its read and its write. */
  predicate OverwritesACount(s: State, e: Event) {
    e.CountWrong? && PhaseOf(s, e.a).Wrong? && RowFree(s, e.a) && s.attempts[e.a].after != s.counted
  }

  /** Every count was read as it was written: the row has them all. */
  ghost predicate CountExact(s: State) {
    && s.row.failures == s.counted
    && (forall a :: a in s.attempts && s.attempts[a].Wrong? ==> s.attempts[a].seen == s.attempts[a].after <= s.counted)
  }

  /** A count was lost, and nobody can bring it back. */
  ghost predicate CountBehind(s: State) {
    && s.row.failures < s.counted
    && (forall a :: a in s.attempts && s.attempts[a].Wrong? ==> s.attempts[a].seen < s.counted)
  }

  lemma NextKeepsCount(s: State, e: Event)
    ensures CountExact(s) && !OverwritesACount(s, e) ==> CountExact(Next(s, e))
    ensures CountExact(s) && OverwritesACount(s, e) ==> CountBehind(Next(s, e))
    ensures CountBehind(s) ==> CountBehind(Next(s, e))
  {
  }

  ghost predicate NeverOverwrites(s: State, events: seq<Event>) {
    forall k :: 0 <= k < |events| ==> !OverwritesACount(Run(s, events[..k]), events[k])
  }

  lemma {:induction false} CountsAlongRun(s: State, events: seq<Event>)
    requires CountExact(s)
    ensures if NeverOverwrites(s, events) then CountExact(Run(s, events)) else CountBehind(Run(s, events))
    decreases |events|
  {
    if events == [] {
      assert NeverOverwrites(s, events);
    } else {
      var before, e := events[..|events| - 1], events[|events| - 1];
      assert events == before + [e];
      CountsAlongRun(s, before);
      RunSplits(s, before, [e]);
      RunOne(Run(s, before), e);
      NextKeepsCount(Run(s, before), e);
      assert forall k :: 0 <= k < |before| ==> before[..k] == events[..k] && before[k] == events[k];
      assert NeverOverwrites(s, events) <==> NeverOverwrites(s, before) && !OverwritesACount(Run(s, before), e);
    }
  }

  /**
   In every run the stored count is the number of wrong codes counted if and only
   if none was written on top of another counted since its own read.
   */
  lemma AllCountedIffNeverOverwritten(expiresAt: int, clock: int, events: seq<Event>)
    ensures var s := Run(Fresh(expiresAt, clock), events);
            s.row.failures == s.counted <==> NeverOverwrites(Fresh(expiresAt, clock), events)
  {
    CountsAlongRun(Fresh(expiresAt, clock), events);
  }

  lemma {:induction false} TraceIsRun(states: seq<State>, events: seq<Event>)
    requires |states| == |events| + 1 && forall i :: 0 <= i < |events| ==> Next(states[i], events[i]) == states[i + 1]
    ensures Run(states[0], events) == states[|events|]
    decreases |events|
  {
    if events != [] {
      TraceIsRun(states[1..], events[1..]);
    }
  }

  /** A request can be credited and yet end up stored as expired: the poll's late write wins. */
  lemma CreditedYetExpired() returns (events: seq<Event>)
    ensures var s := Run(Fresh(10, 0), events); s.credits == 1 && s.row.status == Expired
  {
    var open := Row(Pending, 0, 10);
    var good := Some(Owner(true, true, false, false));
    events := [Begin(1), Load(1), CheckOwner(1, good), RightCode(1), Reload(1), Tick(10), Begin(2), Peek(2), Credit(1),
               MarkExpired(2)];
    var states := [
      Fresh(10, 0),
      State(open, map[1 := Start], 0, 0, 0, None),
      State(open, map[1 := Loaded], 0, 0, 0, None),
      State(open, map[1 := Owned], 0, 0, 0, None),
      State(open, map[1 := Verified], 0, 0, 0, None),
      State(open, map[1 := Crediting(0)], 0, 0, 0, None),
      State(open, map[1 := Crediting(0)], 10, 0, 0, None),
      State(open, map[1 := Crediting(0), 2 := Start], 10, 0, 0, None),
      State(open, map[1 := Crediting(0), 2 := Peeked], 10, 0, 0, None),
      State(Row(Completed, 0, 10), map[1 := Over, 2 := Peeked], 10, 1, 0, Some(0)),
      State(Row(Expired, 0, 10), map[1 := Over, 2 := Over], 10, 1, 0, Some(0))];
    TraceIsRun(states, events);
  }

  /** Two attempts have a wrong code rejected before either count is read. */
  lemma TwoRejected() returns (events: seq<Event>)
    ensures Run(Fresh(10, 0), events) == State(Row(Pending, 0, 10), map[1 := Rejected, 2 := Rejected], 0, 0, 0, None)
  {
    var open := Row(Pending, 0, 10);
    var good := Some(Owner(true, true, false, false));
    events := [Begin(1), Load(1), CheckOwner(1, good), WrongCode(1, false),
               Begin(2), Load(2), CheckOwner(2, good), WrongCode(2, false)];
    var states := [
      Fresh(10, 0),
      State(open, map[1 := Start], 0, 0, 0, None),
      State(open, map[1 := Loaded], 0, 0, 0, None),
      State(open, map[1 := Owned], 0, 0, 0, None),
      State(open, map[1 := Rejected], 0, 0, 0, None),
      State(open, map[1 := Rejected, 2 := Start], 0, 0, 0, None),
      State(open, map[1 := Rejected, 2 := Loaded], 0, 0, 0, None),
      State(open, map[1 := Rejected, 2 := Owned], 0, 0, 0, None),
      State(open, map[1 := Rejected, 2 := Rejected], 0, 0, 0, None)];
    TraceIsRun(states, events);
  }

  /** Both counts are read before either is written. */
  lemma BothRead() returns (events: seq<Event>)
    ensures Run(Fresh(10, 0), events) ==
            State(Row(Pending, 0, 10), map[1 := Wrong(false, 0, 0), 2 := Wrong(false, 0, 0)], 0, 0, 0, None)
  {
    var open := Row(Pending, 0, 10);
    var before := TwoRejected();
    var states := [
      State(open, map[1 := Rejected, 2 := Rejected], 0, 0, 0, None),
      State(open, map[1 := Wrong(false, 0, 0), 2 := Rejected], 0, 0, 0, None),
      State(open, map[1 := Wrong(false, 0, 0), 2 := Wrong(false, 0, 0)], 0, 0, 0, None)];
    TraceIsRun(states, [Reread(1), Reread(2)]);
    RunSplits(Fresh(10, 0), before, [Reread(1), Reread(2)]);
    events := before + [Reread(1), Reread(2)];
  }

  lemma FirstCounted()
    ensures Next(State(Row(Pending, 0, 10), map[1 := Wrong(false, 0, 0), 2 := Wrong(false, 0, 0)], 0, 0, 0, None),
                 CountWrong(1)) ==
            State(Row(Pending, 1, 10), map[1 := Over, 2 := Wrong(false, 0, 0)], 0, 0, 1, None)
  {
  }

  /** Two wrong codes tried together can be counted once. */
  lemma WrongCodesCanBeLost() returns (events: seq<Event>)
    ensures var s := Run(Fresh(10, 0), events); s.counted == 2 && s.row.failures == 1
  {
    var before := BothRead();
    var more := [CountWrong(1), CountWrong(2)];
    var read := State(Row(Pending, 0, 10), map[1 := Wrong(false, 0, 0), 2 := Wrong(false, 0, 0)], 0, 0, 0, None);
    FirstCounted();
    var once := Next(read, CountWrong(1));
    assert Run(read, more) == Run(once, more[1..]) == Next(once, CountWrong(2));
    RunSplits(Fresh(10, 0), before, more);
    events := before + more;
  }

  // ----- when each event takes effect

  predicate InPhase(s: State, a: nat, p: Phase) {
    a in s.attempts && s.attempts[a] == p
  }

  /** Nobody else has the row locked. */
  predicate Unlocked(s: State, a: nat) {
    forall b :: b in s.attempts && b != a ==>
      !s.attempts[b].Loaded? && !s.attempts[b].Owned? && !s.attempts[b].Crediting?
      && !(s.attempts[b].Wrong? && s.attempts[b].locked)
  }

  /** A locked load, first or second, goes on exactly with a request that is pending and not overdue. */
  lemma LoadAnswers(s: State, a: nat)
    requires InPhase(s, a, Start) || InPhase(s, a, Verified)
    ensures var open, overdue := s.row.status == Pending && s.clock < s.row.expiresAt,
                                 s.row.status == Pending && s.clock >= s.row.expiresAt;
            var e, goesOn := if InPhase(s, a, Start) then Load(a) else Reload(a),
                             if InPhase(s, a, Start) then Loaded else Crediting(s.clock);
            Next(s, e) ==
              if !Unlocked(s, a) then s
              else if open then s.(attempts := s.attempts[a := goesOn])
              else s.(attempts := s.attempts[a := Over],
                      row := if overdue then s.row.(status := Expired) else s.row)
  {
  }

  /** An owner passes exactly as an active customer who is neither frozen nor locked; anyone else fails the request. */
  lemma OwnerAnswers(s: State, a: nat, owner: Option<Owner>)
    requires InPhase(s, a, Loaded)
    ensures Next(s, CheckOwner(a, owner)) ==
            if owner == Some(Owner(true, true, false, false)) then s.(attempts := s.attempts[a := Owned])
            else s.(attempts := s.attempts[a := Over], row := s.row.(status := Failed))
  {
  }

  /** A credit is committed exactly by an attempt that has reloaded the row; a wrong code fails the request at five. */
  lemma WriteAnswers(s: State, a: nat)
    ensures Next(s, Credit(a)).credits == s.credits + 1 <==> a in s.attempts && s.attempts[a].Crediting?
    ensures Next(s, Credit(a)).credits != s.credits ==> Next(s, Credit(a)).row == s.row.(status := Completed)
    ensures a in s.attempts && s.attempts[a].Wrong? && Unlocked(s, a) ==>
              Next(s, CountWrong(a)).row ==
              Row(if s.attempts[a].seen + 1 >= 5 then Failed else s.row.status, s.attempts[a].seen + 1, s.row.expiresAt)
    ensures a in s.attempts && s.attempts[a].Refused? && Unlocked(s, a) ==>
              Next(s, MarkFailed(a)).row == s.row.(status := Failed)
    ensures a in s.attempts && s.attempts[a].Peeked? && Unlocked(s, a) ==>
              Next(s, MarkExpired(a)).row == s.row.(status := Expired)
  {
  }

  /** A poll goes on to mark the row exactly if it saw a pending request past its expiry. */
  lemma PeekAnswers(s: State, a: nat)
    requires InPhase(s, a, Start)
    ensures Next(s, Peek(a)) == s.(attempts := s.attempts[a :=
              if s.row.status == Pending && s.row.expiresAt <= s.clock then Peeked else Over])
  {
  }

  /**
   A wrong code under the lock carries the count read under it; without the lock the
   count is read again later. An attempt that leaves touches nothing but itself.
   */
  lemma CodeAnswers(s: State, a: nat, keepsLock: bool)
    requires a in s.attempts
    ensures var phase, put := s.attempts[a], (p: Phase) => s.(attempts := s.attempts[a := p]);
            && Next(s, RightCode(a)) == (if phase == Owned then put(Verified) else s)
            && Next(s, WrongCode(a, keepsLock)) ==
               (if phase != Owned then s
                else put(if keepsLock then Wrong(true, s.row.failures, s.counted) else Rejected))
            && Next(s, Leave(a)) ==
               (if phase in {Loaded, Owned} || phase.Crediting? then put(Over) else s)
  {
  }

  // ----- what a credit rests on

  /** The attempts whose owner passed, and those of them whose code was right. */
  function PassedOwner(s: State, events: seq<Event>): set<nat>
    decreases |events|
  {
    if events == [] then {}
    else (if OwnerPasses(s, events[0]) then {events[0].a} else {}) + PassedOwner(Next(s, events[0]), events[1..])
  }

  function GaveRightCode(events: seq<Event>): set<nat> {
    set e | e in events && e.RightCode? :: e.a
  }

  predicate OwnerPasses(s: State, e: Event) {
    e.CheckOwner? && e.owner == Some(Owner(true, true, false, false)) && InPhase(s, e.a, Loaded)
  }

  predicate PastOwner(p: Phase) {
    p.Owned? || p.Rejected? || p.Wrong? || p.Verified? || p.Crediting? || p.Refused?
  }

  predicate PastCode(p: Phase) {
    p.Verified? || p.Crediting? || p.Refused?
  }

  lemma StepRests(s: State, e: Event, a: nat)
    requires a in Next(s, e).attempts
    ensures var after := Next(s, e).attempts[a];
            && (PastOwner(after) ==>
                  (OwnerPasses(s, e) && e.a == a) || (a in s.attempts && PastOwner(s.attempts[a])))
            && (PastCode(after) ==> e == RightCode(a) || (a in s.attempts && PastCode(s.attempts[a])))
  {
  }

  lemma {:induction false} PhasesRest(s: State, events: seq<Event>, a: nat)
    ensures var t := Run(s, events);
            && (a in t.attempts && PastOwner(t.attempts[a]) ==>
                  a in PassedOwner(s, events) || (a in s.attempts && PastOwner(s.attempts[a])))
            && (a in t.attempts && PastCode(t.attempts[a]) ==>
                  a in GaveRightCode(events) || (a in s.attempts && PastCode(s.attempts[a])))
    decreases |events|
  {
    if events != [] {
      PhasesRest(Next(s, events[0]), events[1..], a);
      if a in Next(s, events[0]).attempts {
        StepRests(s, events[0], a);
      }
      assert forall e :: e in events[1..] ==> e in events;
      assert events[0] in events;
    }
  }

  /** In every run an attempt that credits had an eligible owner checked under the row's lock, then a right code. */
  lemma CreditNeedsOwnerAndCode(expiresAt: int, clock: int, events: seq<Event>, a: nat)
    requires var s := Run(Fresh(expiresAt, clock), events); Next(s, Credit(a)).credits != s.credits
    ensures a in PassedOwner(Fresh(expiresAt, clock), events) && a in GaveRightCode(events)
  {
    PhasesRest(Fresh(expiresAt, clock), events, a);
  }
}
