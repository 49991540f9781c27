/**
 Staff invite acceptance. A start creates or reuses the setup user, stores a new
 TOTP secret, mails a workplace code and binds the invite to a browser session; a
 verify checks session, TOTP and code, counts what is wrong and activates the
 account; root admins reset, reissue or revoke. The log lists what was committed.
 */
module InviteAcceptance {
  import opened Sums

  type Key = nat

  /** Keyed digests, symbolic: equal only for equal keys and equal messages. */
  datatype Digest = Digest(key: Key, message: Message)
  datatype Message = SessionMessage(session: nat) | TokenMessage(token: nat) | CodeMessage(tokenHash: Digest, code: nat)

  datatype Status = Pending | TotpPending | Accepted | Revoked | Expired

  datatype Setup = Setup(secret: nat, startedAt: int, bindingKey: Key)
  datatype SetupUser = SetupUser(setup: Option<Setup>, active: bool)
  datatype WorkplaceCode = WorkplaceCode(digest: Digest, expiresAt: int)

  datatype Row = Row(
    tokenHash: Digest, status: Status, expiresAt: int, revoked: bool, used: bool, user: Option<SetupUser>,
    session: Option<Digest>, starts: nat, startLocked: bool, wrong: nat, verifyLocked: bool,
      code: Option<WorkplaceCode>)

  datatype Policy = Policy(setupMaxAge: nat, codeTtl: nat, inviteTtl: nat)

  datatype Context = Context(policy: Policy, key: Key, now: int)

  const MAX_STARTS: nat := 3
  const MAX_WRONG: nat := 5

  /** How a start that got past its checks ended: crashes come after the commit inside encryption. */
  datatype Ending = Mailed | MailFailed(cleaned: bool) | Crashed

  datatype StartRequest = StartRequest(
    token: nat, session: nat, detailsOk: bool, duplicate: bool, audited: bool, secret: nat, code: nat, ending: Ending)

  datatype Totp = BadFormat | From(secret: nat) | Replayed | BackedOff

  datatype VerifyRequest = VerifyRequest(token: nat, session: Option<nat>, totp: Totp, code: nat, audited: bool)

  datatype Entry =
    | Started(session: nat, secret: nat, code: nat)
    | WrongCode
    | Activated(session: nat, secret: nat, code: nat)
    | ResetByRoot

  datatype Outcome = Outcome(row: Row, entry: Option<Entry>)

  function SessionHash(c: Context, session: nat): Digest { Digest(c.key, SessionMessage(session)) }
  function TokenHash(c: Context, token: nat): Digest { Digest(c.key, TokenMessage(token)) }
  function CodeHash(c: Context, tokenHash: Digest, code: nat): Digest { Digest(c.key, CodeMessage(tokenHash, code)) }

  predicate IsActive(s: Status) { s.Pending? || s.TotpPending? }
  predicate Locked(r: Row) { r.startLocked || r.verifyLocked }

  /** The lookup by token: an expired invite is marked so, whatever it was before. */
  predicate Usable(r: Row, c: Context, token: nat) {
    r.tokenHash == TokenHash(c, token) && c.now < r.expiresAt && !r.revoked && !r.used && IsActive(r.status)
  }

  function LookedUp(r: Row, c: Context, token: nat): Row {
    if r.tokenHash == TokenHash(c, token) && r.expiresAt <= c.now then r.(status := Expired) else r
  }

  function Cleared(r: Row): Row {
    r.(session := None, starts := 0, startLocked := false, wrong := 0, verifyLocked := false, code := None)
  }

  // ----- start

  datatype Gate = Refuse(row: Row) | Admit(row: Row, created: bool)

  /** Everything up to and including the commit that the audit inside encryption makes. */
  function OpenStart(r: Row, c: Context, q: StartRequest): Gate {
    if !Usable(r, c, q.token) then Refuse(LookedUp(r, c, q.token))
    else if Locked(r) || (r.session.Some? && r.session.value != SessionHash(c, q.session)) then Refuse(r)
    else if r.starts >= MAX_STARTS then Refuse(r.(startLocked := q.audited))
    else if !q.detailsOk then Refuse(r)
    else if r.user.None? then
      (if q.duplicate then Refuse(r) else Admit(r.(user := Some(SetupUser(None, false))), true))
    else if r.user.value.active then Refuse(r)
    else Admit(r, false)
  }

  /** The final commit of a start, which counts from `starts` as it read it. */
  function CloseStart(r: Row, c: Context, q: StartRequest, starts: nat): Row {
    var user := if r.user.None? then None
      else Some(SetupUser(Some(Setup(q.secret, c.now, c.key)), r.user.value.active));
    r.(user := user, status := TotpPending,
       session := Some(SessionHash(c, q.session)), starts := starts + 1,
       code := Some(WorkplaceCode(CodeHash(c, r.tokenHash, q.code), c.now + c.policy.codeTtl)))
  }

  function Start(r: Row, c: Context, q: StartRequest): Outcome {
    var gate := OpenStart(r, c, q);
    if gate.Refuse? then Outcome(gate.row, None)
    else
      match q.ending
      case Mailed => Outcome(CloseStart(gate.row, c, q, gate.row.starts), Some(Started(q.session, q.secret, q.code)))
      case MailFailed(cleaned) =>
        Outcome(if gate.created && cleaned then Cleared(gate.row.(user := None, status := Pending)) else gate.row, None)
      case Crashed => Outcome(gate.row, None)
  }

  // ----- verify

  predicate SetupActive(u: SetupUser, c: Context) {
    u.setup.Some? && 0 <= c.now - u.setup.value.startedAt <= c.policy.setupMaxAge && u.setup.value.bindingKey == c.key
  }

  predicate CodeMatches(r: Row, c: Context, code: nat) {
    r.code.Some? && c.now < r.code.value.expiresAt && r.code.value.digest == CodeHash(c, r.tokenHash, code)
  }

  predicate Admitted(r: Row, c: Context, q: VerifyRequest) {
    && Usable(r, c, q.token) && !Locked(r)
    && r.session.Some? && q.session.Some? && r.session.value == SessionHash(c, q.session.value)
    && r.user.Some? && !r.user.value.active
  }

  /** If the audit of a wrong code cannot be written, the count is rolled back with it. */
  function CountWrong(r: Row, audited: bool): Outcome {
    if !audited then Outcome(r, None)
    else Outcome(r.(wrong := r.wrong + 1, verifyLocked := r.verifyLocked || r.wrong + 1 >= MAX_WRONG), Some(WrongCode))
  }

  function Verify(r: Row, c: Context, q: VerifyRequest): Outcome {
    if !Usable(r, c, q.token) then Outcome(LookedUp(r, c, q.token), None)
    else if !Admitted(r, c, q) then Outcome(r, None)
    else if !SetupActive(r.user.value, c) then
      Outcome(r.(user := Some(r.user.value.(setup := None)), status := Pending), None)
    else if q.totp.Replayed? || q.totp.BackedOff? then Outcome(r, None)
    else if q.totp.BadFormat? || q.totp.secret != r.user.value.setup.value.secret || !CodeMatches(r, c, q.code) then
      CountWrong(r, q.audited)
    else if !q.audited then Outcome(r, None)
    else
      Outcome(Cleared(r).(user := Some(r.user.value.(active := true)), status := Accepted, used := true),
              Some(Activated(q.session.value, q.totp.secret, q.code)))
  }

  // ----- root actions

  /** A reset deletes the setup user; it is refused once the account is active. */
  predicate Resettable(r: Row) {
    IsActive(r.status) && (r.user.Some? ==> !r.user.value.active)
  }

  function Reset(r: Row): Outcome {
    if Resettable(r) then Outcome(Cleared(r).(user := None, status := Pending), Some(ResetByRoot)) else Outcome(r, None)
  }

  function Reissue(r: Row, c: Context, token: nat, mailed: bool): Outcome {
    if Resettable(r) && mailed then
      Outcome(Cleared(r).(user := None, status := Pending, tokenHash := TokenHash(c, token), revoked := false,
                          expiresAt := c.now + c.policy.inviteTtl), Some(ResetByRoot))
    else Outcome(r, None)
  }

  function Revoke(r: Row): Row {
    if IsActive(r.status) then r.(status := Revoked, revoked := true) else r
  }

  /** The stored invite, updated field by field as the services do. */
  class Invite {
    var tokenHash: Digest
    var status: Status
    var expiresAt: int
    var revoked: bool
    var used: bool
    var user: Option<SetupUser>
    var session: Option<Digest>
    var starts: nat
    var startLocked: bool
    var wrong: nat
    var verifyLocked: bool
    var code: Option<WorkplaceCode>

    function View(): Row
      reads this
    {
      Row(tokenHash, status, expiresAt, revoked, used, user, session, starts, startLocked, wrong, verifyLocked, code)
    }

    constructor (hash: Digest, expiry: int)
      ensures View() == Row(hash, Pending, expiry, false, false, None, None, 0, false, 0, false, None)
    {
      tokenHash, status, expiresAt, revoked, used := hash, Pending, expiry, false, false;
      user, session, starts, startLocked := None, None, 0, false;
      wrong, verifyLocked, code := 0, false, None;
    }

    method ClearAcceptanceState()
      modifies this
      ensures View() == Cleared(old(View()))
    {
      session := None;
      starts := 0;
      startLocked := false;
      wrong := 0;
      verifyLocked := false;
      code := None;
    }

    method StartAcceptance(c: Context, q: StartRequest) returns (done: bool)
      modifies this
      ensures View() == Start(old(View()), c, q).row
      ensures done == Start(old(View()), c, q).entry.Some?
    {
      if tokenHash != TokenHash(c, q.token) {
        return false;
      }
      if expiresAt <= c.now {
        status := Expired;
        return false;
      }
      if revoked || used || !(status.Pending? || status.TotpPending?) || startLocked || verifyLocked {
        return false;
      }
      if session.Some? && session.value != SessionHash(c, q.session) {
        return false;
      }
      if starts >= MAX_STARTS {
        startLocked := q.audited;
        return false;
      }
      if !q.detailsOk {
        return false;
      }
      var created := user.None?;
      if created {
        if q.duplicate {
          return false;
        }
        user := Some(SetupUser(None, false));
      } else if user.value.active {
        return false;
      }
      if q.ending.Crashed? {
        return false;
      }
      if q.ending.MailFailed? {
        if created && q.ending.cleaned {
          user := None;
          status := Pending;
          ClearAcceptanceState();
        }
        return false;
      }
      user := Some(SetupUser(Some(Setup(q.secret, c.now, c.key)), false));
      status := TotpPending;
      session := Some(SessionHash(c, q.session));
      starts := starts + 1;
      code := Some(WorkplaceCode(CodeHash(c, tokenHash, q.code), c.now + c.policy.codeTtl));
      return true;
    }

    method RecordVerifyFailure(audited: bool)
      modifies this
      ensures View() == CountWrong(old(View()), audited).row
    {
      if audited {
        wrong := wrong + 1;
        if wrong >= MAX_WRONG {
          verifyLocked := true;
        }
      }
    }

    method VerifyAcceptance(c: Context, q: VerifyRequest) returns (activated: bool)
      modifies this
      ensures View() == Verify(old(View()), c, q).row
      ensures activated <==> Verify(old(View()), c, q).entry.Some? && Verify(old(View()), c, q).entry.value.Activated?
    {
      if tokenHash != TokenHash(c, q.token) {
        return false;
      }
      if expiresAt <= c.now {
        status := Expired;
        return false;
      }
      if revoked || used || !(status.Pending? || status.TotpPending?) || startLocked || verifyLocked {
        return false;
      }
      if session.None? || q.session.None? || session.value != SessionHash(c, q.session.value) {
        return false;
      }
      if user.None? || user.value.active {
        return false;
      }
      if !SetupActive(user.value, c) {
        user := Some(user.value.(setup := None));
        status := Pending;
        return false;
      }
      if q.totp.Replayed? || q.totp.BackedOff? {
        return false;
      }
      if q.totp.BadFormat? || q.totp.secret != user.value.setup.value.secret
         || code.None? || code.value.expiresAt <= c.now || code.value.digest != CodeHash(c, tokenHash, q.code) {
        RecordVerifyFailure(q.audited);
        return false;
      }
      if !q.audited {
        return false;
      }
      ClearAcceptanceState();
      user := Some(user.value.(active := true));
      status := Accepted;
      used := true;
      return true;
    }
  }

  // ----- runs

  datatype Event =
    | Tick(elapsed: nat)
    | Rotate(key: Key)
    | StartCall(start: StartRequest)
    | VerifyCall(verify: VerifyRequest)
    | ResetCall
    | ReissueCall(token: nat, mailed: bool)
    | RevokeCall

  datatype State = State(row: Row, context: Context, log: seq<Entry>)

  function Record(s: State, o: Outcome): State {
    s.(row := o.row, log := if o.entry.Some? then s.log + [o.entry.value] else s.log)
  }

  function Next(s: State, e: Event): State {
    match e
    case Tick(elapsed) => s.(context := s.context.(now := s.context.now + elapsed))
    case Rotate(key) => s.(context := s.context.(key := key))
    case StartCall(q) => Record(s, Start(s.row, s.context, q))
    case VerifyCall(q) => Record(s, Verify(s.row, s.context, q))
    case ResetCall => Record(s, Reset(s.row))
    case ReissueCall(token, mailed) => Record(s, Reissue(s.row, s.context, token, mailed))
    case RevokeCall => s.(row := Revoke(s.row))
  }

  /** A new invite; one resent to an account that never finished its setup starts with that setup user. */
  function Issued(c: Context, token: nat, resent: bool): State {
    var user := if resent then Some(SetupUser(None, false)) else None;
    State(Row(TokenHash(c, token), Pending, c.now + c.policy.inviteTtl, false, false, user, None, 0, false, 0, false,
      None), c, [])
  }

  function Run(first: State, events: seq<Event>): State {
    if events == [] then first else Next(Run(first, events[..|events| - 1]), events[|events| - 1])
  }

  // ----- the log since the last root reset

  function StartsSince(log: seq<Entry>): nat {
    if log == [] || log[|log| - 1].ResetByRoot? then 0
    else StartsSince(log[..|log| - 1]) + if log[|log| - 1].Started? then 1 else 0
  }

  function WrongSince(log: seq<Entry>): nat {
    if log == [] || log[|log| - 1].ResetByRoot? then 0
    else WrongSince(log[..|log| - 1]) + if log[|log| - 1].WrongCode? then 1 else 0
  }

  function FirstStart(log: seq<Entry>): (e: Option<Entry>)
    ensures e.Some? <==> StartsSince(log) > 0
    ensures e.Some? ==> e.value.Started?
  {
    if log == [] || log[|log| - 1].ResetByRoot? then None
    else
      var earlier := FirstStart(log[..|log| - 1]);
      if earlier.Some? then earlier
      else if log[|log| - 1].Started? then Some(log[|log| - 1]) else None
  }

  function LatestStart(log: seq<Entry>): (e: Option<Entry>)
    ensures e.Some? <==> StartsSince(log) > 0
    ensures e.Some? ==> e.value.Started?
  {
    if log == [] || log[|log| - 1].ResetByRoot? then None
    else if log[|log| - 1].Started? then Some(log[|log| - 1])
    else LatestStart(log[..|log| - 1])
  }

  // ----- invariants

  /** Counters agree with the log; without a setup user there is nothing to count. */
  predicate CountersOk(s: State) {
    !s.row.used ==>
      && s.row.starts == StartsSince(s.log) <= MAX_STARTS
      && s.row.wrong == WrongSince(s.log) <= MAX_WRONG
      && (s.row.verifyLocked <==> s.row.wrong == MAX_WRONG)
      && (s.row.startLocked ==> s.row.starts == MAX_STARTS)
      && (s.row.user.None? ==> s.row.starts == 0 && s.row.wrong == 0)
      && (s.row.session.Some? <==> s.row.starts > 0)
  }

  /** What is bound to the invite comes from the first start (session) and the latest (secret, code). */
  predicate BindingOk(s: State) {
    s.row.used || (
      && (s.row.session.Some? ==>
            FirstStart(s.log).Some? && s.row.session.value.message == SessionMessage(FirstStart(s.log).value.session))
      && (s.row.user.Some? && s.row.user.value.setup.Some? ==>
            LatestStart(s.log).Some? && s.row.user.value.setup.value.secret == LatestStart(s.log).value.secret)
      && (s.row.code.Some? ==>
            LatestStart(s.log).Some? && s.row.code.value.digest.message ==
                                             CodeMessage(s.row.tokenHash, LatestStart(s.log).value.code))
      && (s.row.user.Some? ==> !s.row.user.value.active)
      && (s.row.user.None? ==> s.row.code.None?))
  }

  predicate EntryOk(before: seq<Entry>, e: Entry) {
    && (e.Started? ==> StartsSince(before) < MAX_STARTS && WrongSince(before) < MAX_WRONG)
    && (e.Started? && FirstStart(before).Some? ==> e.session == FirstStart(before).value.session)
    && (e.WrongCode? ==> WrongSince(before) < MAX_WRONG)
    && (e.Activated? ==>
          && FirstStart(before).Some? && LatestStart(before).Some? && WrongSince(before) < MAX_WRONG
          && e.session == FirstStart(before).value.session
          && e.secret == LatestStart(before).value.secret && e.code == LatestStart(before).value.code)
  }

  ghost predicate LogOk(log: seq<Entry>) {
    forall j :: 0 <= j < |log| ==> EntryOk(log[..j], log[j])
  }

  /** How one more entry changes the summaries of the log. */
  lemma Appended(log: seq<Entry>, e: Entry)
    ensures StartsSince(log + [e]) == if e.ResetByRoot? then 0 else StartsSince(log) + if e.Started? then 1 else 0
    ensures WrongSince(log + [e]) == if e.ResetByRoot? then 0 else WrongSince(log) + if e.WrongCode? then 1 else 0
    ensures LatestStart(log + [e]) == if e.ResetByRoot? then None else if e.Started? then Some(e) else LatestStart(log)
    ensures FirstStart(log + [e]) ==
            if e.ResetByRoot? then None else if FirstStart(log).None? && e.Started? then Some(e) else FirstStart(log)
    ensures LogOk(log) && EntryOk(log, e) ==> LogOk(log + [e])
  {
    assert (log + [e])[..|log|] == log;
    if LogOk(log) && EntryOk(log, e) {
      forall j | 0 <= j < |log + [e]| ensures EntryOk((log + [e])[..j], (log + [e])[j]) {
        assert (log + [e])[..j] == log[..j];
        assert j == |log| ==> log[..j] == log;
      }
    }
  }

  function EntryOf(s: State, e: Event): Option<Entry> {
    match e
    case StartCall(q) => Start(s.row, s.context, q).entry
    case VerifyCall(q) => Verify(s.row, s.context, q).entry
    case ResetCall => Reset(s.row).entry
    case ReissueCall(token, mailed) => Reissue(s.row, s.context, token, mailed).entry
    case _ => None
  }

  lemma NextLog(s: State, e: Event)
    ensures Next(s, e).log == if EntryOf(s, e).Some? then s.log + [EntryOf(s, e).value] else s.log
  {
  }

  lemma StartKeepsCounters(s: State, q: StartRequest)
    requires CountersOk(s) && BindingOk(s)
    ensures CountersOk(Record(s, Start(s.row, s.context, q)))
  {
    var o := Start(s.row, s.context, q);
    if o.entry.Some? {
      Appended(s.log, o.entry.value);
    }
  }

  lemma VerifyKeepsCounters(s: State, q: VerifyRequest)
    requires CountersOk(s) && BindingOk(s)
    ensures CountersOk(Record(s, Verify(s.row, s.context, q)))
  {
    var o := Verify(s.row, s.context, q);
    if o.entry.Some? {
      Appended(s.log, o.entry.value);
    }
  }

  lemma NextKeepsCounters(s: State, e: Event)
    requires CountersOk(s) && BindingOk(s)
    ensures CountersOk(Next(s, e))
  {
    match e
    case StartCall(q) => StartKeepsCounters(s, q);
    case VerifyCall(q) => VerifyKeepsCounters(s, q);
    case ResetCall => Appended(s.log, ResetByRoot);
    case ReissueCall(_, _) => Appended(s.log, ResetByRoot);
    case _ =>
  }

  lemma StartKeepsBinding(s: State, q: StartRequest)
    requires CountersOk(s) && BindingOk(s)
    ensures BindingOk(Record(s, Start(s.row, s.context, q)))
  {
    var o := Start(s.row, s.context, q);
    if o.entry.Some? {
      Appended(s.log, o.entry.value);
    }
  }

  lemma VerifyKeepsBinding(s: State, q: VerifyRequest)
    requires CountersOk(s) && BindingOk(s)
    ensures BindingOk(Record(s, Verify(s.row, s.context, q)))
  {
    var o := Verify(s.row, s.context, q);
    if o.entry.Some? {
      Appended(s.log, o.entry.value);
    }
  }

  lemma NextKeepsBinding(s: State, e: Event)
    requires CountersOk(s) && BindingOk(s)
    ensures BindingOk(Next(s, e))
  {
    match e
    case StartCall(q) => StartKeepsBinding(s, q);
    case VerifyCall(q) => VerifyKeepsBinding(s, q);
    case ResetCall => Appended(s.log, ResetByRoot);
    case ReissueCall(_, _) => Appended(s.log, ResetByRoot);
    case _ =>
  }

  lemma NextKeepsLog(s: State, e: Event)
    requires CountersOk(s) && BindingOk(s) && LogOk(s.log)
    ensures LogOk(Next(s, e).log)
  {
    NextLog(s, e);
    if EntryOf(s, e).Some? {
      var entry := EntryOf(s, e).value;
      assert EntryOk(s.log, entry);
      Appended(s.log, entry);
    }
  }

  lemma {:induction false} RunKeeps(c: Context, token: nat, resent: bool, events: seq<Event>)
    ensures var s := Run(Issued(c, token, resent), events); CountersOk(s) && BindingOk(s) && LogOk(s.log)
  {
    if events != [] {
      var s, e := Run(Issued(c, token, resent), events[..|events| - 1]), events[|events| - 1];
      RunKeeps(c, token, resent, events[..|events| - 1]);
      NextKeepsCounters(s, e);
      NextKeepsBinding(s, e);
      NextKeepsLog(s, e);
    }
  }

  // ----- main results

  function Count(log: seq<Entry>, starts: bool): nat {
    if log == [] then 0
    else Count(log[..|log| - 1], starts) + if (if starts then log[|log| - 1].Started? else log[|log| - 1].WrongCode?)
      then 1 else 0
  }

  lemma {:induction false} StretchWithinLimits(log: seq<Entry>, i: nat, j: nat)
    requires LogOk(log) && i <= j <= |log| && forall k :: i <= k < j ==> !log[k].ResetByRoot?
    ensures Count(log[i..j], true) <= StartsSince(log[..j]) <= MAX_STARTS
    ensures Count(log[i..j], false) <= WrongSince(log[..j]) <= MAX_WRONG
  {
    if j > i {
      StretchWithinLimits(log, i, j - 1);
      assert log[i..j][..j - 1 - i] == log[i..j - 1] && log[..j][..j - 1] == log[..j - 1];
      assert EntryOk(log[..j - 1], log[j - 1]);
    } else {
      PrefixWithinLimits(log, j);
    }
  }

  lemma {:induction false} PrefixWithinLimits(log: seq<Entry>, j: nat)
    requires LogOk(log) && j <= |log|
    ensures StartsSince(log[..j]) <= MAX_STARTS && WrongSince(log[..j]) <= MAX_WRONG
  {
    if j > 0 {
      PrefixWithinLimits(log, j - 1);
      assert log[..j][..j - 1] == log[..j - 1];
      assert EntryOk(log[..j - 1], log[j - 1]);
    }
  }

  /** Between two root resets: at most three committed starts and five counted wrong codes. */
  lemma AttemptsBetweenResets(c: Context, token: nat, resent: bool, events: seq<Event>, i: nat, j: nat)
    requires var log := Run(Issued(c, token, resent), events).log;
             i <= j <= |log| && forall k :: i <= k < j ==> !log[k].ResetByRoot?
    ensures var log := Run(Issued(c, token, resent), events).log;
            Count(log[i..j], true) <= 3 && Count(log[i..j], false) <= 5
  {
    RunKeeps(c, token, resent, events);
    StretchWithinLimits(Run(Issued(c, token, resent), events).log, i, j);
  }

  /**
   An account is activated only from the session of the first start since the
   last reset, with the secret and the code of the latest one.
   */
  lemma ActivationIsBound(c: Context, token: nat, resent: bool, events: seq<Event>, j: nat)
    requires var log := Run(Issued(c, token, resent), events).log; j < |log| && log[j].Activated?
    ensures var log := Run(Issued(c, token, resent), events).log;
            var first, latest := FirstStart(log[..j]), LatestStart(log[..j]);
            && first.Some? && latest.Some?
            && log[j].session == first.value.session == latest.value.session
            && log[j].secret == latest.value.secret && log[j].code == latest.value.code
  {
    var log := Run(Issued(c, token, resent), events).log;
    RunKeeps(c, token, resent, events);
    assert EntryOk(log[..j], log[j]);
    LatestSharesSession(log, j);
  }

  lemma {:induction false} LatestSharesSession(log: seq<Entry>, j: nat)
    requires LogOk(log) && j <= |log| && LatestStart(log[..j]).Some?
    ensures LatestStart(log[..j]).value.session == FirstStart(log[..j]).value.session
  {
    if j > 0 {
      assert log[..j][..j - 1] == log[..j - 1];
      assert EntryOk(log[..j - 1], log[j - 1]);
      if !log[j - 1].Started? && !log[j - 1].ResetByRoot? {
        LatestSharesSession(log, j - 1);
      }
    }
  }

  predicate ByRoot(e: Event) {
    e.ResetCall? || e.ReissueCall?
  }

  predicate Finished(r: Row) {
    r.used && r.user.Some? && r.user.value.active
  }

  /** Nothing committed since: same log, same counters, same setup user, and still locked if it was. */
  predicate Unmoved(s: State, t: State) {
    && t.log == s.log && t.row.user == s.row.user && t.row.used == s.row.used
    && t.row.starts == s.row.starts && t.row.wrong == s.row.wrong
    && t.row.startLocked == s.row.startLocked && t.row.verifyLocked == s.row.verifyLocked
  }

  lemma ClosedInviteIsUnmoved(s: State, e: Event)
    requires Finished(s.row) || (Locked(s.row) && !ByRoot(e))
    ensures Unmoved(s, Next(s, e))
  {
  }

  /** Once locked, or used, nothing is committed until a root admin resets the invite; a used one not even then. */
  lemma {:induction false} LockedUntilReset(first: State, events: seq<Event>)
    requires Finished(first.row) || (Locked(first.row) && forall i :: 0 <= i < |events| ==> !ByRoot(events[i]))
    ensures Unmoved(first, Run(first, events))
  {
    if events != [] {
      LockedUntilReset(first, events[..|events| - 1]);
      ClosedInviteIsUnmoved(Run(first, events[..|events| - 1]), events[|events| - 1]);
    }
  }
}
