/**
 Any number of transfers in flight at once. A session works through its call in
 separate steps (lock the pending row, lock the two user rows in ascending id,
 sum the usage and check, take the row's timestamp, commit), acting only on the
 rows it read when it locked them; other sessions, top-ups, registrations and
 profile changes run in between. Top-ups and welcome credits too take their
 timestamp under the user's lock and commit later. The main result is that every such run leaves the database exactly as
 some serial run would, so everything proved of serial runs holds of it.
 */
module Interleaving {
  import opened Sums
  import opened Calendar
  import opened Ledger
  import opened LedgerInvariants

  type SessionId = nat

  datatype Resource = PendingRow(pending: PendingId) | UserRow(user: UserId)

  /** Rows carried by a phase are the copies read under the lock, not the live rows. */
  datatype Phase =
    | WantPending(startedAt: int)
    | WantLower(consumed: int, amount: int)
    | WantHigher(consumed: int, amount: int, lower: User)
    | Ready(consumed: int, amount: int, from: User, to: User)
    | Checked(consumed: int, amount: int, from: User, to: User, checkedAt: int, steppedUp: bool)
    | Stamped(consumed: int, amount: int, from: User, to: User, checkedAt: int, steppedUp: bool, at: int)
    | Finished(outcome: Outcome)
    | Crediting(credit: Op)  // a top-up or welcome credit, checked and stamped under the user's lock
    | CreditDone

  /** `since` is how many operations had been committed when the session made its preflight checks. */
  datatype Session = Session(c: Call, phase: Phase, since: nat)

  datatype Machine = Machine(db: Db, sessions: map<SessionId, Session>, clock: int, history: seq<Op>)

  datatype Event =
    | Begin(sid: SessionId, c: Call)
    | Stamp(sid: SessionId, credit: Op)
    | Advance(sid: SessionId)
    | Abort(sid: SessionId)
    | Tick(elapsed: nat)
    | Commit(op: Op)

  // ----- locks

  function Lower(c: Call): UserId {
    if c.sender < c.recipient then c.sender else c.recipient
  }

  function Higher(c: Call): UserId {
    if c.sender < c.recipient then c.recipient else c.sender
  }

  function Holds(s: Session): set<Resource> {
    match s.phase
    case WantPending(_) => {}
    case WantLower(_, _) => {PendingRow(s.c.pending)}
    case WantHigher(_, _, _) => {PendingRow(s.c.pending), UserRow(Lower(s.c))}
    case Ready(_, _, _, _) => {PendingRow(s.c.pending), UserRow(Lower(s.c)), UserRow(Higher(s.c))}
    case Checked(_, _, _, _, _, _) => {PendingRow(s.c.pending), UserRow(Lower(s.c)), UserRow(Higher(s.c))}
    case Stamped(_, _, _, _, _, _, _) => {PendingRow(s.c.pending), UserRow(Lower(s.c)), UserRow(Higher(s.c))}
    case Finished(_) => {}
    case Crediting(_) => {UserRow(s.c.sender)}
    case CreditDone => {}
  }

  /** The session of a credit stands in no transfer; its sender is the credited user. */
  function CreditCall(u: UserId): Call {
    Call(u, u, ToUser(u), 0, false, Signals(false, None, false, false))
  }

  predicate IsTransfer(p: Phase) {
    !p.Crediting? && !p.CreditDone?
  }

  function RolledBackFrom(p: Phase): Phase {
    if IsTransfer(p) then Finished(RolledBack) else CreditDone
  }

  predicate Over(p: Phase) {
    p.Finished? || p.CreditDone?
  }

  function Wants(s: Session): Option<Resource> {
    match s.phase
    case WantPending(_) => Some(PendingRow(s.c.pending))
    case WantLower(_, _) => Some(UserRow(Lower(s.c)))
    case WantHigher(_, _, _) => Some(UserRow(Higher(s.c)))
    case _ => None
  }

  function Claims(s: Session): set<Resource> {
    Holds(s) + (if Wants(s).Some? then {Wants(s).value} else {})
  }

  predicate Free(sessions: map<SessionId, Session>, r: Resource, except: Option<SessionId>) {
    forall sid :: sid in sessions && Some(sid) != except ==> r !in Holds(sessions[sid])
  }

  predicate Blocked(m: Machine, sid: SessionId)
    requires sid in m.sessions
  {
    Wants(m.sessions[sid]).Some? && !Free(m.sessions, Wants(m.sessions[sid]).value, Some(sid))
  }

  // ----- steps of one session

  predicate MayBegin(cfg: Config, db: Db, c: Call, now: int) {
    && c.sender in db.users
    && match c.target
       case ToPayee(payee) =>
         && payee in db.payees && LocalPreflight(cfg, db, c.sender, payee, now).None?
         && c.recipient == db.payees[payee].account
       case ToUser(u) => c.recipient == u && PayupPreflight(db.users[c.sender]).None?
  }

  predicate EligibleNow(db: Db, c: Call) {
    c.target.ToPayee? || PayupRecipientEligible(db, c.sender, c.recipient)
  }

  /** What a credit found under the user's lock when it took its timestamp. */
  predicate CreditOk(db: Db, credit: Op) {
    match credit
    case Credited(u, amount, _) =>
      u in db.users && MIN_AMOUNT <= amount <= MAX_AMOUNT && !db.users[u].frozen && !db.users[u].securityLocked
    case Welcomed(u, _) => u in db.users && u !in db.welcomed
    case _ => false
  }

  function WriteCredit(db: Db, credit: Op): Db
    requires CreditOk(db, credit)
  {
    match credit
    case Credited(u, amount, at) => TopUpCall(db, u, amount, at, true).0
    case Welcomed(u, at) => WelcomeCall(db, u, at)
  }

  /** The commit as the session performs it: it writes the rows it read when it locked them. */
  function WriteBack(db: Db, c: Call, p: Phase): Db
    requires p.Stamped? && c.pending in db.pendings
  {
    Consume(db, c.pending, p.consumed, Some(|db.log|)).(
      users := db.users[c.sender := p.from.(balance := p.from.balance - p.amount)]
                       [c.recipient := p.to.(balance := p.to.balance + p.amount)],
      log := db.log + [RowOf(c, p.amount, p.steppedUp, p.at)])
  }

  /** What a session does next at instant now, and the operation that this commits, if any. */
  function Step(cfg: Config, db: Db, s: Session, now: int): (Db, Session, seq<Op>)
    requires SessionOk(cfg, db, s)
  {
    var c := s.c;
    match s.phase
    case WantPending(startedAt) =>
      var consumed := if c.target.ToPayee? then startedAt else now;
      if !Resolves(db, c) then (db, s.(phase := Finished(Refused(TokenNotFound))), [])
      else if db.pendings[c.pending].expiresAt < consumed then (db, s.(phase := Finished(Refused(TokenExpired))), [])
      else
        var cents := CentsOf(db.pendings[c.pending].amountE5);
        if cents.None? || !EligibleNow(db, c) then
          (Consume(db, c.pending, consumed, None),
           s.(phase := Finished(Burned(if cents.None? then AmountInvalid else RecipientUnavailable))),
           [Settled(c, false, consumed, now, now)])
        else (db, s.(phase := WantLower(consumed, cents.value)), [])
    case WantLower(consumed, amount) =>
      (db, s.(phase := WantHigher(consumed, amount, db.users[Lower(c)])), [])
    case WantHigher(consumed, amount, lower) =>
      var higher := db.users[Higher(c)];
      (db, s.(phase := if c.sender < c.recipient then Ready(consumed, amount, lower, higher)
                       else Ready(consumed, amount, higher, lower)), [])
    case Ready(consumed, amount, from, to) =>
      var verdict := Judge(cfg, c, from, UsedToday(db, c, now), amount);
      if verdict.Refuse? then
        (Consume(db, c.pending, consumed, None), s.(phase := Finished(Burned(verdict.why))),
         [Settled(c, true, consumed, now, now)])
      else (db, s.(phase := Checked(consumed, amount, from, to, now, verdict.steppedUp)), [])
    case Checked(consumed, amount, from, to, checkedAt, steppedUp) =>
      (db, s.(phase := Stamped(consumed, amount, from, to, checkedAt, steppedUp, now)), [])
    case Stamped(consumed, _, _, _, checkedAt, _, at) =>
      (WriteBack(db, c, s.phase), s.(phase := Finished(Moved(|db.log|))),
       [Settled(c, true, consumed, checkedAt, at)])
    case Crediting(credit) => (WriteCredit(db, credit), s.(phase := CreditDone), [credit])
    case _ => (db, s, [])
  }

  /** Operations outside the transfer sessions: each locks the one user row it writes, if any. */
  ghost predicate MayCommit(m: Machine, op: Op) {
    && Legal(m.db, op)
    && match op
       case Settled(_, _, _, _, _) => false
       case Credited(_, _, _) => false
       case Welcomed(_, _) => false
       case Changed(u, _) => Free(m.sessions, UserRow(u), None)
       case Joined(_, _) => true
       case Drafted(_, _) => true
       case Enlisted(pid, _) => !Listed(m.history, pid)
       case Delisted(_) => true
  }

  /** The payee was added at some time; ids are never used twice. */
  ghost predicate Listed(history: seq<Op>, pid: PayeeId) {
    exists payee :: Enlisted(pid, payee) in history
  }

  ghost function Next(cfg: Config, m: Machine, e: Event): Machine
    requires Ok(cfg, m)
  {
    match e
    case Begin(sid, c) =>
      if sid in m.sessions || !MayBegin(cfg, m.db, c, m.clock) then m
      else m.(sessions := m.sessions[sid := Session(c, WantPending(m.clock), |m.history|)])
    case Stamp(sid, credit) =>
      if sid in m.sessions || !CreditOk(m.db, credit) || credit.at != m.clock
        || !Free(m.sessions, UserRow(credit.u), None)
      then m
      else m.(sessions := m.sessions[sid := Session(CreditCall(credit.u), Crediting(credit), |m.history|)])
    case Advance(sid) =>
      if sid !in m.sessions || Blocked(m, sid) then m
      else
        var (db, s, ops) := Step(cfg, m.db, m.sessions[sid], m.clock);
        m.(db := db, sessions := m.sessions[sid := s], history := m.history + ops)
    case Abort(sid) =>
      if sid !in m.sessions || Over(m.sessions[sid].phase) then m
      else m.(sessions := m.sessions[sid := m.sessions[sid].(phase := RolledBackFrom(m.sessions[sid].phase))])
    case Tick(elapsed) => m.(clock := m.clock + elapsed)
    case Commit(op) =>
      if !MayCommit(m, op) then m else m.(db := Apply(cfg, m.db, op), history := m.history + [op])
  }

  // ----- what the locks guarantee

  predicate Parties(db: Db, c: Call) {
    c.recipient in db.users && c.recipient != c.sender
  }

  predicate TokenHeld(db: Db, c: Call, consumed: int, amount: int) {
    Resolves(db, c) && db.pendings[c.pending].expiresAt >= consumed
    && CentsOf(db.pendings[c.pending].amountE5) == Some(amount)
  }

  /** The copies a session carries still equal the live rows, and its check still holds. */
  predicate SessionOk(cfg: Config, db: Db, s: Session) {
    && s.c.sender in db.users
    && (s.c.target.ToPayee? ==> Parties(db, s.c))
    && match s.phase
       case WantPending(_) => true
       case WantLower(consumed, amount) => Parties(db, s.c) && TokenHeld(db, s.c, consumed, amount)
       case WantHigher(consumed, amount, lower) =>
         Parties(db, s.c) && TokenHeld(db, s.c, consumed, amount) && db.users[Lower(s.c)] == lower
       case Ready(consumed, amount, from, to) =>
         && Parties(db, s.c) && TokenHeld(db, s.c, consumed, amount)
         && db.users[s.c.sender] == from && db.users[s.c.recipient] == to
       case Checked(consumed, amount, from, to, checkedAt, steppedUp) =>
         && Parties(db, s.c) && TokenHeld(db, s.c, consumed, amount)
         && db.users[s.c.sender] == from && db.users[s.c.recipient] == to
         && SettledBy(db, s.c.sender, checkedAt)
         && Judge(cfg, s.c, from, UsedToday(db, s.c, checkedAt), amount) == Proceed(steppedUp)
       case Stamped(consumed, amount, from, to, checkedAt, steppedUp, _) =>
         && Parties(db, s.c) && TokenHeld(db, s.c, consumed, amount)
         && db.users[s.c.sender] == from && db.users[s.c.recipient] == to
         && SettledBy(db, s.c.sender, checkedAt)
         && Judge(cfg, s.c, from, UsedToday(db, s.c, checkedAt), amount) == Proceed(steppedUp)
       case Crediting(credit) => CreditOk(db, credit) && s.c == CreditCall(credit.u)
       case _ => true
  }

  /** Times a phase carries were read in order and are not ahead of the clock. */
  predicate PhaseDated(p: Phase, now: int) {
    && (p.Checked? ==> p.checkedAt <= now)
    && (p.Stamped? ==> p.checkedAt <= p.at <= now)
    && (p.Crediting? && (p.credit.Credited? || p.credit.Welcomed?) ==> p.credit.at <= now)
  }

  predicate TimesPassed(m: Machine) {
    && (forall t :: t in m.db.log ==> t.at <= m.clock)
    && (forall sid :: sid in m.sessions ==> PhaseDated(m.sessions[sid].phase, m.clock))
  }

  predicate Exclusive(sessions: map<SessionId, Session>) {
    forall a, b :: a in sessions && b in sessions && a != b ==> Holds(sessions[a]) !! Holds(sessions[b])
  }

  ghost predicate Ok(cfg: Config, m: Machine) {
    && TimesPassed(m) && Exclusive(m.sessions)
    && (forall sid :: sid in m.sessions ==> SessionOk(cfg, m.db, m.sessions[sid]))
  }

  /** Only claimed rows changed, and an appended row belongs to a claimed sender. */
  ghost predicate Touches(before: Db, after: Db, claimed: set<Resource>) {
    && (forall u :: u in before.users ==> u in after.users)
    && (forall u :: u in before.users && UserRow(u) !in claimed ==> after.users[u] == before.users[u])
    && (forall p :: p in before.pendings && PendingRow(p) !in claimed ==>
          p in after.pendings && after.pendings[p] == before.pendings[p])
    && (after.log == before.log
        || (|after.log| == |before.log| + 1 && after.log == before.log + [after.log[|before.log|]]
            && UserRow(after.log[|before.log|].sender) in claimed))
    && (forall u :: u in before.users && UserRow(u) !in claimed ==> (u in after.welcomed <==> u in before.welcomed))
  }

  /** A session whose locked rows were not claimed by anyone else keeps its guarantees. */
  lemma Undisturbed(cfg: Config, before: Db, after: Db, claimed: set<Resource>, s: Session)
    requires SessionOk(cfg, before, s) && Touches(before, after, claimed) && claimed !! Holds(s)
    ensures SessionOk(cfg, after, s)
  {
    if (s.phase.Checked? || s.phase.Stamped?) && after.log != before.log {
      assert UserRow(s.c.sender) in Holds(s);
      SumPush(UsedSince(s.c.sender, ChannelOf(s.c), SgtDayStartUtc(s.phase.checkedAt)),
              before.log, after.log[|before.log|]);
    }
  }

  /** A step is invisible or is one serial operation, and leaves its session's guarantees intact. */
  ghost predicate Serial(cfg: Config, db: Db, s: Session, now: int)
    requires SessionOk(cfg, db, s)
  {
    var (after, s', ops) := Step(cfg, db, s, now);
    && (ops == [] ==> after == db)
    && (ops != [] ==> |ops| == 1 && Legal(db, ops[0]) && after == Apply(cfg, db, ops[0]))
    && SessionOk(cfg, after, s') && Holds(s') <= Claims(s)
    && Touches(db, after, Claims(s))
    && (forall t :: t in after.log ==> t.at <= now)
    && PhaseDated(s'.phase, now)
  }

  lemma CommitIsSerial(cfg: Config, db: Db, s: Session, now: int)
    requires SessionOk(cfg, db, s) && (forall t :: t in db.log ==> t.at <= now)
    requires PhaseDated(s.phase, now) && s.phase.Stamped?
    ensures Serial(cfg, db, s, now)
  {
    var after := Step(cfg, db, s, now).0;
    assert after == Move(db, s.c, s.phase.consumed, s.phase.amount, s.phase.steppedUp, s.phase.at);
  }

  lemma CreditIsSerial(cfg: Config, db: Db, s: Session, now: int)
    requires SessionOk(cfg, db, s) && (forall t :: t in db.log ==> t.at <= now)
    requires PhaseDated(s.phase, now) && s.phase.Crediting?
    ensures Serial(cfg, db, s, now)
  {
  }

  lemma RefusalIsSerial(cfg: Config, db: Db, s: Session, now: int)
    requires SessionOk(cfg, db, s) && (forall t :: t in db.log ==> t.at <= now)
    requires PhaseDated(s.phase, now) && (s.phase.WantPending? || s.phase.Ready?)
    ensures Serial(cfg, db, s, now)
  {
  }

  lemma StepIsSerial(cfg: Config, db: Db, s: Session, now: int)
    requires SessionOk(cfg, db, s) && (forall t :: t in db.log ==> t.at <= now)
    requires PhaseDated(s.phase, now)
    ensures Serial(cfg, db, s, now)
  {
    match s.phase
    case Stamped(_, _, _, _, _, _, _) => CommitIsSerial(cfg, db, s, now);
    case Crediting(_) => CreditIsSerial(cfg, db, s, now);
    case WantPending(_) => RefusalIsSerial(cfg, db, s, now);
    case Ready(_, _, _, _) => RefusalIsSerial(cfg, db, s, now);
    case _ =>
  }

  lemma AdvanceKeepsOk(cfg: Config, m: Machine, sid: SessionId)
    requires Ok(cfg, m) && sid in m.sessions && !Blocked(m, sid)
    ensures Ok(cfg, Next(cfg, m, Advance(sid)))
  {
    var s := m.sessions[sid];
    StepIsSerial(cfg, m.db, s, m.clock);
    forall other | other in m.sessions && other != sid
      ensures SessionOk(cfg, Step(cfg, m.db, s, m.clock).0, m.sessions[other]) && Claims(s) !! Holds(m.sessions[other])
    {
      OtherUndisturbed(cfg, m, sid, other);
    }
  }

  /** An unblocked session claims nothing that another one holds. */
  lemma OtherUndisturbed(cfg: Config, m: Machine, sid: SessionId, other: SessionId)
    requires Ok(cfg, m) && sid in m.sessions && !Blocked(m, sid) && other in m.sessions && other != sid
    ensures Claims(m.sessions[sid]) !! Holds(m.sessions[other])
    ensures SessionOk(cfg, Step(cfg, m.db, m.sessions[sid], m.clock).0, m.sessions[other])
  {
    var s := m.sessions[sid];
    StepIsSerial(cfg, m.db, s, m.clock);
    Undisturbed(cfg, m.db, Step(cfg, m.db, s, m.clock).0, Claims(s), m.sessions[other]);
  }

  function WrittenBy(op: Op): set<Resource> {
    match op
    case Changed(u, _) => {UserRow(u)}
    case _ => {}
  }

  lemma CommitKeepsOk(cfg: Config, m: Machine, op: Op)
    requires Ok(cfg, m) && MayCommit(m, op)
    ensures Ok(cfg, Next(cfg, m, Commit(op)))
  {
    var after := Apply(cfg, m.db, op);
    assert Touches(m.db, after, WrittenBy(op));
    forall sid | sid in m.sessions ensures SessionOk(cfg, after, m.sessions[sid]) {
      Undisturbed(cfg, m.db, after, WrittenBy(op), m.sessions[sid]);
    }
  }

  /** A new session holds nothing, or a row that was free. */
  lemma EntryKeepsOk(cfg: Config, m: Machine, sid: SessionId, s: Session)
    requires Ok(cfg, m) && sid !in m.sessions && SessionOk(cfg, m.db, s) && PhaseDated(s.phase, m.clock)
    requires forall r :: r in Holds(s) ==> Free(m.sessions, r, None)
    ensures Ok(cfg, m.(sessions := m.sessions[sid := s]))
  {
    forall other | other in m.sessions ensures Holds(m.sessions[other]) !! Holds(s) {
    }
  }

  lemma AbortKeepsOk(cfg: Config, m: Machine, sid: SessionId)
    requires Ok(cfg, m) && sid in m.sessions
    ensures Ok(cfg, m.(sessions := m.sessions[sid := m.sessions[sid].(phase := RolledBackFrom(m.sessions[sid].phase))]))
  {
  }

  lemma NextKeepsOk(cfg: Config, m: Machine, e: Event)
    requires Ok(cfg, m)
    ensures Ok(cfg, Next(cfg, m, e))
  {
    match e
    case Begin(sid, c) =>
      if sid !in m.sessions && MayBegin(cfg, m.db, c, m.clock) {
        EntryKeepsOk(cfg, m, sid, Session(c, WantPending(m.clock), |m.history|));
      }
    case Stamp(sid, credit) =>
      if sid !in m.sessions && CreditOk(m.db, credit) && credit.at == m.clock
        && Free(m.sessions, UserRow(credit.u), None) {
        EntryKeepsOk(cfg, m, sid, Session(CreditCall(credit.u), Crediting(credit), |m.history|));
      }
    case Advance(sid) =>
      if sid in m.sessions && !Blocked(m, sid) {
        AdvanceKeepsOk(cfg, m, sid);
      }
    case Abort(sid) =>
      if sid in m.sessions {
        AbortKeepsOk(cfg, m, sid);
      }
    case Commit(op) =>
      if MayCommit(m, op) {
        CommitKeepsOk(cfg, m, op);
      }
    case Tick(_) =>
  }

  // ----- whole runs

  ghost function Run(cfg: Config, events: seq<Event>): (m: Machine)
    ensures Ok(cfg, m)
  {
    if events == [] then Machine(EMPTY, map[], 0, [])
    else
      var before := Run(cfg, events[..|events| - 1]);
      NextKeepsOk(cfg, before, events[|events| - 1]);
      Next(cfg, before, events[|events| - 1])
  }

  lemma RunStep(cfg: Config, events: seq<Event>, e: Event)
    ensures Run(cfg, events + [e]) == Next(cfg, Run(cfg, events), e)
  {
    assert (events + [e])[..|events|] == events;
  }

  /** Every interleaved run ends in the database of the serial run of its commits. */
  lemma {:induction false} RunsAreSerializable(cfg: Config, events: seq<Event>)
    ensures Run(cfg, events).db == Replay(cfg, Run(cfg, events).history)
  {
    if events != [] {
      var m := Run(cfg, events[..|events| - 1]);
      var e := events[|events| - 1];
      RunsAreSerializable(cfg, events[..|events| - 1]);
      var after := Next(cfg, m, e);
      if e.Advance? && e.sid in m.sessions && !Blocked(m, e.sid) {
        StepIsSerial(cfg, m.db, m.sessions[e.sid], m.clock);
      }
      if |after.history| > |m.history| {
        assert after.history[..|after.history| - 1] == m.history;
      } else {
        assert after.history == m.history;
      }
    }
  }

  /** In every interleaving balances match the log, none is negative, and money is conserved. */
  lemma LedgerSafety(cfg: Config, events: seq<Event>)
    ensures var db := Run(cfg, events).db;
            BalancesMatchLog(db) && NoOverdraft(db.users) && MoneyConserved(db)
  {
    RunsAreSerializable(cfg, events);
    ReplayKeepsBalances(cfg, Run(cfg, events).history);
  }

  /** In every interleaving each confirmation token backs at most one transfer, of exactly its amount. */
  lemma TokensSpentOnce(cfg: Config, events: seq<Event>)
    ensures var db := Run(cfg, events).db; TokensBackTransfers(db.pendings, db.log)
  {
    RunsAreSerializable(cfg, events);
    ReplayKeepsTokens(cfg, Run(cfg, events).history);
  }

  /** In every interleaving all daily totals and all quick-transfer totals stay within their caps. */
  lemma CapsHold(cfg: Config, events: seq<Event>)
    ensures var db := Run(cfg, events).db; DaysWithinLimit(db.log) && QuickWithinCaps(cfg, db.log)
  {
    RunsAreSerializable(cfg, events);
    ReplayKeepsDays(cfg, Run(cfg, events).history);
  }

  /**
   Whenever a session commits a transfer, in any interleaving, its sender's
   total for the channel on the row's own SGT day is within the limit that is on
   the sender's row at that moment, midnight or not.
   */
  lemma CommitsRespectTheLimit(cfg: Config, events: seq<Event>, sid: SessionId)
    requires var m := Run(cfg, events); sid in m.sessions && m.sessions[sid].phase.Stamped?
    ensures var m := Run(cfg, events);
            var after := Next(cfg, m, Advance(sid));
            var c, at := m.sessions[sid].c, m.sessions[sid].phase.at;
            && c.sender in m.db.users && |after.db.log| == |m.db.log| + 1
            && after.db.log[|m.db.log|].at == at
            && Sum(SentOnDay(c.sender, ChannelOf(c), DayOf(at)), after.db.log)
               <= LimitOf(m.db.users[c.sender], ChannelOf(c))
  {
    var m := Run(cfg, events);
    RunsAreSerializable(cfg, events);
    ReplayIsSound(cfg, m.history);
    CommitStaysWithinLimit(cfg, m.db, m.sessions[sid], m.clock);
  }

  lemma CommitStaysWithinLimit(cfg: Config, db: Db, s: Session, now: int)
    requires SessionOk(cfg, db, s) && (forall t :: t in db.log ==> t.at <= now) && RowsSound(db)
    requires PhaseDated(s.phase, now) && s.phase.Stamped?
    ensures var after := Step(cfg, db, s, now).0;
            && |after.log| == |db.log| + 1 && after.log[|db.log|].at == s.phase.at
            && Sum(SentOnDay(s.c.sender, ChannelOf(s.c), DayOf(s.phase.at)), after.log)
               <= LimitOf(db.users[s.c.sender], ChannelOf(s.c))
  {
    CommitIsSerial(cfg, db, s, now);
    CommitWithinDailyLimit(cfg, db, s.c, s.phase.consumed, s.phase.checkedAt, s.phase.at);
  }

  /**
   In every interleaving, each committed transfer left the day's total within the limit its sender had
   at that commit.
   */
  lemma EveryCommitWithinItsLimit(cfg: Config, events: seq<Event>, k: nat)
    requires var h := Run(cfg, events).history;
             k < |h| && h[k].Settled? && |Replay(cfg, h[..k + 1]).log| > |Replay(cfg, h[..k]).log|
    ensures var h := Run(cfg, events).history;
            var before, after, c := Replay(cfg, h[..k]), Replay(cfg, h[..k + 1]), h[k].c;
            && Run(cfg, events).db == Replay(cfg, h) && c.sender in before.users
            && Sum(SentOnDay(c.sender, ChannelOf(c), DayOf(h[k].committedAt)), after.log)
               <= LimitOf(before.users[c.sender], ChannelOf(c))
  {
    RunsAreSerializable(cfg, events);
    ReplayKeepsOwnLimits(cfg, Run(cfg, events).history, k);
  }

  /** Aborted and refused sessions, and every other event that adds no row, move no money. */
  lemma OnlyRowsMoveMoney(cfg: Config, events: seq<Event>, e: Event)
    ensures MovesAsLogged(Run(cfg, events).db, Next(cfg, Run(cfg, events), e).db)
  {
    var m := Run(cfg, events);
    if e.Advance? && e.sid in m.sessions && !Blocked(m, e.sid) {
      StepIsSerial(cfg, m.db, m.sessions[e.sid], m.clock);
      var ops := Step(cfg, m.db, m.sessions[e.sid], m.clock).2;
      if ops != [] {
        ApplyMovesAsLogged(cfg, m.db, ops[0]);
      }
    } else if e.Commit? {
      ApplyMovesAsLogged(cfg, m.db, e.op);
    }
  }

  // ----- no circular wait, and every run finishes

  function Rank(r: Resource): nat {
    match r
    case PendingRow(_) => 0
    case UserRow(u) => u + 1
  }

  predicate Live(m: Machine, sid: SessionId) {
    sid in m.sessions && !Over(m.sessions[sid].phase)
  }

  /** Rows are taken in ascending rank: pending row, lower user, higher user. */
  lemma AscendingLocks(cfg: Config, db: Db, s: Session, r: Resource)
    requires SessionOk(cfg, db, s) && Wants(s).Some? && r in Holds(s)
    ensures Rank(r) < Rank(Wants(s).value)
  {
  }

  lemma {:induction false} HighestWaiter(m: Machine, among: set<SessionId>) returns (top: SessionId)
    requires among != {} && forall sid :: sid in among ==> sid in m.sessions && Wants(m.sessions[sid]).Some?
    ensures top in among
    ensures forall sid :: sid in among ==> Rank(Wants(m.sessions[sid]).value) <= Rank(Wants(m.sessions[top]).value)
    decreases |among|
  {
    var one :| one in among;
    if among == {one} {
      top := one;
    } else {
      var rest := HighestWaiter(m, among - {one});
      top := if Rank(Wants(m.sessions[one]).value) <= Rank(Wants(m.sessions[rest]).value) then rest else one;
    }
  }

  ghost predicate LocksAscend(sessions: map<SessionId, Session>) {
    forall sid, r :: sid in sessions && Wants(sessions[sid]).Some? && r in Holds(sessions[sid]) ==>
      Rank(r) < Rank(Wants(sessions[sid]).value)
  }

  /** The session that wants the highest row is not blocked: a holder of that row would want a higher one. */
  lemma HighestWaiterIsFree(m: Machine, live: set<SessionId>)
    requires LocksAscend(m.sessions) && live != {}
    requires forall sid :: sid in live <==> Live(m, sid)
    ensures exists sid :: Live(m, sid) && !Blocked(m, sid)
  {
    if forall sid :: sid in live ==> Wants(m.sessions[sid]).Some? {
      var top := HighestWaiter(m, live);
      var r := Wants(m.sessions[top]).value;
      forall holder | holder in m.sessions && holder != top ensures r !in Holds(m.sessions[holder]) {
        assert holder in live <==> Live(m, holder);
      }
      assert Live(m, top) && !Blocked(m, top);
    } else {
      var sid :| sid in live && Wants(m.sessions[sid]).None?;
      assert Live(m, sid) && !Blocked(m, sid);
    }
  }

  /** While any transfer is unfinished, some unfinished transfer is not waiting for a row. */
  lemma NoCircularWait(cfg: Config, m: Machine)
    requires Ok(cfg, m) && exists sid :: Live(m, sid)
    ensures exists sid :: Live(m, sid) && !Blocked(m, sid)
  {
    var live := set sid | sid in m.sessions && Live(m, sid);
    assert LocksAscend(m.sessions) by {
      forall sid, r | sid in m.sessions && Wants(m.sessions[sid]).Some? && r in Holds(m.sessions[sid])
        ensures Rank(r) < Rank(Wants(m.sessions[sid]).value)
      {
        AscendingLocks(cfg, m.db, m.sessions[sid], r);
      }
    }
    var some :| Live(m, some);
    assert some in live;
    HighestWaiterIsFree(m, live);
  }

  function Work(p: Phase): nat {
    match p
    case WantPending(_) => 6
    case WantLower(_, _) => 5
    case WantHigher(_, _, _) => 4
    case Ready(_, _, _, _) => 3
    case Checked(_, _, _, _, _, _) => 2
    case Stamped(_, _, _, _, _, _, _) => 1
    case Crediting(_) => 1
    case Finished(_) => 0
    case CreditDone => 0
  }

  ghost function TotalWork(sessions: map<SessionId, Session>): nat {
    if sessions == map[] then 0
    else var sid :| sid in sessions; Work(sessions[sid].phase) + TotalWork(sessions - {sid})
  }

  lemma {:induction false} WorkWithout(sessions: map<SessionId, Session>, sid: SessionId)
    requires sid in sessions
    ensures TotalWork(sessions) == Work(sessions[sid].phase) + TotalWork(sessions - {sid})
    decreases |sessions|
  {
    var other :| other in sessions
      && TotalWork(sessions) == Work(sessions[other].phase) + TotalWork(sessions - {other});
    if other != sid {
      WorkWithout(sessions - {other}, sid);
      WorkWithout(sessions - {sid}, other);
      assert sessions - {other} - {sid} == sessions - {sid} - {other};
    }
  }

  lemma StepDoesWork(cfg: Config, db: Db, s: Session, now: int)
    requires SessionOk(cfg, db, s) && !Over(s.phase)
    ensures Work(Step(cfg, db, s, now).1.phase) < Work(s.phase)
  {
  }

  /** An unblocked live session always gets strictly closer to its end, and nobody else is set back. */
  lemma AdvanceDoesWork(cfg: Config, m: Machine, sid: SessionId)
    requires Ok(cfg, m) && Live(m, sid) && !Blocked(m, sid)
    ensures TotalWork(Next(cfg, m, Advance(sid)).sessions) < TotalWork(m.sessions)
  {
    var after := Next(cfg, m, Advance(sid)).sessions;
    StepDoesWork(cfg, m.db, m.sessions[sid], m.clock);
    WorkWithout(m.sessions, sid);
    WorkWithout(after, sid);
    assert after - {sid} == m.sessions - {sid};
  }

  /** Every step of the schedule advances a live, unblocked session. */
  ghost predicate Effective(cfg: Config, m: Machine, schedule: seq<SessionId>)
    requires Ok(cfg, m)
    decreases |schedule|
  {
    schedule == [] ||
    (Live(m, schedule[0]) && !Blocked(m, schedule[0])
     && (NextKeepsOk(cfg, m, Advance(schedule[0]));
         Effective(cfg, Next(cfg, m, Advance(schedule[0])), schedule[1..])))
  }

  ghost function Drive(cfg: Config, m: Machine, schedule: seq<SessionId>): Machine
    requires Ok(cfg, m)
    decreases |schedule|
  {
    if schedule == [] then m
    else
      NextKeepsOk(cfg, m, Advance(schedule[0]));
      Drive(cfg, Next(cfg, m, Advance(schedule[0])), schedule[1..])
  }

  /** No schedule can go on for ever: its length is bounded by the work in flight. */
  lemma {:induction false} SchedulesAreBounded(cfg: Config, m: Machine, schedule: seq<SessionId>)
    requires Ok(cfg, m) && Effective(cfg, m, schedule)
    ensures |schedule| + TotalWork(Drive(cfg, m, schedule).sessions) <= TotalWork(m.sessions)
    decreases |schedule|
  {
    if schedule != [] {
      NextKeepsOk(cfg, m, Advance(schedule[0]));
      AdvanceDoesWork(cfg, m, schedule[0]);
      SchedulesAreBounded(cfg, Next(cfg, m, Advance(schedule[0])), schedule[1..]);
    }
  }

  /** From every reachable state all transfers in flight can be driven to an outcome. */
  lemma {:induction false} EveryTransferCanFinish(cfg: Config, m: Machine) returns (schedule: seq<SessionId>)
    requires Ok(cfg, m)
    ensures Effective(cfg, m, schedule)
    ensures forall sid :: !Live(Drive(cfg, m, schedule), sid)
    decreases TotalWork(m.sessions)
  {
    if exists sid :: Live(m, sid) {
      NoCircularWait(cfg, m);
      var sid :| Live(m, sid) && !Blocked(m, sid);
      NextKeepsOk(cfg, m, Advance(sid));
      AdvanceDoesWork(cfg, m, sid);
      var rest := EveryTransferCanFinish(cfg, Next(cfg, m, Advance(sid)));
      schedule := [sid] + rest;
      assert schedule[1..] == rest;
    } else {
      schedule := [];
    }
  }
}
