/**
 The freeze check of a transfer is made before anything is locked and never again.
 In every interleaving a session's sender is frozen exactly when the last change of
 the sender's row since that check froze it, and such a session still pays.
 */
module FrozenSender {
  import opened Sums
  import opened Calendar
  import opened Ledger
  import opened LedgerInvariants
  import opened Interleaving

  predicate CannotPay(row: User) {
    row.frozen || row.securityLocked
  }

  /** What the last change of a user's row since a point of the history made of it. */
  function LastChange(history: seq<Op>, since: nat, u: UserId): Option<bool> {
    if |history| <= since then None
    else
      var op := history[|history| - 1];
      if op.Changed? && op.u == u then Some(CannotPay(op.row))
      else LastChange(history[..|history| - 1], since, u)
  }

  lemma LastChangePush(history: seq<Op>, op: Op, since: nat, u: UserId)
    requires since <= |history|
    ensures LastChange(history + [op], since, u) ==
            if op.Changed? && op.u == u then Some(CannotPay(op.row)) else LastChange(history, since, u)
  {
    assert (history + [op])[..|history|] == history;
  }

  /** Only a change of the row itself changes whether it can pay. */
  lemma ApplyChangesFlags(cfg: Config, db: Db, op: Op, u: UserId)
    requires Legal(db, op) && u in db.users
    ensures u in Apply(cfg, db, op).users
    ensures CannotPay(Apply(cfg, db, op).users[u])
            <==> if op.Changed? && op.u == u then CannotPay(op.row) else CannotPay(db.users[u])
  {
  }

  predicate FrozenSince(m: Machine, s: Session) {
    && s.since <= |m.history| && s.c.sender in m.db.users
    && (CannotPay(m.db.users[s.c.sender]) <==> LastChange(m.history, s.since, s.c.sender) == Some(true))
  }

  lemma OperationKeepsFrozenSince(cfg: Config, m: Machine, op: Op, s: Session)
    requires Legal(m.db, op) && FrozenSince(m, s)
    ensures FrozenSince(m.(db := Apply(cfg, m.db, op), history := m.history + [op]), s)
  {
    ApplyChangesFlags(cfg, m.db, op, s.c.sender);
    LastChangePush(m.history, op, s.since, s.c.sender);
  }

  lemma AdvanceKeepsFrozenSince(cfg: Config, m: Machine, sid: SessionId, s: Session)
    requires Ok(cfg, m) && sid in m.sessions && !Blocked(m, sid) && FrozenSince(m, s)
    ensures FrozenSince(Next(cfg, m, Advance(sid)), s)
  {
    StepIsSerial(cfg, m.db, m.sessions[sid], m.clock);
    var ops := Step(cfg, m.db, m.sessions[sid], m.clock).2;
    if ops != [] {
      OperationKeepsFrozenSince(cfg, m, ops[0], s);
      assert m.history + ops == m.history + [ops[0]];
    } else {
      assert m.history + ops == m.history;
    }
  }

  lemma NextKeepsFrozenSince(cfg: Config, m: Machine, e: Event, s: Session)
    requires Ok(cfg, m) && FrozenSince(m, s)
    ensures FrozenSince(Next(cfg, m, e), s)
  {
    match e
    case Advance(sid) =>
      if sid in m.sessions && !Blocked(m, sid) {
        AdvanceKeepsFrozenSince(cfg, m, sid, s);
      }
    case Commit(op) =>
      if MayCommit(m, op) {
        OperationKeepsFrozenSince(cfg, m, op, s);
      }
    case _ =>
  }

  lemma StepKeepsCall(cfg: Config, m: Machine, e: Event, sid: SessionId)
    requires Ok(cfg, m) && sid in Next(cfg, m, e).sessions && IsTransfer(Next(cfg, m, e).sessions[sid].phase)
    ensures var s := Next(cfg, m, e).sessions[sid];
            if sid in m.sessions then s.c == m.sessions[sid].c && s.since == m.sessions[sid].since
              && IsTransfer(m.sessions[sid].phase)
            else s.since == |m.history| && s.c.sender in m.db.users && !CannotPay(m.db.users[s.c.sender])
  {
  }

  lemma SameCall(m: Machine, s: Session, t: Session)
    requires FrozenSince(m, s) && t.c == s.c && t.since == s.since
    ensures FrozenSince(m, t)
  {
  }

  /** In every run a session's sender cannot pay exactly when the last change of the row since its preflight says so. */
  lemma {:induction false} FrozenIffChangedSince(cfg: Config, events: seq<Event>, sid: SessionId)
    requires sid in Run(cfg, events).sessions && IsTransfer(Run(cfg, events).sessions[sid].phase)
    ensures FrozenSince(Run(cfg, events), Run(cfg, events).sessions[sid])
  {
    var before, e := events[..|events| - 1], events[|events| - 1];
    var m := Run(cfg, before);
    var t := Next(cfg, m, e).sessions[sid];
    StepKeepsCall(cfg, m, e, sid);
    if sid in m.sessions {
      FrozenIffChangedSince(cfg, before, sid);
      NextKeepsFrozenSince(cfg, m, e, m.sessions[sid]);
      SameCall(Next(cfg, m, e), m.sessions[sid], t);
    } else {
      assert FrozenSince(m, t);
      NextKeepsFrozenSince(cfg, m, e, t);
    }
  }

  /**
   In every run, a transfer that commits does so from a sender who cannot pay if and
   only if a change of the sender's row committed after the session's preflight, with
   no later change undoing it.
   */
  lemma PaysThoughFrozenIff(cfg: Config, events: seq<Event>, sid: SessionId)
    requires var m := Run(cfg, events); sid in m.sessions && m.sessions[sid].phase.Stamped?
    ensures var m := Run(cfg, events);
            var s, after := m.sessions[sid], Next(cfg, m, Advance(sid));
            && |after.db.log| == |m.db.log| + 1 && after.db.log[|m.db.log|].sender == s.c.sender
               && s.c.sender in m.db.users
            && (CannotPay(m.db.users[s.c.sender]) <==> LastChange(m.history, s.since, s.c.sender) == Some(true))
  {
    FrozenIffChangedSince(cfg, events, sid);
  }

  // ----- such a run

  function Account(balance: int, frozen: bool): User {
    User(balance, LIMIT_MIN, LIMIT_MIN, false, false, false, false, frozen, false, Active)
  }

  function Friend(cfg: Config): Payee { Payee(0, 1, -cfg.payeeCooldown) }

  function Draft(): Pending { Pending(0, ToPayee(0), 1000, 0, None, None) }

  function Rows(cfg: Config, frozen: bool): Db {
    Db(map[0 := Account(WELCOME_CREDIT, frozen), 1 := Account(0, false)], map[0 := Friend(cfg)], map[0 := Draft()],
      [], map[0 := 0])
  }

  function Payment(): Call {
    Call(0, 1, ToPayee(0), 0, false, Signals(false, None, false, false))
  }

  /** No payee has been added yet. */
  ghost predicate NoneListed(history: seq<Op>) {
    forall op :: op in history ==> !op.Enlisted?
  }

  lemma CommitRun(cfg: Config, events: seq<Event>, op: Op, db: Db)
    requires var m := Run(cfg, events); Idle(m) && m.clock == 0 && m.db == db
    requires Legal(db, op) && !op.Settled? && !op.Credited? && !op.Welcomed?
    requires op.Enlisted? ==> NoneListed(Run(cfg, events).history)
    ensures var m, n := Run(cfg, events), Run(cfg, events + [Commit(op)]);
            n == m.(db := Apply(cfg, db, op), history := m.history + [op])
  {
    RunStep(cfg, events, Commit(op));
    assert MayCommit(Run(cfg, events), op);
  }

  lemma WelcomeRun(cfg: Config, events: seq<Event>, db: Db)
    requires var m := Run(cfg, events); m.sessions == map[] && m.clock == 0 && m.db == db
    requires 0 in db.users && 0 !in db.welcomed
    ensures var n := Run(cfg, events + [Stamp(9, Welcomed(0, 0))] + [Advance(9)]);
            && n.clock == 0 && n.db == WelcomeCall(db, 0, 0) && Idle(n)
            && n.history == Run(cfg, events).history + [Welcomed(0, 0)]
  {
    RunStep(cfg, events, Stamp(9, Welcomed(0, 0)));
    var m := Run(cfg, events + [Stamp(9, Welcomed(0, 0))]);
    assert m.db == db && m.clock == 0
           && m.sessions == map[9 := Session(CreditCall(0), Crediting(Welcomed(0, 0)), |m.history|)];
    RunStep(cfg, events + [Stamp(9, Welcomed(0, 0))], Advance(9));
    WelcomeCommits(cfg, m);
  }

  lemma WelcomeCommits(cfg: Config, m: Machine)
    requires Ok(cfg, m) && m.sessions.Keys == {9} && m.sessions[9].phase == Crediting(Welcomed(0, 0))
    ensures var n := Next(cfg, m, Advance(9));
            && n.clock == m.clock && 0 in m.db.users && n.db == WelcomeCall(m.db, 0, 0) && Idle(n)
            && n.history == m.history + [Welcomed(0, 0)]
  {
    assert SessionOk(cfg, m.db, m.sessions[9]);
    assert !Blocked(m, 9);
  }

  /** No session but the finished welcome credit. */
  ghost predicate Idle(m: Machine) {
    forall sid :: sid in m.sessions ==> sid == 9 && m.sessions[sid].phase.CreditDone?
  }

  /** Two accounts, one with its welcome credit. */
  lemma TwoAccounts(cfg: Config) returns (events: seq<Event>)
    ensures var m := Run(cfg, events);
            && Idle(m) && m.clock == 0 && NoneListed(m.history)
            && m.db == Db(map[0 := Account(WELCOME_CREDIT, false), 1 := Account(0, false)], map[], map[], [],
               map[0 := 0])
  {
    var a, b := Account(0, false), Account(0, false);
    CommitRun(cfg, [], Joined(0, a), EMPTY);
    events := [] + [Commit(Joined(0, a))];
    var one := Db(map[0 := a], map[], map[], [], map[]);
    assert Run(cfg, events).db == one;
    CommitRun(cfg, events, Joined(1, b), one);
    events := events + [Commit(Joined(1, b))];
    var two := Db(map[0 := a, 1 := b], map[], map[], [], map[]);
    assert Run(cfg, events).db == two;
    WelcomeRun(cfg, events, two);
    events := events + [Stamp(9, Welcomed(0, 0))] + [Advance(9)];
    assert two.users[0 := Account(WELCOME_CREDIT, false)] == map[0 := Account(WELCOME_CREDIT, false), 1 := b];
  }

  lemma ReadyToPay(cfg: Config) returns (events: seq<Event>)
    ensures var m := Run(cfg, events); Idle(m) && m.clock == 0 && m.db == Rows(cfg, false)
  {
    events := TwoAccounts(cfg);
    var db := Run(cfg, events).db;
    CommitRun(cfg, events, Enlisted(0, Friend(cfg)), db);
    events := events + [Commit(Enlisted(0, Friend(cfg)))];
    CommitRun(cfg, events, Drafted(0, Draft()), db.(payees := map[0 := Friend(cfg)]));
    events := events + [Commit(Drafted(0, Draft()))];
  }

  /** The machine when only session 0 is in flight. */
  ghost predicate OnlyOne(m: Machine, db: Db, phase: Phase) {
    && m.clock == 0 && m.db == db && 0 in m.sessions && m.sessions[0].c == Payment() && m.sessions[0].phase == phase
    && (forall sid :: sid in m.sessions && sid != 0 ==> m.sessions[sid].phase.CreditDone?)
  }

  lemma PaymentBegins(cfg: Config, m: Machine)
    requires Ok(cfg, m) && Idle(m) && m.clock == 0 && m.db == Rows(cfg, false)
    ensures OnlyOne(Next(cfg, m, Begin(0, Payment())), Rows(cfg, false), WantPending(0))
  {
    assert LocalPreflight(cfg, Rows(cfg, false), 0, 0, 0).None?;
  }

  lemma FreezeCommits(cfg: Config, m: Machine)
    requires Ok(cfg, m) && OnlyOne(m, Rows(cfg, false), WantPending(0))
    ensures OnlyOne(Next(cfg, m, Commit(Changed(0, Account(WELCOME_CREDIT, true)))), Rows(cfg, true), WantPending(0))
  {
    var freeze := Changed(0, Account(WELCOME_CREDIT, true));
    assert Free(m.sessions, UserRow(0), None);
    assert MayCommit(m, freeze);
    assert m.db.users[0 := Account(WELCOME_CREDIT, true)] == Rows(cfg, true).users;
  }

  /** The session begins, and then its sender is frozen. */
  lemma FreezeAfterBegin(cfg: Config) returns (events: seq<Event>)
    ensures OnlyOne(Run(cfg, events), Rows(cfg, true), WantPending(0))
  {
    events := ReadyToPay(cfg);
    RunStep(cfg, events, Begin(0, Payment()));
    PaymentBegins(cfg, Run(cfg, events));
    events := events + [Begin(0, Payment())];
    RunStep(cfg, events, Commit(Changed(0, Account(WELCOME_CREDIT, true))));
    FreezeCommits(cfg, Run(cfg, events));
    events := events + [Commit(Changed(0, Account(WELCOME_CREDIT, true)))];
  }

  lemma AloneIsFree(m: Machine, db: Db, phase: Phase)
    requires OnlyOne(m, db, phase)
    ensures !Blocked(m, 0)
  {
  }

  lemma NextAlone(cfg: Config, m: Machine, db: Db, phase: Phase, next: Phase)
    requires Ok(cfg, m) && OnlyOne(m, db, phase) && !Blocked(m, 0)
    requires Step(cfg, db, m.sessions[0], 0).0 == db && Step(cfg, db, m.sessions[0], 0).1.phase == next
    requires Step(cfg, db, m.sessions[0], 0).1.c == m.sessions[0].c
    ensures OnlyOne(Next(cfg, m, Advance(0)), db, next)
  {
  }

  lemma SameCaller(cfg: Config, db: Db, s: Session, now: int)
    requires SessionOk(cfg, db, s)
    ensures Step(cfg, db, s, now).1.c == s.c
  {
  }

  lemma AdvanceAlone(cfg: Config, events: seq<Event>, db: Db, phase: Phase, next: Phase)
    requires OnlyOne(Run(cfg, events), db, phase)
    requires Step(cfg, db, Run(cfg, events).sessions[0], 0).0 == db
             && Step(cfg, db, Run(cfg, events).sessions[0], 0).1.phase == next
    ensures OnlyOne(Run(cfg, events + [Advance(0)]), db, next)
  {
    var m := Run(cfg, events);
    RunStep(cfg, events, Advance(0));
    AloneIsFree(m, db, phase);
    SameCaller(cfg, db, m.sessions[0], 0);
    NextAlone(cfg, m, db, phase, next);
  }

  lemma TakeLocks(cfg: Config) returns (events: seq<Event>)
    ensures OnlyOne(Run(cfg, events), Rows(cfg, true), WantHigher(0, 1, Account(WELCOME_CREDIT, true)))
  {
    events := FreezeAfterBegin(cfg);
    var db := Rows(cfg, true);
    assert CentsOf(1000) == Some(1);
    AdvanceAlone(cfg, events, db, WantPending(0), WantLower(0, 1));
    events := events + [Advance(0)];
    AdvanceAlone(cfg, events, db, WantLower(0, 1), WantHigher(0, 1, Account(WELCOME_CREDIT, true)));
    events := events + [Advance(0)];
  }

  lemma PassChecks(cfg: Config) returns (events: seq<Event>)
    ensures OnlyOne(Run(cfg, events), Rows(cfg, true),
                    Stamped(0, 1, Account(WELCOME_CREDIT, true), Account(0, false), 0, false, 0))
  {
    events := TakeLocks(cfg);
    var db := Rows(cfg, true);
    var from, to := Account(WELCOME_CREDIT, true), Account(0, false);
    AdvanceAlone(cfg, events, db, WantHigher(0, 1, from), Ready(0, 1, from, to));
    events := events + [Advance(0)];
    assert UsedToday(db, Payment(), 0) == 0;
    AdvanceAlone(cfg, events, db, Ready(0, 1, from, to), Checked(0, 1, from, to, 0, false));
    events := events + [Advance(0)];
    AdvanceAlone(cfg, events, db, Checked(0, 1, from, to, 0, false), Stamped(0, 1, from, to, 0, false, 0));
    events := events + [Advance(0)];
  }

  /** A frozen sender's transfer runs to its commit. */
  lemma FrozenSenderPays(cfg: Config) returns (events: seq<Event>)
    ensures var m := Run(cfg, events);
            |m.db.log| == 1 && m.db.log[0].sender == 0 && 0 in m.db.users && CannotPay(m.db.users[0])
  {
    var before := PassChecks(cfg);
    var m := Run(cfg, before);
    var after := WriteBack(m.db, Payment(), m.sessions[0].phase);
    assert |after.log| == 1 && after.log[0].sender == 0 && 0 in after.users && CannotPay(after.users[0]);
    assert Step(cfg, m.db, m.sessions[0], 0).0 == after;
    RunStep(cfg, before, Advance(0));
    events := before + [Advance(0)];
  }
}
