/**
 A row's timestamp is taken before its commit, which may have to wait. So a row
 that appears later can carry an earlier time, but only if its session already
 carried that time when the earlier state was seen.
 */
module Timestamps {
  import opened Sums
  import opened Ledger
  import opened LedgerInvariants
  import opened Interleaving

  /** The time a session has taken for what it is about to commit. */
  function StampOf(p: Phase): Option<int> {
    match p
    case Stamped(_, _, _, _, _, _, at) => Some(at)
    case Crediting(credit) => if credit.Credited? || credit.Welcomed? then Some(credit.at) else None
    case _ => None
  }

  predicate StampedBefore(p: Phase, instant: int) {
    StampOf(p).Some? && StampOf(p).value < instant
  }

  /** The row that a stamped session will append. */
  function RowToCome(s: Session): Option<Transaction> {
    match s.phase
    case Stamped(_, amount, _, _, _, steppedUp, at) => Some(RowOf(s.c, amount, steppedUp, at))
    case Crediting(credit) =>
      if credit.Credited? then Some(Transaction(credit.u, credit.u, credit.amount, TopUp, true, credit.at, false))
        else None
    case _ => None
  }

  /** The welcome credit that a stamped session will give. */
  predicate CreditToCome(s: Session, u: UserId, at: int) {
    s.phase.Crediting? && s.phase.credit == Welcomed(u, at)
  }

  ghost predicate RowInFlight(sessions: map<SessionId, Session>, row: Transaction) {
    exists sid :: sid in sessions && RowToCome(sessions[sid]) == Some(row)
  }

  ghost predicate CreditInFlight(sessions: map<SessionId, Session>, u: UserId, at: int) {
    exists sid :: sid in sessions && CreditToCome(sessions[sid], u, at)
  }

  ghost predicate Extends(before: Db, after: Db) {
    before.log <= after.log && forall u :: u in before.welcomed ==>
                                 u in after.welcomed && after.welcomed[u] == before.welcomed[u]
  }

  /** What was added since a state was stamped since, or was in flight with its stamp in that state. */
  ghost predicate AddedFrom(m: Machine, after: Db) {
    && Extends(m.db, after)
    && (forall i :: |m.db.log| <= i < |after.log| ==>
          after.log[i].at >= m.clock || RowInFlight(m.sessions, after.log[i]))
    && (forall u :: u in after.welcomed && u !in m.db.welcomed ==>
          after.welcomed[u] >= m.clock || CreditInFlight(m.sessions, u, after.welcomed[u]))
  }

  // ----- one step

  /** Whatever a step adds, its own session carried the stamp of. */
  lemma StepAdds(cfg: Config, db: Db, s: Session, now: int)
    requires SessionOk(cfg, db, s)
    ensures var after := Step(cfg, db, s, now).0;
            && (after.log == db.log || (RowToCome(s).Some? && after.log == db.log + [RowToCome(s).value]))
            && (after.welcomed == db.welcomed
                || (s.phase.Crediting? && s.phase.credit.Welcomed? && s.phase.credit.u !in db.welcomed
                    && after.welcomed == db.welcomed[s.phase.credit.u := s.phase.credit.at]))
    ensures var s' := Step(cfg, db, s, now).1;
            s'.c == s.c && (StampOf(s'.phase).Some? && StampOf(s'.phase) != Some(now) ==> s' == s)
  {
  }

  lemma CommitAddsNothing(cfg: Config, m: Machine, op: Op)
    requires MayCommit(m, op)
    ensures Apply(cfg, m.db, op).log == m.db.log && Apply(cfg, m.db, op).welcomed == m.db.welcomed
  {
  }

  /** Stamps older than a state were carried by the same sessions in that state. */
  ghost predicate OldStampsCarried(first: Machine, sessions: map<SessionId, Session>) {
    forall sid :: sid in sessions && StampedBefore(sessions[sid].phase, first.clock) ==>
      sid in first.sessions && first.sessions[sid] == sessions[sid]
  }

  ghost predicate Since(first: Machine, m: Machine) {
    first.clock <= m.clock && OldStampsCarried(first, m.sessions) && AddedFrom(first, m.db)
  }

  lemma AdvanceKeepsSince(cfg: Config, first: Machine, m: Machine, sid: SessionId)
    requires Ok(cfg, m) && Since(first, m) && sid in m.sessions && !Blocked(m, sid)
    ensures Since(first, Next(cfg, m, Advance(sid)))
  {
    var s, after := m.sessions[sid], Next(cfg, m, Advance(sid));
    StepAdds(cfg, m.db, s, m.clock);
    if after.db.log != m.db.log {
      var row := RowToCome(s).value;
      assert row.at == StampOf(s.phase).value;
      assert row.at < first.clock ==> first.sessions[sid] == s;
      assert row.at >= first.clock || RowInFlight(first.sessions, row);
    }
    if after.db.welcomed != m.db.welcomed {
      var u, at := s.phase.credit.u, s.phase.credit.at;
      assert at < first.clock ==> first.sessions[sid] == s;
      assert CreditToCome(s, u, at);
      assert at >= first.clock || CreditInFlight(first.sessions, u, at);
    }
  }

  lemma NextKeepsSince(cfg: Config, first: Machine, m: Machine, e: Event)
    requires Ok(cfg, m) && Since(first, m)
    ensures Since(first, Next(cfg, m, e))
  {
    match e
    case Advance(sid) =>
      if sid in m.sessions && !Blocked(m, sid) {
        AdvanceKeepsSince(cfg, first, m, sid);
      }
    case Commit(op) =>
      if MayCommit(m, op) {
        CommitAddsNothing(cfg, m, op);
      }
    case _ =>
  }

  lemma OneMoreKeepsSince(cfg: Config, first: Machine, events: seq<Event>, e: Event)
    requires Since(first, Run(cfg, events))
    ensures Since(first, Run(cfg, events + [e]))
  {
    NextKeepsSince(cfg, first, Run(cfg, events), e);
    RunStep(cfg, events, e);
  }

  /**
   In every run, whatever is added after a point was stamped at or after that point,
   or was already in flight with its stamp at that point.
   */
  lemma {:induction false} RunAddsLaterOrInFlight(cfg: Config, events: seq<Event>, more: seq<Event>)
    ensures Since(Run(cfg, events), Run(cfg, events + more))
  {
    if more == [] {
      assert events + more == events;
    } else {
      var before, last := more[..|more| - 1], more[|more| - 1];
      RunAddsLaterOrInFlight(cfg, events, before);
      OneMoreKeepsSince(cfg, Run(cfg, events), events + before, last);
      assert events + more == events + before + [last];
    }
  }

  // ----- credits are past

  ghost predicate CreditsPast(welcomed: map<UserId, int>, now: int) {
    forall u :: u in welcomed ==> welcomed[u] <= now
  }

  lemma NextKeepsCreditsPast(cfg: Config, m: Machine, e: Event)
    requires Ok(cfg, m) && CreditsPast(m.db.welcomed, m.clock)
    ensures CreditsPast(Next(cfg, m, e).db.welcomed, Next(cfg, m, e).clock)
  {
    match e
    case Advance(sid) =>
      if sid in m.sessions && !Blocked(m, sid) {
        StepAdds(cfg, m.db, m.sessions[sid], m.clock);
        assert PhaseDated(m.sessions[sid].phase, m.clock);
      }
    case Commit(op) =>
      if MayCommit(m, op) {
        CommitAddsNothing(cfg, m, op);
      }
    case _ =>
  }

  lemma {:induction false} CreditsArePast(cfg: Config, events: seq<Event>)
    ensures CreditsPast(Run(cfg, events).db.welcomed, Run(cfg, events).clock)
  {
    if events != [] {
      CreditsArePast(cfg, events[..|events| - 1]);
      NextKeepsCreditsPast(cfg, Run(cfg, events[..|events| - 1]), events[|events| - 1]);
    }
  }
}
