/**
 What a caller is told is what happened: in every interleaving, the outcome a
 transfer reported stays true of the database for ever after, and of all the
 calls made with one confirmation token at most one ever spends it.
 */
module Outcomes {
  import opened Sums
  import opened Ledger
  import opened LedgerInvariants
  import opened Interleaving

  predicate Spent(s: Session) {
    s.phase.Finished? && (s.phase.outcome.Moved? || s.phase.outcome.Burned?)
  }

  /** Moved: the token is linked to the row of this very transfer. Burned: it is used up and linked to nothing. */
  predicate OutcomeTrue(db: Db, s: Session) {
    Spent(s) ==>
      && s.c.pending in db.pendings && db.pendings[s.c.pending].consumedAt.Some?
      && var token := db.pendings[s.c.pending];
         match s.phase.outcome
         case Moved(ref) =>
           && token.transaction == Some(ref) && ref < |db.log|
           && db.log[ref].sender == s.c.sender && db.log[ref].recipient == s.c.recipient
           && db.log[ref].channel == ChannelOf(s.c) && db.log[ref].amount * 1000 == token.amountE5
         case _ => token.transaction.None?
  }

  predicate SameToken(s: Session, t: Session) {
    s.c.pending == t.c.pending
  }

  ghost predicate AllTrue(m: Machine) {
    && UnspentIsBlank(m.db.pendings)
    && (forall sid :: sid in m.sessions ==> OutcomeTrue(m.db, m.sessions[sid]))
    && (forall a, b :: a in m.sessions && b in m.sessions && a != b && SameToken(m.sessions[a], m.sessions[b]) ==>
          !(Spent(m.sessions[a]) && Spent(m.sessions[b])))
  }

  /** A spent token and a written row are never touched again. */
  ghost predicate Lasting(before: Db, after: Db) {
    && (forall p :: p in before.pendings && before.pendings[p].consumedAt.Some? ==>
          p in after.pendings && after.pendings[p] == before.pendings[p])
    && before.log <= after.log
  }

  lemma ApplyIsLasting(cfg: Config, db: Db, op: Op)
    ensures Lasting(db, Apply(cfg, db, op))
  {
  }

  lemma TrueForEver(before: Db, after: Db, s: Session)
    requires OutcomeTrue(before, s) && Lasting(before, after)
    ensures OutcomeTrue(after, s)
  {
  }

  /** A step that ends in Moved or Burned found the token unspent and leaves it as it reports. */
  lemma StepReportsTruly(cfg: Config, db: Db, s: Session, now: int)
    requires SessionOk(cfg, db, s) && UnspentIsBlank(db.pendings) && OutcomeTrue(db, s)
    ensures var (after, s', _) := Step(cfg, db, s, now);
            && OutcomeTrue(after, s') && s'.c == s.c
            && (Spent(s') && !Spent(s) ==> s.c.pending in db.pendings && db.pendings[s.c.pending].consumedAt.None?)
            && (!Spent(s') && !s.phase.Crediting? ==> after == db)
  {
  }

  /** The step of one session keeps what every other session was told, and takes no token another one spent. */
  lemma OtherStaysTrue(cfg: Config, m: Machine, sid: SessionId, other: SessionId)
    requires Ok(cfg, m) && AllTrue(m) && sid in m.sessions && other in m.sessions && other != sid
    ensures var (after, s', _) := Step(cfg, m.db, m.sessions[sid], m.clock);
            && OutcomeTrue(after, m.sessions[other])
            && (m.sessions[other].c.pending == s'.c.pending ==> !(Spent(s') && Spent(m.sessions[other])))
  {
    var (after, s', ops) := Step(cfg, m.db, m.sessions[sid], m.clock);
    StepIsSerial(cfg, m.db, m.sessions[sid], m.clock);
    StepReportsTruly(cfg, m.db, m.sessions[sid], m.clock);
    if ops != [] {
      ApplyIsLasting(cfg, m.db, ops[0]);
    }
    assert OutcomeTrue(m.db, m.sessions[other]);
    TrueForEver(m.db, after, m.sessions[other]);
  }

  lemma StepKeepsBlank(cfg: Config, m: Machine, sid: SessionId)
    requires Ok(cfg, m) && UnspentIsBlank(m.db.pendings) && sid in m.sessions
    ensures UnspentIsBlank(Step(cfg, m.db, m.sessions[sid], m.clock).0.pendings)
  {
    StepIsSerial(cfg, m.db, m.sessions[sid], m.clock);
    var ops := Step(cfg, m.db, m.sessions[sid], m.clock).2;
    if ops != [] {
      ApplyKeepsBlankTokens(cfg, m.db, ops[0]);
    }
  }

  lemma AdvanceKeepsTrue(cfg: Config, m: Machine, sid: SessionId)
    requires Ok(cfg, m) && AllTrue(m) && sid in m.sessions && !Blocked(m, sid)
    ensures AllTrue(Next(cfg, m, Advance(sid)))
  {
    StepReportsTruly(cfg, m.db, m.sessions[sid], m.clock);
    StepKeepsBlank(cfg, m, sid);
    var s' := Step(cfg, m.db, m.sessions[sid], m.clock).1;
    forall other | other in m.sessions && other != sid
      ensures OutcomeTrue(Step(cfg, m.db, m.sessions[sid], m.clock).0, m.sessions[other])
      ensures m.sessions[other].c.pending == s'.c.pending ==> !(Spent(s') && Spent(m.sessions[other]))
    {
      OtherStaysTrue(cfg, m, sid, other);
    }
  }

  lemma NextKeepsTrue(cfg: Config, m: Machine, e: Event)
    requires Ok(cfg, m) && AllTrue(m)
    ensures AllTrue(Next(cfg, m, e))
  {
    match e
    case Advance(sid) =>
      if sid in m.sessions && !Blocked(m, sid) {
        AdvanceKeepsTrue(cfg, m, sid);
      }
    case Commit(op) =>
      ApplyIsLasting(cfg, m.db, op);
      ApplyKeepsBlankTokens(cfg, m.db, op);
      forall sid | sid in m.sessions ensures OutcomeTrue(Apply(cfg, m.db, op), m.sessions[sid]) {
        TrueForEver(m.db, Apply(cfg, m.db, op), m.sessions[sid]);
      }
    case _ =>
  }

  lemma {:induction false} RunKeepsTrue(cfg: Config, events: seq<Event>)
    ensures AllTrue(Run(cfg, events))
  {
    if events != [] {
      RunKeepsTrue(cfg, events[..|events| - 1]);
      NextKeepsTrue(cfg, Run(cfg, events[..|events| - 1]), events[|events| - 1]);
    }
  }

  /**
   In every run, a reported transfer is in the log with its token's exact amount, and a burned token
   moved nothing.
   */
  lemma ReportsStayTrue(cfg: Config, events: seq<Event>, sid: SessionId)
    requires sid in Run(cfg, events).sessions
    ensures OutcomeTrue(Run(cfg, events).db, Run(cfg, events).sessions[sid])
  {
    RunKeepsTrue(cfg, events);
  }

  /** In every run, of the calls that share a token at most one moved money or burned it. */
  lemma OneSpenderPerToken(cfg: Config, events: seq<Event>, a: SessionId, b: SessionId)
    requires var ss := Run(cfg, events).sessions; a in ss && b in ss && ss[a].c.pending == ss[b].c.pending
    requires Spent(Run(cfg, events).sessions[a]) && Spent(Run(cfg, events).sessions[b])
    ensures a == b
  {
    RunKeepsTrue(cfg, events);
  }

  /** In every run, a call that is refused before it consumes its token, or is rolled back, changes nothing at all. */
  lemma RefusalsChangeNothing(cfg: Config, events: seq<Event>, e: Event, sid: SessionId)
    requires sid in Run(cfg, events).sessions && (e == Advance(sid) || e == Abort(sid))
    requires IsTransfer(Run(cfg, events).sessions[sid].phase)
    requires !Spent(Next(cfg, Run(cfg, events), e).sessions[sid])
    ensures Next(cfg, Run(cfg, events), e).db == Run(cfg, events).db
  {
    var m := Run(cfg, events);
    RunKeepsTrue(cfg, events);
    if e.Advance? && !Blocked(m, sid) {
      StepReportsTruly(cfg, m.db, m.sessions[sid], m.clock);
    }
  }
}
