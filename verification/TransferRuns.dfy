/**
 The same rules over interleaved runs: what each step of a session asks for, which
 payee stands behind every local row, and who authorized every PayUp row over a cap.
 */
module TransferRuns {
  import opened Sums
  import opened Calendar
  import opened Ledger
  import opened LedgerInvariants
  import opened Interleaving
  import opened TransferRules

  // ----- what each step asks for

  /** A session begins exactly when its unlocked checks pass. */
  lemma BeginsIff(cfg: Config, m: Machine, sid: SessionId, c: Call)
    requires Ok(cfg, m) && sid !in m.sessions
    ensures sid in Next(cfg, m, Begin(sid, c)).sessions <==>
            && c.sender in m.db.users
            && !m.db.users[c.sender].frozen && !m.db.users[c.sender].securityLocked
            && (c.target.ToUser? ==> c.target.user == c.recipient && m.db.users[c.sender].hasNickname)
            && (c.target.ToPayee? ==>
                  && c.target.payee in m.db.payees && m.db.payees[c.target.payee].account == c.recipient
                  && PayeeUsable(cfg, m.db, c.sender, c.target.payee, m.clock))
  {
  }

  /** A credit takes its stamp exactly when the user's row is free and allows it. */
  lemma StampsIff(cfg: Config, m: Machine, sid: SessionId, credit: Op)
    requires Ok(cfg, m) && sid !in m.sessions
    ensures sid in Next(cfg, m, Stamp(sid, credit)).sessions <==>
            && (credit.Credited? || credit.Welcomed?) && credit.at == m.clock && credit.u in m.db.users
            && (forall other :: other in m.sessions ==> UserRow(credit.u) !in Holds(m.sessions[other]))
            && (credit.Credited? ==>
                  && 1 <= credit.amount <= 50_000_00
                  && !m.db.users[credit.u].frozen && !m.db.users[credit.u].securityLocked)
            && (credit.Welcomed? ==> credit.u !in m.db.welcomed)
  {
  }

  /** A session passes its token exactly when the token is good, the amount whole and the recipient can receive. */
  lemma ConsumesIff(cfg: Config, db: Db, s: Session, now: int)
    requires SessionOk(cfg, db, s) && s.phase.WantPending?
    ensures var c, next := s.c, Step(cfg, db, s, now).1.phase;
            var consumed := if c.target.ToPayee? then s.phase.startedAt else now;
            && (next.WantLower? <==>
                && TokenGood(db, c.sender, c.target, c.pending, consumed)
                && (c.target.ToUser? ==> c.target.user == c.recipient && CanReceivePayup(db, c.sender, c.recipient))
                && WholeCents(db.pendings[c.pending].amountE5))
            && (next.WantLower? ==> next == WantLower(consumed, db.pendings[c.pending].amountE5 / 1000))
  {
    if s.c.pending in db.pendings {
      CentsOfWholeCents(db.pendings[s.c.pending].amountE5);
    }
  }

  predicate Covered(cfg: Config, c: Call, from: User, amount: int, used: int) {
    && amount <= from.balance
    && (c.target.ToPayee? ==> used + amount <= from.localLimit)
    && (c.target.ToUser? ==>
          Unblocked(cfg, from, c.signals, amount, used) && (c.authorized || WithinQuickCaps(cfg, amount, used)))
  }

  /** A session passes its checks exactly when funds, limit and, for PayUp, the risk policy allow it. */
  lemma ChecksIff(cfg: Config, db: Db, s: Session, now: int)
    requires SessionOk(cfg, db, s) && s.phase.Ready?
    ensures var c, p, next := s.c, s.phase, Step(cfg, db, s, now).1.phase;
            var used := SentToday(db, c.sender, if c.target.ToPayee? then LocalTransfer else PayUp, now);
            && (next.Checked? <==> Covered(cfg, c, p.from, p.amount, used))
            && (next.Checked? ==>
                  next.checkedAt == now && next.amount == p.amount
                  && (next.steppedUp <==> c.target.ToUser? && !WithinQuickCaps(cfg, p.amount, used)))
  {
    UsedIsSent(db.log, s.c.sender, if s.c.target.ToPayee? then LocalTransfer else PayUp, now);
  }

  /** What the caller is told when the token or its checks fail. */
  lemma ConsumeReasons(cfg: Config, db: Db, s: Session, now: int)
    requires SessionOk(cfg, db, s) && s.phase.WantPending?
    ensures var c, next := s.c, Step(cfg, db, s, now).1.phase;
            var consumed := if c.target.ToPayee? then s.phase.startedAt else now;
            var found :=
              TokenFound(db, c.sender, c.target, c.pending) && (c.target.ToUser? ==> c.target.user == c.recipient);
            var good := found && db.pendings[c.pending].expiresAt >= consumed;
            var whole := good && WholeCents(db.pendings[c.pending].amountE5);
            && (next == Finished(Refused(TokenNotFound)) <==> !found)
            && (next == Finished(Refused(TokenExpired)) <==> found && !good)
            && (next == Finished(Burned(AmountInvalid)) <==> good && !whole)
            && (next == Finished(Burned(RecipientUnavailable)) <==>
                whole && c.target.ToUser? && !CanReceivePayup(db, c.sender, c.recipient))
  {
    if s.c.pending in db.pendings {
      CentsOfWholeCents(db.pendings[s.c.pending].amountE5);
    }
  }

  lemma CheckReasons(cfg: Config, db: Db, s: Session, now: int)
    requires SessionOk(cfg, db, s) && s.phase.Ready?
    ensures var c, p, next := s.c, s.phase, Step(cfg, db, s, now).1.phase;
            var used := SentToday(db, c.sender, if c.target.ToPayee? then LocalTransfer else PayUp, now);
            var unblocked := c.target.ToUser? && Unblocked(cfg, p.from, c.signals, p.amount, used);
            var signed := unblocked && (c.authorized || WithinQuickCaps(cfg, p.amount, used));
            && (next == Finished(Burned(RiskBlocked)) <==> c.target.ToUser? && !unblocked)
            && (next == Finished(Burned(StepUpRequired)) <==> unblocked && !signed)
            && (next == Finished(Burned(InsufficientFunds)) <==>
                (signed || c.target.ToPayee?) && p.amount > p.from.balance)
            && (next == Finished(Burned(DailyLimitExceeded)) <==>
                c.target.ToPayee? && p.amount <= p.from.balance && used + p.amount > p.from.localLimit)
  {
    UsedIsSent(db.log, s.c.sender, if s.c.target.ToPayee? then LocalTransfer else PayUp, now);
  }

  /** A session that is not over may be rolled back at any time, and leaves nothing. */
  lemma AbortAnswers(cfg: Config, m: Machine, sid: SessionId)
    requires Ok(cfg, m) && sid in m.sessions && !m.sessions[sid].phase.Finished? && !m.sessions[sid].phase.CreditDone?
    ensures var n := Next(cfg, m, Abort(sid));
            && n.db == m.db && n.history == m.history && sid in n.sessions
            && n.sessions[sid].phase in {Finished(RolledBack), CreditDone}
  {
  }

  ghost predicate Answered(m: Machine, sid: SessionId, s: Session) {
    sid in m.sessions && m.sessions[sid] == s && (s.phase.Finished? || s.phase.CreditDone?)
  }

  lemma AnswerStays(cfg: Config, m: Machine, e: Event, sid: SessionId, s: Session)
    requires Ok(cfg, m) && Answered(m, sid, s)
    ensures Answered(Next(cfg, m, e), sid, s)
  {
  }

  lemma OneMoreEvent(cfg: Config, events: seq<Event>, e: Event, sid: SessionId, s: Session)
    requires Answered(Run(cfg, events), sid, s)
    ensures Answered(Run(cfg, events + [e]), sid, s)
  {
    AnswerStays(cfg, Run(cfg, events), e, sid, s);
    RunStep(cfg, events, e);
  }

  /** Whatever follows, a session that has its answer keeps it. */
  lemma {:induction false} AnsweredForGood(cfg: Config, events: seq<Event>, more: seq<Event>, sid: SessionId,
                                           s: Session)
    requires Answered(Run(cfg, events), sid, s)
    ensures Answered(Run(cfg, events + more), sid, s)
    decreases |more|
  {
    if more == [] {
      assert events + more == events;
    } else {
      assert events + more == events + [more[0]] + more[1..];
      OneMoreEvent(cfg, events, more[0], sid, s);
      AnsweredForGood(cfg, events + [more[0]], more[1..], sid, s);
    }
  }

  // ----- local rows and their payees

  function StartedAt(p: Phase): int {
    match p
    case WantPending(startedAt) => startedAt
    case WantLower(consumed, _) => consumed
    case WantHigher(consumed, _, _) => consumed
    case Ready(consumed, _, _, _) => consumed
    case Checked(consumed, _, _, _, _, _) => consumed
    case Stamped(consumed, _, _, _, _, _, _) => consumed
    case _ => 0
  }

  /** The payee a transfer at an instant rests on: the sender's own, the recipient's account, past its cooldown. */
  predicate PayeeBehind(cfg: Config, payees: map<PayeeId, Payee>, id: PayeeId, sender: UserId, recipient: UserId,
                        at: int)
  {
    && id in payees && payees[id].owner == sender && payees[id].account == recipient
    && at - payees[id].createdAt >= cfg.payeeCooldown
  }

  /** A payee removed while a session runs does not come back under the same id. */
  ghost predicate LocalSessionOk(cfg: Config, m: Machine, s: Session) {
    s.c.target.ToPayee? && IsTransfer(s.phase) && !Over(s.phase) ==>
      && Listed(m.history, s.c.target.payee)
      && (s.c.target.payee in m.db.payees ==>
            PayeeBehind(cfg, m.db.payees, s.c.target.payee, s.c.sender, s.c.recipient, StartedAt(s.phase)))
      && StartedAt(s.phase) <= m.clock && (s.phase.Stamped? ==> StartedAt(s.phase) <= s.phase.at)
  }

  ghost predicate HasToken(pendings: map<PendingId, Pending>, id: PayeeId) {
    exists p :: p in pendings && pendings[p].target == ToPayee(id)
  }

  ghost predicate RowHasPayee(cfg: Config, db: Db, row: Transaction) {
    row.channel == LocalTransfer ==>
      exists id :: PayeeBehind(cfg, db.payees, id, row.sender, row.recipient, row.at) && HasToken(db.pendings, id)
  }

  ghost predicate SessionsRest(cfg: Config, m: Machine) {
    forall sid :: sid in m.sessions ==> LocalSessionOk(cfg, m, m.sessions[sid])
  }

  ghost predicate RowsRest(cfg: Config, db: Db) {
    forall i :: 0 <= i < |db.log| ==> RowHasPayee(cfg, db, db.log[i])
  }

  /** Every payee in the table was added once, and every token for a payee has its payee. */
  ghost predicate TablesRest(m: Machine) {
    && (forall id :: id in m.db.payees ==> Listed(m.history, id))
    && (forall id :: HasToken(m.db.pendings, id) ==> id in m.db.payees)
  }

  ghost predicate Rests(cfg: Config, m: Machine) {
    SessionsRest(cfg, m) && RowsRest(cfg, m.db) && TablesRest(m)
  }

  /** What an event leaves: rows once added stay as they are or go, and those with a token stay. */
  ghost predicate PayeesKept(m: Machine, n: Machine) {
    && m.clock <= n.clock
    && (forall id :: Listed(m.history, id) ==> Listed(n.history, id))
    && (forall id :: HasToken(m.db.pendings, id) ==> HasToken(n.db.pendings, id))
    && (forall id :: id in n.db.payees && Listed(m.history, id) ==>
          id in m.db.payees && n.db.payees[id] == m.db.payees[id])
    && (forall id :: id in m.db.payees && HasToken(m.db.pendings, id) ==>
          id in n.db.payees && n.db.payees[id] == m.db.payees[id])
  }

  lemma StillRests(cfg: Config, m: Machine, n: Machine, s: Session)
    requires LocalSessionOk(cfg, m, s) && PayeesKept(m, n)
    ensures LocalSessionOk(cfg, n, s)
  {
  }

  lemma RowStillRests(cfg: Config, m: Machine, n: Machine, row: Transaction)
    requires RowHasPayee(cfg, m.db, row) && PayeesKept(m, n)
    ensures RowHasPayee(cfg, n.db, row)
  {
    if row.channel == LocalTransfer {
      var id :| PayeeBehind(cfg, m.db.payees, id, row.sender, row.recipient, row.at) && HasToken(m.db.pendings, id);
      assert PayeeBehind(cfg, n.db.payees, id, row.sender, row.recipient, row.at);
    }
  }

  /** A session's step keeps the payees and what tokens aim at. */
  lemma StepKeepsTargets(cfg: Config, db: Db, s: Session, now: int)
    requires SessionOk(cfg, db, s)
    ensures var (after, _, ops) := Step(cfg, db, s, now);
            && after.payees == db.payees && (forall op :: op in ops ==> !op.Enlisted?)
            && after.pendings.Keys == db.pendings.Keys
            && (forall p :: p in db.pendings ==> after.pendings[p].target == db.pendings[p].target)
  {
  }

  lemma SameTokens(before: map<PendingId, Pending>, after: map<PendingId, Pending>, id: PayeeId)
    requires before.Keys == after.Keys && forall p :: p in before ==> after[p].target == before[p].target
    ensures HasToken(before, id) <==> HasToken(after, id)
  {
    if p :| p in before && before[p].target == ToPayee(id) {
      assert after[p].target == ToPayee(id);
    }
    if p :| p in after && after[p].target == ToPayee(id) {
      assert before[p].target == ToPayee(id);
    }
  }

  /** The payee behind a session that has passed its token. */
  lemma TokenNamesPayee(cfg: Config, m: Machine, s: Session)
    requires SessionOk(cfg, m.db, s) && LocalSessionOk(cfg, m, s) && TablesRest(m)
    requires s.c.target.ToPayee? && s.phase.Stamped?
    ensures HasToken(m.db.pendings, s.c.target.payee)
    ensures PayeeBehind(cfg, m.db.payees, s.c.target.payee, s.c.sender, s.c.recipient, s.phase.at)
  {
    assert m.db.pendings[s.c.pending].target == ToPayee(s.c.target.payee);
  }

  lemma StepRests(cfg: Config, m: Machine, s: Session)
    requires SessionOk(cfg, m.db, s) && LocalSessionOk(cfg, m, s)
    ensures var (db, s', _) := Step(cfg, m.db, s, m.clock);
            && LocalSessionOk(cfg, m, s')
            && (db.log == m.db.log
                || (&& |db.log| == |m.db.log| + 1 && db.log == m.db.log + [db.log[|m.db.log|]]
                    && var row := db.log[|m.db.log|];
                       row.channel == LocalTransfer ==>
                         && s.c.target.ToPayee? && s.phase.Stamped? && row.at == s.phase.at
                         && row.sender == s.c.sender && row.recipient == s.c.recipient))
  {
  }

  lemma AdvanceRests(cfg: Config, m: Machine, sid: SessionId)
    requires Ok(cfg, m) && Rests(cfg, m) && sid in m.sessions && !Blocked(m, sid)
    ensures Rests(cfg, Next(cfg, m, Advance(sid)))
  {
    var n, s := Next(cfg, m, Advance(sid)), m.sessions[sid];
    assert LocalSessionOk(cfg, m, s);
    StepRests(cfg, m, s);
    StepKeepsTargets(cfg, m.db, s, m.clock);
    forall id ensures HasToken(m.db.pendings, id) <==> HasToken(n.db.pendings, id) {
      SameTokens(m.db.pendings, n.db.pendings, id);
    }
    assert PayeesKept(m, n);
    forall other | other in n.sessions ensures LocalSessionOk(cfg, n, n.sessions[other]) {
      StillRests(cfg, m, n, n.sessions[other]);
    }
    forall i | 0 <= i < |n.db.log| ensures RowHasPayee(cfg, n.db, n.db.log[i]) {
      if i < |m.db.log| {
        RowStillRests(cfg, m, n, m.db.log[i]);
      } else if n.db.log[i].channel == LocalTransfer {
        TokenNamesPayee(cfg, m, s);
      }
    }
  }

  lemma BeginRests(cfg: Config, m: Machine, sid: SessionId, c: Call)
    requires Ok(cfg, m) && TablesRest(m) && sid !in m.sessions && MayBegin(cfg, m.db, c, m.clock)
    ensures LocalSessionOk(cfg, m, Session(c, WantPending(m.clock), |m.history|))
  {
  }

  lemma CommitKeepsTables(cfg: Config, m: Machine, op: Op)
    requires Ok(cfg, m) && MayCommit(m, op) && TablesRest(m)
    ensures TablesRest(Next(cfg, m, Commit(op))) && PayeesKept(m, Next(cfg, m, Commit(op)))
  {
    var n := Next(cfg, m, Commit(op));
    forall id | HasToken(m.db.pendings, id) ensures HasToken(n.db.pendings, id) {
      var p :| p in m.db.pendings && m.db.pendings[p].target == ToPayee(id);
      assert n.db.pendings[p].target == ToPayee(id);
    }
    forall id | Listed(m.history, id) ensures Listed(n.history, id) {
      var payee :| Enlisted(id, payee) in m.history;
      assert Enlisted(id, payee) in n.history;
    }
    forall id | id in n.db.payees ensures Listed(n.history, id) {
      assert op.Enlisted? ==> op in n.history;
    }
  }

  lemma CommitRests(cfg: Config, m: Machine, op: Op)
    requires Ok(cfg, m) && MayCommit(m, op) && Rests(cfg, m)
    ensures Rests(cfg, Next(cfg, m, Commit(op)))
  {
    var n := Next(cfg, m, Commit(op));
    CommitKeepsTables(cfg, m, op);
    forall sid | sid in n.sessions ensures LocalSessionOk(cfg, n, n.sessions[sid]) {
      StillRests(cfg, m, n, n.sessions[sid]);
    }
    forall i | 0 <= i < |n.db.log| ensures RowHasPayee(cfg, n.db, n.db.log[i]) {
      RowStillRests(cfg, m, n, m.db.log[i]);
    }
  }

  lemma NextRests(cfg: Config, m: Machine, e: Event)
    requires Ok(cfg, m) && Rests(cfg, m)
    ensures Rests(cfg, Next(cfg, m, e))
  {
    match e
    case Advance(sid) =>
      if sid in m.sessions && !Blocked(m, sid) {
        AdvanceRests(cfg, m, sid);
      }
    case Begin(sid, c) =>
      if sid !in m.sessions && MayBegin(cfg, m.db, c, m.clock) {
        BeginRests(cfg, m, sid, c);
      }
    case Commit(op) =>
      if MayCommit(m, op) {
        CommitRests(cfg, m, op);
      }
    case _ =>
  }

  lemma {:induction false} RunRests(cfg: Config, events: seq<Event>)
    ensures Rests(cfg, Run(cfg, events))
  {
    if events != [] {
      RunRests(cfg, events[..|events| - 1]);
      NextRests(cfg, Run(cfg, events[..|events| - 1]), events[|events| - 1]);
    }
  }

  /**
   In every interleaving, with payees added and removed at any time, each local transfer in
   the log went to the account of a payee that its sender owns and that is still in the table,
   stamped no earlier than the cooldown after that payee was added.
   */
  lemma LocalRowsRestOnPayees(cfg: Config, events: seq<Event>, i: nat)
    requires i < |Run(cfg, events).db.log| && Run(cfg, events).db.log[i].channel == LocalTransfer
    ensures var db := Run(cfg, events).db;
            exists id :: && id in db.payees && db.payees[id].owner == db.log[i].sender
                         && db.payees[id].account == db.log[i].recipient
                         && db.log[i].at - db.payees[id].createdAt >= cfg.payeeCooldown
  {
    RunRests(cfg, events);
    var db := Run(cfg, events).db;
    assert RowHasPayee(cfg, db, db.log[i]);
    var id :| PayeeBehind(cfg, db.payees, id, db.log[i].sender, db.log[i].recipient, db.log[i].at);
  }

  // ----- PayUp rows and who authorized them

  /** The operation of a serial run that appended a row. */
  ghost predicate Appends(cfg: Config, ops: seq<Op>, k: nat, i: nat) {
    k < |ops| && |Replay(cfg, ops[..k]).log| == i && |Replay(cfg, ops[..k + 1]).log| == i + 1
  }

  lemma ApplyAppendsAtMostOne(cfg: Config, db: Db, op: Op)
    ensures db.log <= Apply(cfg, db, op).log && |Apply(cfg, db, op).log| <= |db.log| + 1
  {
  }

  lemma {:induction false} EveryRowWasAppended(cfg: Config, ops: seq<Op>, i: nat) returns (k: nat)
    requires i < |Replay(cfg, ops).log|
    ensures Appends(cfg, ops, k, i)
  {
    var before := ops[..|ops| - 1];
    ApplyAppendsAtMostOne(cfg, Replay(cfg, before), ops[|ops| - 1]);
    if i < |Replay(cfg, before).log| {
      k := EveryRowWasAppended(cfg, before, i);
      assert before[..k] == ops[..k] && before[..k + 1] == ops[..k + 1];
    } else {
      k := |ops| - 1;
      assert ops[..k + 1] == ops;
    }
  }

  lemma {:induction false} LogOnlyGrows(cfg: Config, ops: seq<Op>, k: nat)
    requires k <= |ops|
    ensures Replay(cfg, ops[..k]).log <= Replay(cfg, ops).log
    decreases |ops|
  {
    if k < |ops| {
      LogOnlyGrows(cfg, ops[..|ops| - 1], k);
      assert ops[..|ops| - 1][..k] == ops[..k];
      ApplyAppendsAtMostOne(cfg, Replay(cfg, ops[..|ops| - 1]), ops[|ops| - 1]);
    } else {
      assert ops[..k] == ops;
    }
  }

  /** A PayUp row that one operation appends, against the database before it. */
  lemma PayupRowWasAllowed(cfg: Config, db: Db, op: Op)
    requires |Apply(cfg, db, op).log| == |db.log| + 1 && Apply(cfg, db, op).log[|db.log|].channel == PayUp
    ensures op.Settled? && op.c.sender in db.users && op.c.target.ToUser?
    ensures var row, u := Apply(cfg, db, op).log[|db.log|], db.users[op.c.sender];
            var used := SentToday(db, op.c.sender, PayUp, op.checkedAt);
            && row == Transaction(op.c.sender, op.c.recipient, row.amount, PayUp, true, op.committedAt,
                                  !WithinQuickCaps(cfg, row.amount, used))
            && Unblocked(cfg, u, op.c.signals, row.amount, used) && row.amount <= u.balance
            && (!WithinQuickCaps(cfg, row.amount, used) ==> op.c.authorized)
  {
    if op.Settled? {
      UsedIsSent(db.log, op.c.sender, PayUp, op.checkedAt);
    }
  }

  /** The row's amount, or the sender's PayUp total of its SGT day up to it, is over a quick cap. */
  predicate OverQuickCap(cfg: Config, row: Transaction, upTo: seq<Transaction>) {
    || row.amount > cfg.quickTransferCap
    || Sum(SentOnDay(row.sender, PayUp, DayOf(row.at)), upTo) > cfg.quickDailyCap
  }

  lemma PayupRowOverCap(cfg: Config, db: Db, op: Op)
    requires RowsSound(db) && |Apply(cfg, db, op).log| == |db.log| + 1
    requires Apply(cfg, db, op).log[|db.log|].channel == PayUp
    ensures var after := Apply(cfg, db, op);
            var row := after.log[|db.log|];
            && op.Settled?
            && (OverQuickCap(cfg, row, after.log) || row.steppedUp ==> op.c.authorized)
  {
    PayupRowWasAllowed(cfg, db, op);
    var after := Apply(cfg, db, op);
    var row := after.log[|db.log|];
    UsageIsTheDaysTotal(db, op.c.sender, PayUp, op.checkedAt);
    UsedIsSent(db.log, op.c.sender, PayUp, op.checkedAt);
    SumPush(SentOnDay(row.sender, PayUp, DayOf(row.at)), db.log, row);
    assert after.log == db.log + [row];
  }

  /**
   In every interleaving each PayUp row comes from an operation of its history whose call
   passed the risk policy, and a row over a quick cap, by its amount or by its SGT day's
   total, comes from an authorized call.
   */
  lemma OverCapRowsWereAuthorized(cfg: Config, events: seq<Event>, i: nat) returns (k: nat)
    requires i < |Run(cfg, events).db.log| && Run(cfg, events).db.log[i].channel == PayUp
    ensures var h := Run(cfg, events).history;
            Appends(cfg, h, k, i) && h[k].Settled? && h[k].c.sender in Replay(cfg, h[..k]).users
    ensures var h, row := Run(cfg, events).history, Run(cfg, events).db.log[i];
            var before := Replay(cfg, h[..k]);
            && h[k].c.sender == row.sender && h[k].c.recipient == row.recipient && h[k].committedAt == row.at
            && Unblocked(cfg, before.users[row.sender], h[k].c.signals, row.amount,
                         SentToday(before, row.sender, PayUp, h[k].checkedAt))
            && (OverQuickCap(cfg, row, Run(cfg, events).db.log[..i + 1]) || row.steppedUp ==> h[k].c.authorized)
  {
    var h := Run(cfg, events).history;
    RunsAreSerializable(cfg, events);
    k := EveryRowWasAppended(cfg, h, i);
    var before, after := Replay(cfg, h[..k]), Replay(cfg, h[..k + 1]);
    assert h[..k + 1][..k] == h[..k];
    LogOnlyGrows(cfg, h, k + 1);
    assert after.log == Replay(cfg, h).log[..i + 1];
    ReplayIsSound(cfg, h[..k]);
    PayupRowWasAllowed(cfg, before, h[k]);
    PayupRowOverCap(cfg, before, h[k]);
  }
}
