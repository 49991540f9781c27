/**
 When a transfer call answers what, said over the rows and the inputs alone: which
 checks come before the confirmation token is consumed, which after it, and what a
 transfer that goes through leaves behind.
 */
module TransferRules {
  import opened Sums
  import opened Calendar
  import opened Ledger

  /** The stored amount is a whole number of cents from 0.01 to 50000.00. */
  predicate WholeCents(amountE5: int) {
    amountE5 % 1000 == 0 && 1_000 <= amountE5 <= 5_000_000_000
  }

  lemma CentsOfWholeCents(amountE5: int)
    ensures CentsOf(amountE5) == if WholeCents(amountE5) then Some(amountE5 / 1000) else None
  {
  }

  /** The token is this sender's for this target, and unspent. */
  predicate TokenFound(db: Db, sender: UserId, target: Target, pid: PendingId) {
    && pid in db.pendings && db.pendings[pid].owner == sender && db.pendings[pid].target == target
    && db.pendings[pid].consumedAt == None
  }

  predicate TokenGood(db: Db, sender: UserId, target: Target, pid: PendingId, at: int) {
    TokenFound(db, sender, target, pid) && db.pendings[pid].expiresAt >= at
  }

  /** What u has sent over a channel in completed rows that are not of an earlier SGT day. */
  function SentIn(log: seq<Transaction>, u: UserId, ch: Channel, t: int): int {
    if log == [] then 0
    else
      var last := log[|log| - 1];
      var counts := last.sender == u && last.channel == ch && last.completed && DayOf(last.at) >= DayOf(t);
      SentIn(log[..|log| - 1], u, ch, t) + if counts then last.amount else 0
  }

  function SentToday(db: Db, u: UserId, ch: Channel, t: int): int {
    SentIn(db.log, u, ch, t)
  }

  lemma {:induction false} UsedIsSent(log: seq<Transaction>, u: UserId, ch: Channel, t: int)
    ensures Sum(UsedSince(u, ch, SgtDayStartUtc(t)), log) == SentIn(log, u, ch, t)
  {
    if log != [] {
      UsedIsSent(log[..|log| - 1], u, ch, t);
      SinceDayStart(t, log[|log| - 1].at);
    }
  }

  // ----- local transfers

  predicate PayeeUsable(cfg: Config, db: Db, sender: UserId, payee: PayeeId, now: int)
    requires payee in db.payees
  {
    var p := db.payees[payee];
    && p.owner == sender && p.account in db.users && p.account != sender
    && (db.users[p.account].status == Active || db.users[p.account].status == Locked)
    && now - p.createdAt >= cfg.payeeCooldown
  }

  /** Everything checked before the token is consumed. */
  predicate LocalAdmitted(cfg: Config, db: Db, sender: UserId, payee: PayeeId, pid: PendingId, now: int)
    requires sender in db.users && payee in db.payees
  {
    && !db.users[sender].frozen && !db.users[sender].securityLocked
    && PayeeUsable(cfg, db, sender, payee, now)
    && TokenGood(db, sender, ToPayee(payee), pid, now)
  }

  /** Everything checked after it: amount, balance and daily limit. */
  predicate LocalCovered(db: Db, sender: UserId, pid: PendingId, checkedAt: int)
    requires sender in db.users && pid in db.pendings
  {
    var e5, u := db.pendings[pid].amountE5, db.users[sender];
    && WholeCents(e5) && e5 / 1000 <= u.balance
    && SentToday(db, sender, LocalTransfer, checkedAt) + e5 / 1000 <= u.localLimit
  }

  /** The four answers of a local transfer, each exactly when. */
  lemma LocalTransferAnswers(cfg: Config, db: Db, sender: UserId, payee: PayeeId, pid: PendingId,
                             now: int, checkedAt: int, committedAt: int, auditWritten: bool)
    requires sender in db.users && payee in db.payees
    ensures var outcome := LocalTransferCall(cfg, db, sender, payee, pid, now, checkedAt, committedAt, auditWritten).1;
            var admitted := LocalAdmitted(cfg, db, sender, payee, pid, now);
            && (outcome.Refused? <==> !admitted)
            && (outcome.RolledBack? <==> admitted && !auditWritten)
            && (outcome.Burned? <==> admitted && auditWritten && !LocalCovered(db, sender, pid, checkedAt))
            && (outcome.Moved? <==> admitted && auditWritten && LocalCovered(db, sender, pid, checkedAt))
  {
    UsedIsSent(db.log, sender, LocalTransfer, checkedAt);
    if pid in db.pendings {
      CentsOfWholeCents(db.pendings[pid].amountE5);
    }
  }

  /** What a transfer that goes through leaves behind: two balances, one row, one spent token, and nothing else. */
  predicate Posted(before: Db, after: Db, row: Transaction, pid: PendingId, consumed: int)
    requires pid in before.pendings && row.sender in before.users && row.recipient in before.users
  {
    var token, from, to := before.pendings[pid], before.users[row.sender], before.users[row.recipient];
    && after.log == before.log + [row]
    && after.users == before.users[row.sender := from.(balance := from.balance - row.amount)]
                                  [row.recipient := to.(balance := to.balance + row.amount)]
    && after.pendings == before.pendings[pid := token.(consumedAt := Some(consumed), transaction := Some(|before.log|))]
    && after.payees == before.payees && after.welcomed == before.welcomed
  }

  predicate Burnt(before: Db, after: Db, pid: PendingId, consumed: int)
    requires pid in before.pendings
  {
    after == before.(pendings := before.pendings[pid :=
      before.pendings[pid].(consumedAt := Some(consumed), transaction := None)])
  }

  lemma LocalTransferEffect(cfg: Config, db: Db, sender: UserId, payee: PayeeId, pid: PendingId,
                            now: int, checkedAt: int, committedAt: int, auditWritten: bool)
    requires sender in db.users && payee in db.payees
    ensures var (after, outcome) :=
              LocalTransferCall(cfg, db, sender, payee, pid, now, checkedAt, committedAt, auditWritten);
            match outcome
            case Refused(_) => after == db
            case RolledBack => after == db
            case Burned(_) => pid in db.pendings && Burnt(db, after, pid, now)
            case Moved(ref) =>
              && ref == |db.log| && pid in db.pendings && db.payees[payee].account in db.users
              && var row := Transaction(sender, db.payees[payee].account, db.pendings[pid].amountE5 / 1000,
                                        LocalTransfer, true, committedAt, false);
                 Posted(db, after, row, pid, now)
  {
    if pid in db.pendings {
      CentsOfWholeCents(db.pendings[pid].amountE5);
    }
  }

  /** Which refusal: the first check that fails, in this order. */
  lemma LocalRefusalReasons(cfg: Config, db: Db, sender: UserId, payee: PayeeId, pid: PendingId,
                            now: int, checkedAt: int, committedAt: int, auditWritten: bool)
    requires sender in db.users && payee in db.payees
    ensures var outcome := LocalTransferCall(cfg, db, sender, payee, pid, now, checkedAt, committedAt, auditWritten).1;
            var p, free := db.payees[payee], !db.users[sender].frozen && !db.users[sender].securityLocked;
            var owned := free && p.owner == sender;
            var reachable := owned && p.account in db.users && p.account != sender;
            var open := reachable && (db.users[p.account].status == Active || db.users[p.account].status == Locked);
            var cool := open && now - p.createdAt >= cfg.payeeCooldown;
            && (outcome == Refused(AccountFrozen) <==> !free)
            && (outcome == Refused(PayeeNotOwned) <==> free && p.owner != sender)
            && (outcome == Refused(RecipientNotFound) <==> owned && p.account !in db.users)
            && (outcome == Refused(SelfTransfer) <==> owned && p.account in db.users && p.account == sender)
            && (outcome == Refused(RecipientUnavailable) <==> reachable && !open)
            && (outcome == Refused(PayeeInCooldown) <==> open && !cool)
            && (outcome == Refused(TokenNotFound) <==> cool && !TokenFound(db, sender, ToPayee(payee), pid))
            && (outcome == Refused(TokenExpired) <==>
                cool && TokenFound(db, sender, ToPayee(payee), pid) && db.pendings[pid].expiresAt < now)
  {
  }

  lemma LocalBurnReasons(cfg: Config, db: Db, sender: UserId, payee: PayeeId, pid: PendingId,
                         now: int, checkedAt: int, committedAt: int)
    requires sender in db.users && payee in db.payees && LocalAdmitted(cfg, db, sender, payee, pid, now)
    ensures var outcome := LocalTransferCall(cfg, db, sender, payee, pid, now, checkedAt, committedAt, true).1;
            var e5, u := db.pendings[pid].amountE5, db.users[sender];
            && (outcome == Burned(AmountInvalid) <==> !WholeCents(e5))
            && (outcome == Burned(InsufficientFunds) <==> WholeCents(e5) && e5 / 1000 > u.balance)
            && (outcome == Burned(DailyLimitExceeded) <==>
                WholeCents(e5) && e5 / 1000 <= u.balance
                && SentToday(db, sender, LocalTransfer, checkedAt) + e5 / 1000 > u.localLimit)
  {
    UsedIsSent(db.log, sender, LocalTransfer, checkedAt);
    CentsOfWholeCents(db.pendings[pid].amountE5);
  }

  // ----- PayUp transfers

  predicate PayupAdmitted(db: Db, sender: UserId, pid: PendingId, now: int)
    requires sender in db.users
  {
    && !db.users[sender].frozen && !db.users[sender].securityLocked && db.users[sender].hasNickname
    && pid in db.pendings && db.pendings[pid].target.ToUser?
    && TokenGood(db, sender, db.pendings[pid].target, pid, now)
  }

  predicate CanReceivePayup(db: Db, sender: UserId, recipient: UserId) {
    && recipient in db.users && recipient != sender
    && db.users[recipient].status == Active && !db.users[recipient].frozen && db.users[recipient].hasPhone
  }

  /** Nothing about the sender or the session blocks this amount. */
  predicate Unblocked(cfg: Config, u: User, s: Signals, amount: int, used: int) {
    && s.available && s.stable && s.sessionAge.Some? && s.sessionAge.value <= cfg.sessionMaxAge
    && !s.recentSensitiveEvent
    && u.payupEnabled && u.mfaEnrolled && u.payupLimit > 0 && cfg.quickTransferCap > 0 && cfg.quickDailyCap > 0
    && used >= 0 && amount > 0 && used + amount <= u.payupLimit
  }

  predicate WithinQuickCaps(cfg: Config, amount: int, used: int) {
    amount <= cfg.quickTransferCap && used + amount <= cfg.quickDailyCap
  }

  /** The risk decision and its reasons, for any amount and usage. */
  lemma RiskAnswers(cfg: Config, u: User, s: Signals, amount: int, used: int)
    ensures EvaluatePayupRisk(cfg, u, amount, used, s) ==
            if !Unblocked(cfg, u, s, amount, used) then Block
            else if WithinQuickCaps(cfg, amount, used) then Allow
            else StepUp(amount > cfg.quickTransferCap, used + amount > cfg.quickDailyCap)
  {
  }

  predicate PayupCovered(cfg: Config, db: Db, sender: UserId, pid: PendingId, authorized: bool, s: Signals,
                         checkedAt: int)
    requires sender in db.users && pid in db.pendings && db.pendings[pid].target.ToUser?
  {
    var e5, u := db.pendings[pid].amountE5, db.users[sender];
    var used := SentToday(db, sender, PayUp, checkedAt);
    && WholeCents(e5) && CanReceivePayup(db, sender, db.pendings[pid].target.user)
    && Unblocked(cfg, u, s, e5 / 1000, used)
    && (authorized || WithinQuickCaps(cfg, e5 / 1000, used))
    && e5 / 1000 <= u.balance
  }

  /** The four answers of a PayUp transfer, each exactly when. */
  lemma PayupTransferAnswers(cfg: Config, db: Db, sender: UserId, pid: PendingId, authorized: bool, s: Signals,
                             now: int, checkedAt: int, committedAt: int, auditWritten: bool)
    requires sender in db.users
    ensures var outcome :=
              PayupTransferCall(cfg, db, sender, pid, authorized, s, now, checkedAt, committedAt, auditWritten).1;
            var admitted := PayupAdmitted(db, sender, pid, now);
            && (outcome.Refused? <==> !admitted)
            && (outcome.RolledBack? <==> admitted && !auditWritten)
            && (outcome.Burned? <==>
                admitted && auditWritten && !PayupCovered(cfg, db, sender, pid, authorized, s, checkedAt))
            && (outcome.Moved? <==>
                admitted && auditWritten && PayupCovered(cfg, db, sender, pid, authorized, s, checkedAt))
  {
    UsedIsSent(db.log, sender, PayUp, checkedAt);
    if pid in db.pendings {
      CentsOfWholeCents(db.pendings[pid].amountE5);
    }
  }

  lemma PayupTransferEffect(cfg: Config, db: Db, sender: UserId, pid: PendingId, authorized: bool, s: Signals,
                            now: int, checkedAt: int, committedAt: int, auditWritten: bool)
    requires sender in db.users
    ensures var (after, outcome) :=
              PayupTransferCall(cfg, db, sender, pid, authorized, s, now, checkedAt, committedAt, auditWritten);
            match outcome
            case Refused(_) => after == db
            case RolledBack => after == db
            case Burned(_) => pid in db.pendings && Burnt(db, after, pid, now)
            case Moved(ref) =>
              && ref == |db.log| && pid in db.pendings && db.pendings[pid].target.ToUser?
              && db.pendings[pid].target.user in db.users
              && var amount, used := db.pendings[pid].amountE5 / 1000, SentToday(db, sender, PayUp, checkedAt);
                 var row := Transaction(sender, db.pendings[pid].target.user, amount, PayUp, true, committedAt,
                                        !WithinQuickCaps(cfg, amount, used));
                 Posted(db, after, row, pid, now)
  {
    UsedIsSent(db.log, sender, PayUp, checkedAt);
    if pid in db.pendings {
      CentsOfWholeCents(db.pendings[pid].amountE5);
    }
  }

  lemma PayupRefusalReasons(cfg: Config, db: Db, sender: UserId, pid: PendingId, authorized: bool, s: Signals,
                            now: int, checkedAt: int, committedAt: int, auditWritten: bool)
    requires sender in db.users
    ensures var outcome :=
              PayupTransferCall(cfg, db, sender, pid, authorized, s, now, checkedAt, committedAt, auditWritten).1;
            var free := !db.users[sender].frozen && !db.users[sender].securityLocked;
            && (outcome == Refused(AccountFrozen) <==> !free)
            && (outcome == Refused(NicknameRequired) <==> free && !db.users[sender].hasNickname)
            && (outcome == Refused(TokenNotFound) <==>
                && free && db.users[sender].hasNickname
                && !(pid in db.pendings && db.pendings[pid].target.ToUser?
                     && TokenFound(db, sender, db.pendings[pid].target, pid)))
            && (outcome == Refused(TokenExpired) <==>
                free && db.users[sender].hasNickname && pid in db.pendings && db.pendings[pid].target.ToUser?
                && TokenFound(db, sender, db.pendings[pid].target, pid) && db.pendings[pid].expiresAt < now)
  {
  }

  lemma PayupBurnReasons(cfg: Config, db: Db, sender: UserId, pid: PendingId, authorized: bool, s: Signals,
                         now: int, checkedAt: int, committedAt: int)
    requires sender in db.users && PayupAdmitted(db, sender, pid, now)
    ensures var outcome := PayupTransferCall(cfg, db, sender, pid, authorized, s, now, checkedAt, committedAt, true).1;
            var amount, u := db.pendings[pid].amountE5 / 1000, db.users[sender];
            var used := SentToday(db, sender, PayUp, checkedAt);
            var valid := WholeCents(db.pendings[pid].amountE5);
            var payable := valid && CanReceivePayup(db, sender, db.pendings[pid].target.user);
            var unblocked := payable && Unblocked(cfg, u, s, amount, used);
            && (outcome == Burned(AmountInvalid) <==> !valid)
            && (outcome == Burned(RecipientUnavailable) <==> valid && !payable)
            && (outcome == Burned(RiskBlocked) <==> payable && !unblocked)
            && (outcome == Burned(StepUpRequired) <==> unblocked && !authorized && !WithinQuickCaps(cfg, amount, used))
            && (outcome == Burned(InsufficientFunds) <==>
                unblocked && (authorized || WithinQuickCaps(cfg, amount, used)) && amount > u.balance)
  {
    UsedIsSent(db.log, sender, PayUp, checkedAt);
    CentsOfWholeCents(db.pendings[pid].amountE5);
  }

  // ----- credits

  /** A top-up credits exactly the amount asked for, to an owner who is neither frozen nor locked. */
  lemma TopUpAnswers(db: Db, u: UserId, amount: int, at: int, auditWritten: bool)
    requires u in db.users
    ensures var (after, outcome) := TopUpCall(db, u, amount, at, auditWritten);
            var row := db.users[u];
            var free := !row.frozen && !row.securityLocked;
            && (outcome == Refused(AccountFrozen) <==> !free)
            && (outcome.RolledBack? <==> free && !auditWritten)
            && (outcome.Moved? <==> free && auditWritten)
            && (!outcome.Moved? ==> after == db)
            && (outcome.Moved? ==>
                  after == db.(users := db.users[u := row.(balance := row.balance + amount)],
                               log := db.log + [Transaction(u, u, amount, TopUp, true, at, false)]))
  {
  }

  /** The welcome credit is 100.00, once. */
  lemma WelcomeAnswers(db: Db, u: UserId, at: int)
    requires u in db.users
    ensures var after, row := WelcomeCall(db, u, at), db.users[u];
            if u in db.welcomed then after == db
            else after == db.(users := db.users[u := row.(balance := row.balance + 100_00)],
                              welcomed := db.welcomed[u := at])
  {
  }
}
