/**
 The ledger rows and the service calls that move money: local transfer, PayUp
 transfer, self-service top-up and the registration welcome credit.

 Each transfer is described by `Settle`: what its locked section does to the
 committed rows when it runs with nobody else. The class `Bank` is the service
 itself, which assigns the rows field by field and is proved equal to that
 description. Money is in cents, pending amounts in units of 0.00001, time in
 microseconds.
 */
module Ledger {
  import opened Sums
  import opened Calendar

  type UserId = nat
  type PayeeId = nat
  type PendingId = nat

  const MIN_AMOUNT := 1
  const MAX_AMOUNT := 5_000_000
  const LIMIT_MIN := 10_000
  const LIMIT_MAX := 1_000_000
  const WELCOME_CREDIT := 10_000

  datatype AccountStatus = Active | SetupPending | Revoked | Locked

  datatype User = User(
    balance: int, localLimit: int, payupLimit: int,
    payupEnabled: bool, mfaEnrolled: bool, hasNickname: bool, hasPhone: bool,
    frozen: bool, securityLocked: bool, status: AccountStatus)

  datatype Channel = LocalTransfer | PayUp | TopUp

  datatype Payee = Payee(owner: UserId, account: UserId, createdAt: int)

  /** A confirmed local transfer names a payee; a PayUp transfer names the recipient. */
  datatype Target = ToPayee(payee: PayeeId) | ToUser(user: UserId)

  datatype Pending = Pending(
    owner: UserId, target: Target, amountE5: int, expiresAt: int,
    consumedAt: Option<int>, transaction: Option<nat>)

  /** `steppedUp` is the flag stored in the success audit row of the same commit. */
  datatype Transaction = Transaction(
    sender: UserId, recipient: UserId, amount: int, channel: Channel,
    completed: bool, at: int, steppedUp: bool)

  /** `welcomed` holds the time of each user's welcome credit, which is kept outside the transaction log. */
  datatype Db = Db(
    users: map<UserId, User>, payees: map<PayeeId, Payee>,
    pendings: map<PendingId, Pending>, log: seq<Transaction>, welcomed: map<UserId, int>)

  datatype Config = Config(payeeCooldown: int, quickTransferCap: int, quickDailyCap: int, sessionMaxAge: int)

  /** What the risk policy learns from the session store and the audit log. */
  datatype Signals = Signals(available: bool, sessionAge: Option<int>, stable: bool, recentSensitiveEvent: bool)

  datatype Refusal =
    | AccountFrozen | NicknameRequired | PayeeNotOwned | RecipientNotFound | SelfTransfer
    | RecipientUnavailable | PayeeInCooldown | TokenNotFound | TokenExpired | AmountInvalid
    | InsufficientFunds | DailyLimitExceeded | RiskBlocked | StepUpRequired

  /** Refused changes nothing; Burned spends the confirmation token and moves no money. */
  datatype Outcome = Refused(why: Refusal) | Burned(why: Refusal) | Moved(ref: nat) | RolledBack

  // ----- amounts

  /** The stored five-decimal amount as cents, when it is a whole number of cents in range. */
  function CentsOf(amountE5: int): (cents: Option<int>)
    ensures cents.Some? <==> exists c :: MIN_AMOUNT <= c <= MAX_AMOUNT && amountE5 == c * 1000
    ensures cents.Some? ==> amountE5 == cents.value * 1000
  {
    if amountE5 % 1000 != 0 then None
    else if amountE5 / 1000 < MIN_AMOUNT || amountE5 / 1000 > MAX_AMOUNT then None
    else assert amountE5 == (amountE5 / 1000) * 1000; Some(amountE5 / 1000)
  }

  // ----- PayUp risk policy

  datatype Decision = Allow | StepUp(overTransferCap: bool, overDailyCap: bool) | Block

  function Strictness(d: Decision): nat {
    match d case Allow => 0 case StepUp(_, _) => 1 case Block => 2
  }

  function EvaluatePayupRisk(cfg: Config, u: User, amount: int, used: int, s: Signals): Decision {
    if !s.available then Block
    else if amount <= 0 || used < 0 || u.payupLimit <= 0 || cfg.quickTransferCap <= 0
      || cfg.quickDailyCap <= 0 then Block
    else if !u.payupEnabled || !u.mfaEnrolled || !s.stable || s.sessionAge.None? then Block
    else if used + amount > u.payupLimit then Block
    else if s.sessionAge.value > cfg.sessionMaxAge || s.recentSensitiveEvent then Block
    else if amount > cfg.quickTransferCap || used + amount > cfg.quickDailyCap then
      StepUp(amount > cfg.quickTransferCap, used + amount > cfg.quickDailyCap)
    else Allow
  }

  /** A larger positive amount, or more usage, never gets a laxer decision. */
  lemma RiskNeverLaxer(cfg: Config, u: User, a: int, b: int, used: int, more: int, s: Signals)
    requires 0 < a <= b && 0 <= used <= more
    ensures Strictness(EvaluatePayupRisk(cfg, u, a, used, s)) <= Strictness(EvaluatePayupRisk(cfg, u, b, more, s))
  {
  }

  // ----- the locked section of a transfer

  datatype Call = Call(
    sender: UserId, recipient: UserId, target: Target, pending: PendingId,
    authorized: bool, signals: Signals)

  function ChannelOf(c: Call): Channel {
    if c.target.ToPayee? then LocalTransfer else PayUp
  }

  /** Weight of a row in the completed amount u sent over channel ch since an instant. */
  function UsedSince(u: UserId, ch: Channel, since: int): Transaction -> int {
    (t: Transaction) => if t.sender == u && t.channel == ch && t.completed && since <= t.at then t.amount else 0
  }

  function UsedToday(db: Db, c: Call, now: int): int {
    Sum(UsedSince(c.sender, ChannelOf(c), SgtDayStartUtc(now)), db.log)
  }

  datatype Verdict = Refuse(why: Refusal) | Proceed(steppedUp: bool)

  /** The checks made while the sender's row is locked. */
  function Judge(cfg: Config, c: Call, sender: User, used: int, amount: int): Verdict {
    if c.target.ToPayee? then
      if sender.balance < amount then Refuse(InsufficientFunds)
      else if used + amount > sender.localLimit then Refuse(DailyLimitExceeded)
      else Proceed(false)
    else
      var risk := EvaluatePayupRisk(cfg, sender, amount, used, c.signals);
      if risk.Block? then Refuse(RiskBlocked)
      else if risk.StepUp? && !c.authorized then Refuse(StepUpRequired)
      else if sender.balance < amount then Refuse(InsufficientFunds)
      else Proceed(risk.StepUp?)
  }

  /** The pending row a confirmation token resolves to, if it is this sender's and unused. */
  predicate Resolves(db: Db, c: Call) {
    && c.pending in db.pendings
    && var p := db.pendings[c.pending];
    && p.owner == c.sender && p.target == c.target && p.consumedAt.None?
    && (c.target.ToUser? ==> c.target.user == c.recipient)
  }

  function Consume(db: Db, pid: PendingId, at: int, ref: Option<nat>): Db
    requires pid in db.pendings
  {
    db.(pendings := db.pendings[pid := db.pendings[pid].(consumedAt := Some(at), transaction := ref)])
  }

  function RowOf(c: Call, amount: int, steppedUp: bool, at: int): Transaction {
    Transaction(c.sender, c.recipient, amount, ChannelOf(c), true, at, steppedUp)
  }

  /** Debit, credit, transaction row and token consumption: one commit. */
  function Move(db: Db, c: Call, consumed: int, amount: int, steppedUp: bool, at: int): Db
    requires c.pending in db.pendings && c.sender in db.users && c.recipient in db.users && c.sender != c.recipient
  {
    var from, to := db.users[c.sender], db.users[c.recipient];
    Consume(db, c.pending, consumed, Some(|db.log|)).(
      users := db.users[c.sender := from.(balance := from.balance - amount)]
                       [c.recipient := to.(balance := to.balance + amount)],
      log := db.log + [RowOf(c, amount, steppedUp, at)])
  }

  predicate Callable(db: Db, c: Call, eligible: bool) {
    c.sender in db.users && (eligible ==> c.recipient in db.users && c.recipient != c.sender)
  }

  /**
   The locked section run with nobody else: the token is consumed at `consumed`,
   `eligible` is what the unlocked recipient check found, usage is summed at
   `checkedAt` and the row is stamped `committedAt`.
   */
  function Settle(cfg: Config, db: Db, c: Call, eligible: bool, consumed: int, checkedAt: int, committedAt: int)
    : (Db, Outcome)
    requires Callable(db, c, eligible)
  {
    if !Resolves(db, c) then (db, Refused(TokenNotFound))
    else if db.pendings[c.pending].expiresAt < consumed then (db, Refused(TokenExpired))
    else
      var burned := Consume(db, c.pending, consumed, None);
      var cents := CentsOf(db.pendings[c.pending].amountE5);
      if cents.None? then (burned, Burned(AmountInvalid))
      else if !eligible then (burned, Burned(RecipientUnavailable))
      else
        var verdict := Judge(cfg, c, db.users[c.sender], UsedToday(db, c, checkedAt), cents.value);
        if verdict.Refuse? then (burned, Burned(verdict.why))
        else (Move(db, c, consumed, cents.value, verdict.steppedUp, committedAt), Moved(|db.log|))
  }

  // ----- checks made before anything is locked

  function LocalPreflight(cfg: Config, db: Db, sender: UserId, payee: PayeeId, now: int): Option<Refusal>
    requires sender in db.users && payee in db.payees
  {
    var p := db.payees[payee];
    if db.users[sender].frozen || db.users[sender].securityLocked then Some(AccountFrozen)
    else if p.owner != sender then Some(PayeeNotOwned)
    else if p.account !in db.users then Some(RecipientNotFound)
    else if p.account == sender then Some(SelfTransfer)
    else if db.users[p.account].status != Active && db.users[p.account].status != Locked then Some(RecipientUnavailable)
    else if now - p.createdAt < cfg.payeeCooldown then Some(PayeeInCooldown)
    else None
  }

  function PayupPreflight(u: User): Option<Refusal> {
    if u.frozen || u.securityLocked then Some(AccountFrozen)
    else if !u.hasNickname then Some(NicknameRequired)
    else None
  }

  predicate PayupRecipientEligible(db: Db, sender: UserId, recipient: UserId) {
    recipient in db.users && recipient != sender && db.users[recipient].status == Active
    && !db.users[recipient].frozen && db.users[recipient].hasPhone
  }

  /** A best-effort audit row that cannot be written rolls the open transaction back. */
  function Audited(before: Db, after: (Db, Outcome), auditWritten: bool): (Db, Outcome) {
    if auditWritten || after.1.Refused? then after else (before, RolledBack)
  }

  function LocalTransferCall(cfg: Config, db: Db, sender: UserId, payee: PayeeId, pid: PendingId,
                             now: int, checkedAt: int, committedAt: int, auditWritten: bool): (Db, Outcome)
    requires sender in db.users && payee in db.payees
  {
    var refusal := LocalPreflight(cfg, db, sender, payee, now);
    if refusal.Some? then (db, Refused(refusal.value))
    else
      var c := Call(sender, db.payees[payee].account, ToPayee(payee), pid, false, Signals(false, None, false, false));
      Audited(db, Settle(cfg, db, c, true, now, checkedAt, committedAt), auditWritten)
  }

  function PayupTransferCall(cfg: Config, db: Db, sender: UserId, pid: PendingId, authorized: bool, s: Signals,
                             now: int, checkedAt: int, committedAt: int, auditWritten: bool): (Db, Outcome)
    requires sender in db.users
  {
    var refusal := PayupPreflight(db.users[sender]);
    if refusal.Some? then (db, Refused(refusal.value))
    else if pid !in db.pendings || db.pendings[pid].target.ToPayee? then (db, Refused(TokenNotFound))
    else
      var recipient := db.pendings[pid].target.user;
      var c := Call(sender, recipient, ToUser(recipient), pid, authorized, s);
      Audited(db, Settle(cfg, db, c, PayupRecipientEligible(db, sender, recipient), now, checkedAt, committedAt),
        auditWritten)
  }

  // ----- credits

  function TopUpCall(db: Db, u: UserId, amount: int, at: int, auditWritten: bool): (Db, Outcome)
    requires u in db.users
  {
    var row := db.users[u];
    if row.frozen || row.securityLocked then (db, Refused(AccountFrozen))
    else if !auditWritten then (db, RolledBack)
    else
      (db.(users := db.users[u := row.(balance := row.balance + amount)],
           log := db.log + [Transaction(u, u, amount, TopUp, true, at, false)]),
       Moved(|db.log|))
  }

  /** The welcome credit is given once: a second call finds the credit row and stops. */
  function WelcomeCall(db: Db, u: UserId, at: int): Db
    requires u in db.users
  {
    if u in db.welcomed then db
    else db.(users := db.users[u := db.users[u].(balance := db.users[u].balance + WELCOME_CREDIT)],
             welcomed := db.welcomed[u := at])
  }

  // ----- the service, assigning rows in place

  class Bank {
    var users: map<UserId, User>
    var payees: map<PayeeId, Payee>
    var pendings: map<PendingId, Pending>
    var log: seq<Transaction>
    var welcomed: map<UserId, int>

    function Committed(): Db
      reads this
    {
      Db(users, payees, pendings, log, welcomed)
    }

    constructor ()
      ensures Committed() == Db(map[], map[], map[], [], map[])
    {
      users, payees, pendings, log, welcomed := map[], map[], map[], [], map[];
    }

    method ExecuteLocalTransfer(cfg: Config, sender: UserId, payee: PayeeId, pid: PendingId,
                                now: int, checkedAt: int, committedAt: int, auditWritten: bool)
      returns (outcome: Outcome)
      requires sender in users && payee in payees
      modifies this
      ensures (Committed(), outcome) ==
              LocalTransferCall(cfg, old(Committed()), sender, payee, pid, now, checkedAt, committedAt, auditWritten)
    {
      if users[sender].frozen || users[sender].securityLocked {
        return Refused(AccountFrozen);
      }
      if payees[payee].owner != sender {
        return Refused(PayeeNotOwned);
      }
      var recipient := payees[payee].account;
      if recipient !in users {
        return Refused(RecipientNotFound);
      }
      if recipient == sender {
        return Refused(SelfTransfer);
      }
      if users[recipient].status != Active && users[recipient].status != Locked {
        return Refused(RecipientUnavailable);
      }
      if now - payees[payee].createdAt < cfg.payeeCooldown {
        return Refused(PayeeInCooldown);
      }
      if pid !in pendings || pendings[pid].owner != sender || pendings[pid].target != ToPayee(payee)
         || pendings[pid].consumedAt.Some? {
        return Refused(TokenNotFound);
      }
      if pendings[pid].expiresAt < now {
        return Refused(TokenExpired);
      }
      var unspent := pendings;
      pendings := pendings[pid := pendings[pid].(consumedAt := Some(now), transaction := None)];
      var cents := CentsOf(pendings[pid].amountE5);
      var refusal := None;
      if cents.None? {
        refusal := Some(AmountInvalid);
      } else if users[sender].balance < cents.value {
        refusal := Some(InsufficientFunds);
      } else {
        var used := Sum(UsedSince(sender, LocalTransfer, SgtDayStartUtc(checkedAt)), log);
        if used + cents.value > users[sender].localLimit {
          refusal := Some(DailyLimitExceeded);
        }
      }
      if !auditWritten {
        pendings := unspent;
        return RolledBack;
      }
      if refusal.Some? {
        return Burned(refusal.value);
      }
      outcome := Post(Transaction(sender, recipient, cents.value, LocalTransfer, true, committedAt, false), pid);
      assert pendings == unspent[pid := unspent[pid].(consumedAt := Some(now), transaction := Some(|old(log)|))];
    }

    method ExecutePayupTransfer(cfg: Config, sender: UserId, pid: PendingId, authorized: bool, s: Signals,
                                now: int, checkedAt: int, committedAt: int, auditWritten: bool)
      returns (outcome: Outcome)
      requires sender in users
      modifies this
      ensures (Committed(), outcome) ==
              PayupTransferCall(cfg, old(Committed()), sender, pid, authorized, s, now, checkedAt, committedAt,
                auditWritten)
    {
      if users[sender].frozen || users[sender].securityLocked {
        return Refused(AccountFrozen);
      }
      if !users[sender].hasNickname {
        return Refused(NicknameRequired);
      }
      if pid !in pendings || pendings[pid].target.ToPayee? || pendings[pid].owner != sender
         || pendings[pid].consumedAt.Some? {
        return Refused(TokenNotFound);
      }
      if pendings[pid].expiresAt < now {
        return Refused(TokenExpired);
      }
      var unspent := pendings;
      pendings := pendings[pid := pendings[pid].(consumedAt := Some(now), transaction := None)];
      var cents := CentsOf(pendings[pid].amountE5);
      var recipient := pendings[pid].target.user;
      var refusal := None;
      var steppedUp := false;
      if cents.None? {
        refusal := Some(AmountInvalid);
      } else if !PayupRecipientEligible(Committed(), sender, recipient) {
        refusal := Some(RecipientUnavailable);
      } else {
        var used := Sum(UsedSince(sender, PayUp, SgtDayStartUtc(checkedAt)), log);
        var risk := EvaluatePayupRisk(cfg, users[sender], cents.value, used, s);
        steppedUp := risk.StepUp?;
        if risk.Block? {
          refusal := Some(RiskBlocked);
        } else if steppedUp && !authorized {
          refusal := Some(StepUpRequired);
        } else if users[sender].balance < cents.value {
          refusal := Some(InsufficientFunds);
        }
      }
      if !auditWritten {
        pendings := unspent;
        return RolledBack;
      }
      if refusal.Some? {
        return Burned(refusal.value);
      }
      outcome := Post(Transaction(sender, recipient, cents.value, PayUp, true, committedAt, steppedUp), pid);
      assert pendings == unspent[pid := unspent[pid].(consumedAt := Some(now), transaction := Some(|old(log)|))];
    }

    /** The ledger commit shared by both transfer channels. */
    method Post(row: Transaction, pid: PendingId) returns (outcome: Outcome)
      requires row.sender in users && row.recipient in users && row.sender != row.recipient && pid in pendings
      modifies this`users, this`log, this`pendings
      ensures log == old(log) + [row] && outcome == Moved(|old(log)|)
      ensures pendings == old(pendings)[pid := old(pendings[pid]).(transaction := Some(|old(log)|))]
      ensures var from, to := old(users[row.sender]), old(users[row.recipient]);
              users == old(users)[row.sender := from.(balance := from.balance - row.amount)]
                                 [row.recipient := to.(balance := to.balance + row.amount)]
    {
      users := users[row.sender := users[row.sender].(balance := users[row.sender].balance - row.amount)];
      users := users[row.recipient := users[row.recipient].(balance := users[row.recipient].balance + row.amount)];
      outcome := Moved(|log|);
      pendings := pendings[pid := pendings[pid].(transaction := Some(|log|))];
      log := log + [row];
    }

    method CreditAccountTopUp(u: UserId, amount: int, at: int, auditWritten: bool) returns (outcome: Outcome)
      requires u in users
      modifies this
      ensures (Committed(), outcome) == TopUpCall(old(Committed()), u, amount, at, auditWritten)
    {
      if users[u].frozen || users[u].securityLocked {
        return Refused(AccountFrozen);
      }
      var before := users;
      users := users[u := users[u].(balance := users[u].balance + amount)];
      if !auditWritten {
        users := before;
        return RolledBack;
      }
      outcome := Moved(|log|);
      log := log + [Transaction(u, u, amount, TopUp, true, at, false)];
    }

    method ApplyWelcomeCredit(u: UserId, at: int)
      requires u in users
      modifies this
      ensures Committed() == WelcomeCall(old(Committed()), u, at)
    {
      if u in welcomed {
        return;
      }
      users := users[u := users[u].(balance := users[u].balance + WELCOME_CREDIT)];
      welcomed := welcomed[u := at];
    }
  }
}
