/**
 What every settled transfer, top-up, welcome credit and row change keeps:
 balances agree with the log, money is conserved, each confirmation token backs
 at most one transaction, and the per-day totals stay inside their caps.
 */
module LedgerInvariants {
  import opened Sums
  import opened Calendar
  import opened Ledger

  // ----- weights of a transaction row

  function SentBy(u: UserId): Transaction -> int {
    (t: Transaction) => if t.completed && t.channel != TopUp && t.sender == u then t.amount else 0
  }

  function ReceivedBy(u: UserId): Transaction -> int {
    (t: Transaction) => if t.completed && t.channel != TopUp && t.recipient == u then t.amount else 0
  }

  function ToppedUpFor(u: UserId): Transaction -> int {
    (t: Transaction) => if t.completed && t.channel == TopUp && t.recipient == u then t.amount else 0
  }

  function ToppedUp(t: Transaction): int {
    if t.completed && t.channel == TopUp then t.amount else 0
  }

  function SentOnDay(u: UserId, ch: Channel, day: int): Transaction -> int {
    (t: Transaction) => if t.sender == u && t.channel == ch && t.completed && DayOf(t.at) == day then t.amount else 0
  }

  /** PayUp rows of one SGT day that went through without a step-up. */
  function QuickOnDay(u: UserId, day: int): Transaction -> int {
    (t: Transaction) =>
      if t.sender == u && t.channel == PayUp && t.completed && !t.steppedUp && DayOf(t.at) == day then t.amount else 0
  }

  // ----- invariants

  function Welcome(db: Db, u: UserId): int {
    if u in db.welcomed then WELCOME_CREDIT else 0
  }

  ghost predicate LogSound(log: seq<Transaction>, known: set<UserId>) {
    forall t :: t in log ==>
      t.completed && MIN_AMOUNT <= t.amount <= MAX_AMOUNT && t.sender in known && t.recipient in known
      && (t.channel == TopUp <==> t.sender == t.recipient)
  }

  ghost predicate LimitsSound(users: map<UserId, User>) {
    forall u :: u in users ==>
      LIMIT_MIN <= users[u].localLimit <= LIMIT_MAX && LIMIT_MIN <= users[u].payupLimit <= LIMIT_MAX
  }

  ghost predicate RowsSound(db: Db) {
    LogSound(db.log, db.users.Keys) && LimitsSound(db.users) && db.welcomed.Keys <= db.users.Keys
  }

  /** Top-ups plus received minus sent, as the log tells it. */
  function NetOf(u: UserId, log: seq<Transaction>): int {
    Sum(ToppedUpFor(u), log) + Sum(ReceivedBy(u), log) - Sum(SentBy(u), log)
  }

  /** Every balance is the welcome credit plus top-ups plus received minus sent. */
  ghost predicate BalancesMatchLog(db: Db) {
    forall u :: u in db.users ==> db.users[u].balance == Welcome(db, u) + NetOf(u, db.log)
  }

  ghost predicate NoOverdraft(users: map<UserId, User>) {
    forall u :: u in users ==> 0 <= users[u].balance
  }

  ghost function TotalBalance(users: map<UserId, User>): int {
    if users == map[] then 0
    else var u :| u in users; users[u].balance + TotalBalance(users - {u})
  }

  /** All the money there is was issued as a welcome credit or a top-up. */
  ghost predicate MoneyConserved(db: Db) {
    TotalBalance(db.users) == WELCOME_CREDIT * |db.welcomed| + Sum(ToppedUp, db.log)
  }

  predicate Backs(p: Pending, t: Transaction) {
    && p.consumedAt.Some? && t.sender == p.owner && t.amount * 1000 == p.amountE5
    && match p.target
       case ToPayee(_) => t.channel == LocalTransfer
       case ToUser(r) => t.channel == PayUp && t.recipient == r
  }

  /** Consumed tokens and transfer rows are in one-to-one correspondence, amounts included. */
  ghost predicate TokensBackTransfers(pendings: map<PendingId, Pending>, log: seq<Transaction>) {
    && (forall p :: p in pendings && pendings[p].transaction.Some? ==>
          pendings[p].transaction.value < |log| && Backs(pendings[p], log[pendings[p].transaction.value]))
    && (forall p, q :: p in pendings && q in pendings && pendings[p].transaction.Some? ==>
          (pendings[p].transaction == pendings[q].transaction ==> p == q))
    && (forall i :: 0 <= i < |log| && log[i].channel != TopUp ==>
          exists p :: p in pendings && pendings[p].transaction == Some(i))
  }

  /** No sender exceeds the largest permitted limit on any SGT day over any channel. */
  ghost predicate DaysWithinLimit(log: seq<Transaction>) {
    forall u, ch, day :: ch != TopUp ==> Sum(SentOnDay(u, ch, day), log) <= LIMIT_MAX
  }

  function QuickCap(cfg: Config): int {
    if cfg.quickDailyCap > 0 then cfg.quickDailyCap else 0
  }

  /** Transfers that skipped the step-up stay within both quick caps. */
  ghost predicate QuickWithinCaps(cfg: Config, log: seq<Transaction>) {
    && (forall t :: t in log && t.channel == PayUp && !t.steppedUp ==> t.amount <= cfg.quickTransferCap)
    && (forall u, day :: Sum(QuickOnDay(u, day), log) <= QuickCap(cfg))
  }

  /** An unspent token backs no transaction. */
  ghost predicate UnspentIsBlank(pendings: map<PendingId, Pending>) {
    forall p :: p in pendings && pendings[p].consumedAt.None? ==> pendings[p].transaction.None?
  }

  // ----- sums over all accounts

  lemma {:induction false} TotalWithout(users: map<UserId, User>, u: UserId)
    requires u in users
    ensures TotalBalance(users) == users[u].balance + TotalBalance(users - {u})
    decreases |users|
  {
    var v :| v in users && TotalBalance(users) == users[v].balance + TotalBalance(users - {v});
    if v != u {
      TotalWithout(users - {v}, u);
      TotalWithout(users - {u}, v);
      assert users - {v} - {u} == users - {u} - {v};
    }
  }

  /** Writing one row moves the total by exactly that row's change. */
  lemma TotalAfterWrite(users: map<UserId, User>, u: UserId, row: User)
    ensures TotalBalance(users[u := row]) ==
            TotalBalance(users) + row.balance - (if u in users then users[u].balance else 0)
  {
    TotalWithout(users[u := row], u);
    assert users[u := row] - {u} == users - {u};
    if u in users {
      TotalWithout(users, u);
    } else {
      assert users - {u} == users;
    }
  }

  // ----- one appended row

  predicate SettledBy(db: Db, u: UserId, t: int) {
    forall x :: x in db.log && x.sender == u ==> x.at <= t
  }

  /**
   When no row of the sender is later than the moment of the usage sum, the sum
   since midnight is that SGT day's total and every later day is still empty.
   */
  lemma UsageIsTheDaysTotal(db: Db, u: UserId, ch: Channel, t: int)
    requires RowsSound(db) && SettledBy(db, u, t)
    ensures Sum(UsedSince(u, ch, SgtDayStartUtc(t)), db.log) == Sum(SentOnDay(u, ch, DayOf(t)), db.log)
    ensures forall day :: day > DayOf(t) ==> Sum(SentOnDay(u, ch, day), db.log) == 0
    ensures 0 <= Sum(SentOnDay(u, ch, DayOf(t)), db.log)
  {
    forall x | x in db.log
      ensures UsedSince(u, ch, SgtDayStartUtc(t))(x) == SentOnDay(u, ch, DayOf(t))(x)
    {
      SinceDayStart(t, x.at);
    }
    SumSame(UsedSince(u, ch, SgtDayStartUtc(t)), SentOnDay(u, ch, DayOf(t)), db.log);
    forall day | day > DayOf(t) ensures Sum(SentOnDay(u, ch, day), db.log) == 0 {
      SumZero(SentOnDay(u, ch, day), db.log);
    }
    SumPositive(SentOnDay(u, ch, DayOf(t)), db.log);
  }

  function LimitOf(u: User, ch: Channel): int {
    if ch == PayUp then u.payupLimit else u.localLimit
  }

  ghost predicate Settles(cfg: Config, db: Db, c: Call, eligible: bool, consumed: int, t1: int, t2: int) {
    Callable(db, c, eligible) && Settle(cfg, db, c, eligible, consumed, t1, t2).1.Moved?
  }

  /**
   The daily limit at a commit: even if midnight falls between the usage sum
   (t1) and the row's timestamp (t2), the sender's total for the row's own SGT
   day is within the limit the sender has at that moment.
   */
  lemma CommitWithinDailyLimit(cfg: Config, db: Db, c: Call, consumed: int, t1: int, t2: int)
    requires RowsSound(db) && Settles(cfg, db, c, true, consumed, t1, t2)
    requires SettledBy(db, c.sender, t1) && t1 <= t2
    ensures var after := Settle(cfg, db, c, true, consumed, t1, t2).0;
            Sum(SentOnDay(c.sender, ChannelOf(c), DayOf(t2)), after.log) <= LimitOf(db.users[c.sender], ChannelOf(c))
  {
    var after := Settle(cfg, db, c, true, consumed, t1, t2).0;
    var row := after.log[|db.log|];
    UsageIsTheDaysTotal(db, c.sender, ChannelOf(c), t1);
    SumPush(SentOnDay(c.sender, ChannelOf(c), DayOf(t2)), db.log, row);
  }

  /** The same argument for transfers that ran without a step-up, against the quick daily cap. */
  lemma QuickCommitWithinCap(cfg: Config, db: Db, c: Call, consumed: int, t1: int, t2: int)
    requires RowsSound(db) && Settles(cfg, db, c, true, consumed, t1, t2)
    requires SettledBy(db, c.sender, t1) && t1 <= t2 && c.target.ToUser?
    ensures var after := Settle(cfg, db, c, true, consumed, t1, t2).0;
            var row := after.log[|db.log|];
            !row.steppedUp ==>
              row.amount <= cfg.quickTransferCap && 0 < cfg.quickDailyCap
              && Sum(QuickOnDay(c.sender, DayOf(t2)), after.log) <= cfg.quickDailyCap
  {
    var after := Settle(cfg, db, c, true, consumed, t1, t2).0;
    var row := after.log[|db.log|];
    UsageIsTheDaysTotal(db, c.sender, PayUp, t1);
    SumMonotone(QuickOnDay(c.sender, DayOf(t2)), SentOnDay(c.sender, PayUp, DayOf(t2)), db.log);
    SumPush(QuickOnDay(c.sender, DayOf(t2)), db.log, row);
  }

  // ----- committed operations

  datatype Op =
    | Settled(c: Call, eligible: bool, consumed: int, checkedAt: int, committedAt: int)
    | Credited(u: UserId, amount: int, at: int)
    | Welcomed(u: UserId, at: int)
    | Joined(u: UserId, row: User)
    | Changed(u: UserId, row: User)
    | Drafted(pid: PendingId, draft: Pending)
    | Enlisted(pid: PayeeId, payee: Payee)
    | Delisted(pid: PayeeId)

  predicate LimitsInRange(row: User) {
    LIMIT_MIN <= row.localLimit <= LIMIT_MAX && LIMIT_MIN <= row.payupLimit <= LIMIT_MAX
  }

  /** What the tables' constraints and the row locks guarantee of an operation when it commits. */
  ghost predicate Legal(db: Db, op: Op) {
    match op
    case Settled(c, eligible, _, t1, t2) => Callable(db, c, eligible) && SettledBy(db, c.sender, t1) && t1 <= t2
    case Credited(u, amount, _) => u in db.users && MIN_AMOUNT <= amount <= MAX_AMOUNT
    case Welcomed(u, _) => u in db.users
    case Joined(u, row) => u !in db.users && row.balance == 0 && LimitsInRange(row)
    case Changed(u, row) => u in db.users && row.balance == db.users[u].balance && LimitsInRange(row)
    case Drafted(pid, draft) =>
      && pid !in db.pendings && draft.consumedAt.None? && draft.transaction.None?
      && (draft.target.ToPayee? ==> draft.target.payee in db.payees)
    case Enlisted(_, _) => true
    case Delisted(pid) => forall p :: p in db.pendings ==> db.pendings[p].target != ToPayee(pid)
  }

  ghost function Apply(cfg: Config, db: Db, op: Op): Db {
    if !Legal(db, op) then db else
    match op
    case Settled(c, eligible, consumed, t1, t2) => Settle(cfg, db, c, eligible, consumed, t1, t2).0
    case Credited(u, amount, at) => TopUpCall(db, u, amount, at, true).0
    case Welcomed(u, at) => WelcomeCall(db, u, at)
    case Joined(u, row) => db.(users := db.users[u := row])
    case Changed(u, row) => db.(users := db.users[u := row])
    case Drafted(pid, draft) => db.(pendings := db.pendings[pid := draft])
    case Enlisted(pid, payee) => db.(payees := db.payees[pid := payee])
    case Delisted(pid) => db.(payees := db.payees - {pid})
  }

  const EMPTY := Db(map[], map[], map[], [], map[])

  /** The serial run: one committed operation after another, from an empty database. */
  ghost function Replay(cfg: Config, ops: seq<Op>): Db {
    if ops == [] then EMPTY else Apply(cfg, Replay(cfg, ops[..|ops| - 1]), ops[|ops| - 1])
  }

  ghost predicate Base(db: Db) {
    RowsSound(db) && UnspentIsBlank(db.pendings)
  }

  lemma ApplyKeepsLog(cfg: Config, db: Db, op: Op)
    requires LogSound(db.log, db.users.Keys)
    ensures LogSound(Apply(cfg, db, op).log, Apply(cfg, db, op).users.Keys)
  {
    var after := Apply(cfg, db, op);
    assert db.users.Keys <= after.users.Keys;
    assert after.log == db.log || (|after.log| == |db.log| + 1 && after.log == db.log + [after.log[|db.log|]]);
    forall t | t in after.log
      ensures t.completed && MIN_AMOUNT <= t.amount <= MAX_AMOUNT && t.sender in after.users.Keys
              && t.recipient in after.users.Keys && (t.channel == TopUp <==> t.sender == t.recipient)
    {
      assert t in db.log || t == after.log[|db.log|];
    }
  }

  lemma SettleKeepsLimits(cfg: Config, db: Db, c: Call, eligible: bool, consumed: int, t1: int, t2: int)
    requires Callable(db, c, eligible)
    ensures var after := Settle(cfg, db, c, eligible, consumed, t1, t2).0;
            && after.users.Keys == db.users.Keys && after.welcomed == db.welcomed
            && (forall u :: u in db.users ==>
                  && after.users[u].localLimit == db.users[u].localLimit
                  && after.users[u].payupLimit == db.users[u].payupLimit)
  {
  }

  lemma ApplyKeepsUsers(cfg: Config, db: Db, op: Op)
    requires LimitsSound(db.users) && db.welcomed.Keys <= db.users.Keys
    ensures LimitsSound(Apply(cfg, db, op).users) && Apply(cfg, db, op).welcomed.Keys <= Apply(cfg, db, op).users.Keys
  {
    var after := Apply(cfg, db, op);
    if op.Settled? && Legal(db, op) {
      SettleKeepsLimits(cfg, db, op.c, op.eligible, op.consumed, op.checkedAt, op.committedAt);
    }
    forall u | u in after.users ensures LimitsInRange(after.users[u]) {
      assert u in db.users || op.Joined?;
    }
  }

  lemma ApplyKeepsBlankTokens(cfg: Config, db: Db, op: Op)
    requires UnspentIsBlank(db.pendings)
    ensures UnspentIsBlank(Apply(cfg, db, op).pendings)
  {
  }

  lemma ApplyKeepsBase(cfg: Config, db: Db, op: Op)
    requires Base(db)
    ensures Base(Apply(cfg, db, op))
  {
    ApplyKeepsLog(cfg, db, op);
    ApplyKeepsUsers(cfg, db, op);
    ApplyKeepsBlankTokens(cfg, db, op);
  }

  /** An operation moves money exactly as the row it appends says, or not at all. */
  ghost predicate MovesAsLogged(before: Db, after: Db) {
    || (after.log == before.log
        && forall u :: u in before.users ==>
             u in after.users
             && after.users[u].balance - Welcome(after, u) == before.users[u].balance - Welcome(before, u))
    || (|after.log| == |before.log| + 1 && before.log < after.log && after.welcomed == before.welcomed
        && var row := after.log[|before.log|];
           forall u :: u in before.users ==>
             u in after.users && after.users[u].balance == before.users[u].balance
             + (if row.recipient == u then row.amount else if row.sender == u then -row.amount else 0))
  }

  lemma SettleMovesAsLogged(cfg: Config, db: Db, c: Call, eligible: bool, consumed: int, t1: int, t2: int)
    requires Callable(db, c, eligible)
    ensures MovesAsLogged(db, Settle(cfg, db, c, eligible, consumed, t1, t2).0)
  {
  }

  lemma ApplyMovesAsLogged(cfg: Config, db: Db, op: Op)
    ensures MovesAsLogged(db, Apply(cfg, db, op))
  {
    if op.Settled? && Legal(db, op) {
      SettleMovesAsLogged(cfg, db, op.c, op.eligible, op.consumed, op.checkedAt, op.committedAt);
    }
  }

  lemma NetAfterRow(u: UserId, log: seq<Transaction>, row: Transaction)
    requires row.completed && (row.channel == TopUp <==> row.sender == row.recipient)
    ensures NetOf(u, log + [row]) ==
            NetOf(u, log) + (if row.recipient == u then row.amount else if row.sender == u then -row.amount else 0)
  {
    SumPush(ToppedUpFor(u), log, row);
    SumPush(ReceivedBy(u), log, row);
    SumPush(SentBy(u), log, row);
  }

  lemma {:induction false} StrangersHaveNoNet(u: UserId, log: seq<Transaction>, known: set<UserId>)
    requires LogSound(log, known) && u !in known
    ensures NetOf(u, log) == 0
  {
    SumZero(ToppedUpFor(u), log);
    SumZero(ReceivedBy(u), log);
    SumZero(SentBy(u), log);
  }

  lemma BalancesFollowMoves(before: Db, after: Db)
    requires LogSound(after.log, after.users.Keys) && LogSound(before.log, before.users.Keys)
    requires BalancesMatchLog(before) && MovesAsLogged(before, after)
    requires |after.log| > |before.log| ==> after.users.Keys == before.users.Keys
    requires forall u :: u in after.users && u !in before.users ==> after.users[u].balance == Welcome(after, u)
    ensures BalancesMatchLog(after)
  {
    forall u | u in after.users ensures after.users[u].balance == Welcome(after, u) + NetOf(u, after.log) {
      if |after.log| > |before.log| {
        var row := after.log[|before.log|];
        assert after.log == before.log + [row] && row in after.log;
        NetAfterRow(u, before.log, row);
      } else if u !in before.users {
        StrangersHaveNoNet(u, before.log, before.users.Keys);
      }
    }
  }

  /** Accounts are opened outside the log, empty but for a welcome credit. */
  lemma NewcomersAreOutsideTheLog(cfg: Config, db: Db, op: Op)
    requires db.welcomed.Keys <= db.users.Keys
    ensures var after := Apply(cfg, db, op);
            && (|after.log| > |db.log| ==> after.users.Keys == db.users.Keys)
            && (forall u :: u in after.users && u !in db.users ==> after.users[u].balance == Welcome(after, u))
  {
  }

  lemma ApplyKeepsBalances(cfg: Config, db: Db, op: Op)
    requires Base(db) && BalancesMatchLog(db)
    ensures BalancesMatchLog(Apply(cfg, db, op))
  {
    var after := Apply(cfg, db, op);
    ApplyKeepsBase(cfg, db, op);
    ApplyMovesAsLogged(cfg, db, op);
    NewcomersAreOutsideTheLog(cfg, db, op);
    BalancesFollowMoves(db, after);
  }

  lemma ApplyKeepsSolvency(cfg: Config, db: Db, op: Op)
    requires NoOverdraft(db.users)
    ensures NoOverdraft(Apply(cfg, db, op).users)
  {
  }

  /** A debit and an equal credit leave the total alone. */
  lemma TransferKeepsTotal(users: map<UserId, User>, payer: UserId, payee: UserId, amount: int)
    requires payer in users && payee in users && payer != payee
    ensures var from, to := users[payer], users[payee];
            TotalBalance(users[payer := from.(balance := from.balance - amount)]
                              [payee := to.(balance := to.balance + amount)]) == TotalBalance(users)
  {
    var from, to := users[payer], users[payee];
    var debited := users[payer := from.(balance := from.balance - amount)];
    TotalAfterWrite(users, payer, debited[payer]);
    TotalAfterWrite(debited, payee, to.(balance := to.balance + amount));
  }

  lemma MoveConserves(db: Db, c: Call, consumed: int, amount: int, steppedUp: bool, at: int)
    requires c.pending in db.pendings && c.sender in db.users && c.recipient in db.users && c.sender != c.recipient
    ensures var after := Move(db, c, consumed, amount, steppedUp, at);
            && TotalBalance(after.users) == TotalBalance(db.users) && after.welcomed == db.welcomed
            && Sum(ToppedUp, after.log) == Sum(ToppedUp, db.log)
  {
    TransferKeepsTotal(db.users, c.sender, c.recipient, amount);
    SumPush(ToppedUp, db.log, RowOf(c, amount, steppedUp, at));
  }

  /** A settled call moves its amount or leaves users, log and credits alone. */
  lemma SettleMovesOrNot(cfg: Config, db: Db, c: Call, eligible: bool, consumed: int, t1: int, t2: int)
    requires Callable(db, c, eligible)
    ensures var after := Settle(cfg, db, c, eligible, consumed, t1, t2).0;
            || (after.users == db.users && after.log == db.log && after.welcomed == db.welcomed)
            || (c.pending in db.pendings && c.recipient in db.users && c.sender != c.recipient
                && exists amount, steppedUp :: after == Move(db, c, consumed, amount, steppedUp, t2))
  {
  }

  lemma SettleConserves(cfg: Config, db: Db, c: Call, eligible: bool, consumed: int, t1: int, t2: int)
    requires MoneyConserved(db) && Callable(db, c, eligible)
    ensures MoneyConserved(Settle(cfg, db, c, eligible, consumed, t1, t2).0)
  {
    var after := Settle(cfg, db, c, eligible, consumed, t1, t2).0;
    SettleMovesOrNot(cfg, db, c, eligible, consumed, t1, t2);
    if !(after.users == db.users && after.log == db.log && after.welcomed == db.welcomed) {
      var amount, steppedUp :| after == Move(db, c, consumed, amount, steppedUp, t2);
      MoveConserves(db, c, consumed, amount, steppedUp, t2);
    }
  }

  lemma TopUpConserves(db: Db, u: UserId, amount: int, at: int)
    requires MoneyConserved(db) && u in db.users
    ensures MoneyConserved(TopUpCall(db, u, amount, at, true).0)
  {
    var after := TopUpCall(db, u, amount, at, true).0;
    SumPush(ToppedUp, db.log, Transaction(u, u, amount, TopUp, true, at, false));
    TotalAfterWrite(db.users, u, after.users[u]);
  }

  lemma ApplyConserves(cfg: Config, db: Db, op: Op)
    requires MoneyConserved(db)
    ensures MoneyConserved(Apply(cfg, db, op))
  {
    if Legal(db, op) {
      var after := Apply(cfg, db, op);
      match op
      case Settled(c, eligible, consumed, t1, t2) => SettleConserves(cfg, db, c, eligible, consumed, t1, t2);
      case Credited(u, amount, at) => TopUpConserves(db, u, amount, at);
      case Welcomed(u, _) => TotalAfterWrite(db.users, u, after.users[u]);
      case Joined(u, row) => TotalAfterWrite(db.users, u, row);
      case Changed(u, row) => TotalAfterWrite(db.users, u, row);
      case Drafted(_, _) =>
      case Enlisted(_, _) =>
      case Delisted(_) =>
    }
  }

  // ----- confirmation tokens

  /** Rows already backed stay backed while every link is kept. */
  lemma OldRowsStayBacked(before: map<PendingId, Pending>, after: map<PendingId, Pending>, log: seq<Transaction>,
                          i: nat)
    requires TokensBackTransfers(before, log) && i < |log| && log[i].channel != TopUp
    requires forall p :: p in before && before[p].transaction.Some? ==>
               p in after && after[p].transaction == before[p].transaction
    ensures exists p :: p in after && after[p].transaction == Some(i)
  {
    var p :| p in before && before[p].transaction == Some(i);
    assert after[p].transaction == Some(i);
  }

  /** One token may be linked to the row appended with it; all other links are kept. */
  lemma LinkingKeepsTokens(before: map<PendingId, Pending>, after: map<PendingId, Pending>,
                           log: seq<Transaction>, row: Transaction, pid: PendingId)
    requires TokensBackTransfers(before, log)
    requires pid in before && pid in after && before[pid].transaction.None? && after == before[pid := after[pid]]
    requires after[pid].transaction == Some(|log|) && Backs(after[pid], row)
    ensures TokensBackTransfers(after, log + [row])
  {
    forall i | 0 <= i < |log + [row]| && (log + [row])[i].channel != TopUp
      ensures exists p :: p in after && after[p].transaction == Some(i)
    {
      if i == |log| {
        assert after[pid].transaction == Some(i);
      } else {
        OldRowsStayBacked(before, after, log, i);
      }
    }
  }

  predicate SameLink(p: Pending, q: Pending) {
    p == q || (p.transaction.None? && q.transaction.None?)
  }

  /** Writes that keep every link, and append at most top-up rows, keep the correspondence. */
  lemma OtherWritesKeepTokens(before: map<PendingId, Pending>, after: map<PendingId, Pending>,
                              log: seq<Transaction>, longer: seq<Transaction>)
    requires TokensBackTransfers(before, log)
    requires log <= longer && forall i :: |log| <= i < |longer| ==> longer[i].channel == TopUp
    requires forall p :: p in before ==> p in after && SameLink(before[p], after[p])
    requires forall p :: p in after && p !in before ==> after[p].transaction.None?
    ensures TokensBackTransfers(after, longer)
  {
    forall i | 0 <= i < |longer| && longer[i].channel != TopUp
      ensures exists p :: p in after && after[p].transaction == Some(i)
    {
      OldRowsStayBacked(before, after, log, i);
    }
  }

  lemma SettleKeepsTokens(cfg: Config, db: Db, c: Call, eligible: bool, consumed: int, t1: int, t2: int)
    requires Callable(db, c, eligible) && UnspentIsBlank(db.pendings) && TokensBackTransfers(db.pendings, db.log)
    ensures var after := Settle(cfg, db, c, eligible, consumed, t1, t2).0;
            TokensBackTransfers(after.pendings, after.log)
  {
    var after := Settle(cfg, db, c, eligible, consumed, t1, t2).0;
    if |after.log| > |db.log| {
      var row := after.log[|db.log|];
      assert after.log == db.log + [row];
      LinkingKeepsTokens(db.pendings, after.pendings, db.log, row, c.pending);
    } else {
      OtherWritesKeepTokens(db.pendings, after.pendings, db.log, after.log);
    }
  }

  lemma ApplyKeepsTokens(cfg: Config, db: Db, op: Op)
    requires UnspentIsBlank(db.pendings) && TokensBackTransfers(db.pendings, db.log)
    ensures var after := Apply(cfg, db, op); TokensBackTransfers(after.pendings, after.log)
  {
    var after := Apply(cfg, db, op);
    if op.Settled? && Legal(db, op) {
      SettleKeepsTokens(cfg, db, op.c, op.eligible, op.consumed, op.checkedAt, op.committedAt);
    } else {
      OtherWritesKeepTokens(db.pendings, after.pendings, db.log, after.log);
    }
  }

  // ----- daily totals

  lemma MoveKeepsDays(cfg: Config, db: Db, c: Call, consumed: int, t1: int, t2: int)
    requires RowsSound(db) && DaysWithinLimit(db.log)
    requires Settles(cfg, db, c, true, consumed, t1, t2) && SettledBy(db, c.sender, t1) && t1 <= t2
    ensures DaysWithinLimit(Settle(cfg, db, c, true, consumed, t1, t2).0.log)
  {
    var after := Settle(cfg, db, c, true, consumed, t1, t2).0;
    var row := after.log[|db.log|];
    CommitWithinDailyLimit(cfg, db, c, consumed, t1, t2);
    forall u, ch, day | ch != TopUp ensures Sum(SentOnDay(u, ch, day), after.log) <= LIMIT_MAX {
      SumPush(SentOnDay(u, ch, day), db.log, row);
    }
  }

  lemma MoveKeepsQuickCaps(cfg: Config, db: Db, c: Call, consumed: int, t1: int, t2: int)
    requires RowsSound(db) && QuickWithinCaps(cfg, db.log)
    requires Settles(cfg, db, c, true, consumed, t1, t2) && SettledBy(db, c.sender, t1) && t1 <= t2
    ensures QuickWithinCaps(cfg, Settle(cfg, db, c, true, consumed, t1, t2).0.log)
  {
    var after := Settle(cfg, db, c, true, consumed, t1, t2).0;
    var row := after.log[|db.log|];
    if c.target.ToUser? {
      QuickCommitWithinCap(cfg, db, c, consumed, t1, t2);
    }
    forall u, day ensures Sum(QuickOnDay(u, day), after.log) <= QuickCap(cfg) {
      SumPush(QuickOnDay(u, day), db.log, row);
    }
  }

  lemma TopUpRowKeepsDays(cfg: Config, log: seq<Transaction>, row: Transaction)
    requires DaysWithinLimit(log) && QuickWithinCaps(cfg, log) && row.channel == TopUp
    ensures DaysWithinLimit(log + [row]) && QuickWithinCaps(cfg, log + [row])
  {
    forall v, ch, day | ch != TopUp ensures Sum(SentOnDay(v, ch, day), log + [row]) <= LIMIT_MAX {
      SumPush(SentOnDay(v, ch, day), log, row);
    }
    forall v, day ensures Sum(QuickOnDay(v, day), log + [row]) <= QuickCap(cfg) {
      SumPush(QuickOnDay(v, day), log, row);
    }
  }

  lemma ApplyKeepsDays(cfg: Config, db: Db, op: Op)
    requires Base(db) && DaysWithinLimit(db.log) && QuickWithinCaps(cfg, db.log)
    ensures DaysWithinLimit(Apply(cfg, db, op).log) && QuickWithinCaps(cfg, Apply(cfg, db, op).log)
  {
    var after := Apply(cfg, db, op);
    if after.log != db.log {
      if op.Settled? {
        MoveKeepsDays(cfg, db, op.c, op.consumed, op.checkedAt, op.committedAt);
        MoveKeepsQuickCaps(cfg, db, op.c, op.consumed, op.checkedAt, op.committedAt);
      } else {
        TopUpRowKeepsDays(cfg, db.log, Transaction(op.u, op.u, op.amount, TopUp, true, op.at, false));
      }
    }
  }

  // ----- whole serial runs

  lemma {:induction false} ReplayIsSound(cfg: Config, ops: seq<Op>)
    ensures Base(Replay(cfg, ops))
  {
    if ops != [] {
      ReplayIsSound(cfg, ops[..|ops| - 1]);
      ApplyKeepsBase(cfg, Replay(cfg, ops[..|ops| - 1]), ops[|ops| - 1]);
    }
  }

  lemma {:induction false} ReplayKeepsBalances(cfg: Config, ops: seq<Op>)
    ensures BalancesMatchLog(Replay(cfg, ops)) && NoOverdraft(Replay(cfg, ops).users)
    ensures MoneyConserved(Replay(cfg, ops))
  {
    if ops != [] {
      var before := Replay(cfg, ops[..|ops| - 1]);
      ReplayIsSound(cfg, ops[..|ops| - 1]);
      ReplayKeepsBalances(cfg, ops[..|ops| - 1]);
      ApplyKeepsBalances(cfg, before, ops[|ops| - 1]);
      ApplyKeepsSolvency(cfg, before, ops[|ops| - 1]);
      ApplyConserves(cfg, before, ops[|ops| - 1]);
    }
  }

  lemma {:induction false} ReplayKeepsTokens(cfg: Config, ops: seq<Op>)
    ensures TokensBackTransfers(Replay(cfg, ops).pendings, Replay(cfg, ops).log)
  {
    if ops != [] {
      ReplayIsSound(cfg, ops[..|ops| - 1]);
      ReplayKeepsTokens(cfg, ops[..|ops| - 1]);
      ApplyKeepsTokens(cfg, Replay(cfg, ops[..|ops| - 1]), ops[|ops| - 1]);
    }
  }

  lemma {:induction false} ReplayKeepsDays(cfg: Config, ops: seq<Op>)
    ensures DaysWithinLimit(Replay(cfg, ops).log) && QuickWithinCaps(cfg, Replay(cfg, ops).log)
  {
    if ops != [] {
      ReplayIsSound(cfg, ops[..|ops| - 1]);
      ReplayKeepsDays(cfg, ops[..|ops| - 1]);
      ApplyKeepsDays(cfg, Replay(cfg, ops[..|ops| - 1]), ops[|ops| - 1]);
    }
  }

  /**
   In every serial run, each transfer that moved money left its sender's total for the
   row's own SGT day within the limit then on the sender's row.
   */
  lemma ReplayKeepsOwnLimits(cfg: Config, ops: seq<Op>, k: nat)
    requires k < |ops| && ops[k].Settled? && |Replay(cfg, ops[..k + 1]).log| > |Replay(cfg, ops[..k]).log|
    ensures var before, after, c := Replay(cfg, ops[..k]), Replay(cfg, ops[..k + 1]), ops[k].c;
            && c.sender in before.users
            && Sum(SentOnDay(c.sender, ChannelOf(c), DayOf(ops[k].committedAt)), after.log)
               <= LimitOf(before.users[c.sender], ChannelOf(c))
  {
    var op := ops[k];
    assert ops[..k + 1][..k] == ops[..k];
    ReplayIsSound(cfg, ops[..k]);
    CommitWithinDailyLimit(cfg, Replay(cfg, ops[..k]), op.c, op.consumed, op.checkedAt, op.committedAt);
  }

  // ----- the service calls are such operations

  /** A local transfer call leaves the database alone or is one settled operation. */
  lemma LocalCallIsAnOperation(cfg: Config, db: Db, sender: UserId, payee: PayeeId, pid: PendingId,
                               now: int, t1: int, t2: int, auditWritten: bool) returns (op: Op)
    requires sender in db.users && payee in db.payees && SettledBy(db, sender, t1) && t1 <= t2
    ensures var after := LocalTransferCall(cfg, db, sender, payee, pid, now, t1, t2, auditWritten).0;
            after == db || (Legal(db, op) && after == Apply(cfg, db, op))
  {
    var c := Call(sender, db.payees[payee].account, ToPayee(payee), pid, false, Signals(false, None, false, false));
    op := Settled(c, true, now, t1, t2);
  }

  lemma PayupCallIsAnOperation(cfg: Config, db: Db, sender: UserId, pid: PendingId, authorized: bool, s: Signals,
                               now: int, t1: int, t2: int, auditWritten: bool) returns (op: Op)
    requires sender in db.users && SettledBy(db, sender, t1) && t1 <= t2
    ensures var after := PayupTransferCall(cfg, db, sender, pid, authorized, s, now, t1, t2, auditWritten).0;
            after == db || (Legal(db, op) && after == Apply(cfg, db, op))
  {
    var recipient := if pid in db.pendings && db.pendings[pid].target.ToUser? then db.pendings[pid].target.user else 0;
    var c := Call(sender, recipient, ToUser(recipient), pid, authorized, s);
    op := Settled(c, PayupRecipientEligible(db, sender, recipient), now, t1, t2);
  }

  lemma CreditCallsAreOperations(cfg: Config, db: Db, u: UserId, amount: int, at: int, auditWritten: bool)
    requires u in db.users && MIN_AMOUNT <= amount <= MAX_AMOUNT
    ensures var after := TopUpCall(db, u, amount, at, auditWritten).0;
            after == db || after == Apply(cfg, db, Credited(u, amount, at))
    ensures WelcomeCall(db, u, at) == Apply(cfg, db, Welcomed(u, at))
  {
  }

  /** Everything a database keeps. */
  ghost predicate Sound(cfg: Config, db: Db) {
    && Base(db) && BalancesMatchLog(db) && NoOverdraft(db.users) && MoneyConserved(db)
    && TokensBackTransfers(db.pendings, db.log) && DaysWithinLimit(db.log) && QuickWithinCaps(cfg, db.log)
  }

  lemma ApplyKeepsSound(cfg: Config, db: Db, op: Op)
    requires Sound(cfg, db)
    ensures Sound(cfg, Apply(cfg, db, op))
  {
    ApplyKeepsBase(cfg, db, op);
    ApplyKeepsBalances(cfg, db, op);
    ApplyKeepsSolvency(cfg, db, op);
    ApplyConserves(cfg, db, op);
    ApplyKeepsTokens(cfg, db, op);
    ApplyKeepsDays(cfg, db, op);
  }

  /** So a bank that is sound stays sound through any transfer call, whatever it answers. */
  lemma TransferCallsKeepSound(cfg: Config, db: Db, sender: UserId, payee: PayeeId, pid: PendingId, authorized: bool,
                          s: Signals,
                               now: int, t1: int, t2: int, auditWritten: bool)
    requires Sound(cfg, db) && sender in db.users && SettledBy(db, sender, t1) && t1 <= t2
    ensures payee in db.payees ==>
            Sound(cfg, LocalTransferCall(cfg, db, sender, payee, pid, now, t1, t2, auditWritten).0)
    ensures Sound(cfg, PayupTransferCall(cfg, db, sender, pid, authorized, s, now, t1, t2, auditWritten).0)
  {
    if payee in db.payees {
      var op := LocalCallIsAnOperation(cfg, db, sender, payee, pid, now, t1, t2, auditWritten);
      ApplyKeepsSound(cfg, db, op);
    }
    var op := PayupCallIsAnOperation(cfg, db, sender, pid, authorized, s, now, t1, t2, auditWritten);
    ApplyKeepsSound(cfg, db, op);
  }
}
