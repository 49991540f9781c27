/**
 Monthly statements. There is no balance history: opening and closing figures
 are worked back from the live balance by subtracting the signed rows that come
 after. A top-up is stored with sender equal to recipient, so the signing rule
 counts it as money sent.
 */
module Statement {
  import opened Sums
  import opened Calendar
  import opened Ledger
  import opened LedgerInvariants
  import Interleaving

  datatype StatementError = BadMonth | FuturePeriod | AccountNotOpenYet

  datatype Result<+T> = Ok(value: T) | Err(error: StatementError)

  datatype Figures = Figures(start: int, end: int, opening: int, closing: int, rows: seq<Transaction>)

  predicate Within(t: Transaction, start: int, end: Option<int>) {
    start <= t.at && (end.Some? ==> t.at < end.value)
  }

  /** Sign of a row as the statement code takes it: negative whenever the user is the sender. */
  function Signed(u: UserId, start: int, end: Option<int>): Transaction -> int {
    (t: Transaction) =>
      if (t.sender == u || t.recipient == u) && t.completed && Within(t, start, end)
      then (if t.sender == u then -t.amount else t.amount) else 0
  }

  predicate Involves(u: UserId, t: Transaction) {
    t.sender == u || t.recipient == u
  }

  /** The user's rows of a half-open interval, in log order, whatever their status. */
  function RowsOf(u: UserId, start: int, end: int, log: seq<Transaction>): seq<Transaction> {
    if log == [] then []
    else
      var t := log[|log| - 1];
      RowsOf(u, start, end, log[..|log| - 1]) + (if Involves(u, t) && Within(t, start, Some(end)) then [t] else [])
  }

  // ----- the loops of the source

  method SignedNetAmount(log: seq<Transaction>, u: UserId, start: int, end: Option<int>) returns (net: int)
    ensures net == Sum(Signed(u, start, end), log)
  {
    net := 0;
    for i := 0 to |log|
      invariant net == Sum(Signed(u, start, end), log[..i])
    {
      var t := log[i];
      assert log[..i + 1] == log[..i] + [t];
      SumPush(Signed(u, start, end), log[..i], t);
      if Involves(u, t) && t.completed && Within(t, start, end) {
        net := net + (if t.sender == u then -t.amount else t.amount);
      }
    }
    assert log[..|log|] == log;
  }

  method PeriodNet(log: seq<Transaction>, u: UserId, start: int, end: int)
    returns (net: int, rows: seq<Transaction>)
    ensures net == Sum(Signed(u, start, Some(end)), log) && rows == RowsOf(u, start, end, log)
  {
    net, rows := 0, [];
    for i := 0 to |log|
      invariant net == Sum(Signed(u, start, Some(end)), log[..i]) && rows == RowsOf(u, start, end, log[..i])
    {
      var t := log[i];
      assert log[..i + 1] == log[..i] + [t];
      assert log[..i + 1][..i] == log[..i];
      SumPush(Signed(u, start, Some(end)), log[..i], t);
      if Involves(u, t) && Within(t, start, Some(end)) {
        rows := rows + [t];
        if t.completed {
          net := net + (if t.sender == u then -t.amount else t.amount);
        }
      }
    }
    assert log[..|log|] == log;
  }

  /** Opening and closing figures worked back from a live balance and a log. */
  function Derive(balance: int, log: seq<Transaction>, u: UserId, p: Period): Figures
    requires Proper(p)
  {
    var (start, end) := SgtMonthBoundsUtc(p);
    var closing := balance - Sum(Signed(u, end, None), log);
    Figures(start, end, closing - Sum(Signed(u, start, Some(end)), log), closing, RowsOf(u, start, end, log))
  }

  method StatementForPeriod(balance: int, log: seq<Transaction>, u: UserId, openedAt: Option<int>, p: Period, now: int)
    returns (r: Result<Figures>)
    ensures r.Err? && r.error == BadMonth <==> !Proper(p)
    ensures r.Err? && r.error == FuturePeriod <==> Proper(p) && SgtMonthBoundsUtc(p).0 > now
    ensures r.Err? && r.error == AccountNotOpenYet <==>
            Proper(p) && SgtMonthBoundsUtc(p).0 <= now && openedAt.Some? && SgtMonthBoundsUtc(p).1 <= openedAt.value
    ensures r.Ok? ==> Proper(p) && r.value == Derive(balance, log, u, p)
  {
    if p.month < 1 || p.month > 12 {
      return Err(BadMonth);
    }
    var (start, end) := SgtMonthBoundsUtc(p);
    if start > now {
      return Err(FuturePeriod);
    }
    if openedAt.Some? && end <= openedAt.value {
      return Err(AccountNotOpenYet);
    }
    var netAfter := SignedNetAmount(log, u, end, None);
    var closing := balance - netAfter;
    var netWithin, rows := PeriodNet(log, u, start, end);
    r := Ok(Figures(start, end, closing - netWithin, closing, rows));
  }

  // ----- what the figures are worth

  /** What a row really did to the user's balance. */
  function Effect(u: UserId, t: Transaction): int {
    if !t.completed then 0
    else if t.recipient == u then t.amount
    else if t.sender == u then -t.amount
    else 0
  }

  function EffectBefore(u: UserId, instant: int): Transaction -> int {
    (t: Transaction) => if t.at < instant then Effect(u, t) else 0
  }

  function EffectFrom(u: UserId, instant: int): Transaction -> int {
    (t: Transaction) => if t.at >= instant then Effect(u, t) else 0
  }

  function TopUpsFrom(u: UserId, instant: int): Transaction -> int {
    (t: Transaction) => if t.at >= instant && t.completed && t.channel == TopUp && t.recipient == u then t.amount else 0
  }

  function TwiceTopUpsFrom(u: UserId, instant: int): Transaction -> int {
    (t: Transaction) => if t.at >= instant && t.completed && t.channel == TopUp && t.recipient == u then 2 * t.amount
      else 0
  }

  /** The welcome credit, if it was given before an instant, and if it was given at or after it. */
  function CreditBefore(db: Db, u: UserId, instant: int): int {
    if u in db.welcomed && db.welcomed[u] < instant then WELCOME_CREDIT else 0
  }

  function CreditFrom(db: Db, u: UserId, instant: int): int {
    if u in db.welcomed && db.welcomed[u] >= instant then WELCOME_CREDIT else 0
  }

  /** The balance the account had at an instant: the welcome credit and the rows before it. */
  function TrueBalance(db: Db, u: UserId, instant: int): int {
    CreditBefore(db, u, instant) + Sum(EffectBefore(u, instant), db.log)
  }

  /** How far a balance worked back to an instant is too high. */
  function Excess(db: Db, u: UserId, instant: int): int {
    2 * Sum(TopUpsFrom(u, instant), db.log) + CreditFrom(db, u, instant)
  }

  function AnyEffect(u: UserId): Transaction -> int {
    (t: Transaction) => Effect(u, t)
  }

  lemma {:induction false} NetIsEffect(u: UserId, log: seq<Transaction>, known: set<UserId>)
    requires LogSound(log, known)
    ensures NetOf(u, log) == Sum(AnyEffect(u), log)
  {
    if log != [] {
      var rest, t := log[..|log| - 1], log[|log| - 1];
      assert log == rest + [t] && t in log;
      NetIsEffect(u, rest, known);
      NetAfterRow(u, rest, t);
    }
  }

  lemma {:induction false} DoubledSum(u: UserId, instant: int, log: seq<Transaction>)
    ensures Sum(TwiceTopUpsFrom(u, instant), log) == 2 * Sum(TopUpsFrom(u, instant), log)
  {
    if log != [] {
      DoubledSum(u, instant, log[..|log| - 1]);
    }
  }

  /** Working back from the live balance overshoots by twice the top-ups, and by the welcome credit, that came after. */
  lemma WorkedBackBalance(db: Db, u: UserId, instant: int)
    requires LogSound(db.log, db.users.Keys) && BalancesMatchLog(db) && u in db.users
    ensures db.users[u].balance - Sum(Signed(u, instant, None), db.log)
            == TrueBalance(db, u, instant) + Excess(db, u, instant)
  {
    NetIsEffect(u, db.log, db.users.Keys);
    SumSplit(AnyEffect(u), EffectBefore(u, instant), EffectFrom(u, instant), db.log);
    forall t | t in db.log
      ensures EffectFrom(u, instant)(t) == Signed(u, instant, None)(t) + TwiceTopUpsFrom(u, instant)(t)
    {
    }
    SumSplit(EffectFrom(u, instant), Signed(u, instant, None), TwiceTopUpsFrom(u, instant), db.log);
    DoubledSum(u, instant, db.log);
  }

  lemma IntervalsAdd(u: UserId, log: seq<Transaction>, start: int, end: int)
    requires start <= end
    ensures Sum(Signed(u, start, None), log) == Sum(Signed(u, start, Some(end)), log) + Sum(Signed(u, end, None), log)
  {
    SumSplit(Signed(u, start, None), Signed(u, start, Some(end)), Signed(u, end, None), log);
  }

  /**
   In every run of the ledger a statement's closing figure is the true balance at
   the period's end plus twice the user's later top-ups, plus the welcome credit if
   that came later, and its opening figure likewise at the period's start.
   */
  lemma FiguresOffByLaterCredits(cfg: Config, events: seq<Interleaving.Event>, u: UserId, p: Period)
    requires Proper(p) && u in Interleaving.Run(cfg, events).db.users
    ensures var db := Interleaving.Run(cfg, events).db;
            var f := Derive(db.users[u].balance, db.log, u, p);
            && f.closing == TrueBalance(db, u, f.end) + Excess(db, u, f.end)
            && f.opening == TrueBalance(db, u, f.start) + Excess(db, u, f.start)
  {
    var m := Interleaving.Run(cfg, events);
    Interleaving.RunsAreSerializable(cfg, events);
    ReplayIsSound(cfg, m.history);
    ReplayKeepsBalances(cfg, m.history);
    var (start, end) := SgtMonthBoundsUtc(p);
    MonthEndsWhereNextBegins(p);
    WorkedBackBalance(m.db, u, end);
    WorkedBackBalance(m.db, u, start);
    IntervalsAdd(u, m.db.log, start, end);
  }

  /** Neither a top-up nor the welcome credit came to the user at or after an instant. */
  ghost predicate NoCreditFrom(db: Db, u: UserId, instant: int) {
    && (forall t :: t in db.log && t.channel == TopUp && t.recipient == u ==> t.at < instant)
    && (u in db.welcomed ==> db.welcomed[u] < instant)
  }

  lemma NoExcessIffNoCredit(db: Db, u: UserId, instant: int)
    requires LogSound(db.log, db.users.Keys)
    ensures Excess(db, u, instant) == 0 <==> NoCreditFrom(db, u, instant)
  {
    NoLaterTopUps(db.log, db.users.Keys, u, instant);
    SumPositive(TopUpsFrom(u, instant), db.log);
  }

  /**
   In every run the closing figure is right exactly when neither a top-up nor the
   welcome credit came to the user from the period's end on, and the opening figure
   exactly when neither came from the period's start on.
   */
  lemma FiguresRightIffNoLaterCredit(cfg: Config, events: seq<Interleaving.Event>, u: UserId, p: Period)
    requires Proper(p) && u in Interleaving.Run(cfg, events).db.users
    ensures var db := Interleaving.Run(cfg, events).db;
            var f := Derive(db.users[u].balance, db.log, u, p);
            && (f.closing == TrueBalance(db, u, f.end) <==> NoCreditFrom(db, u, f.end))
            && (f.opening == TrueBalance(db, u, f.start) <==> NoCreditFrom(db, u, f.start))
  {
    var m := Interleaving.Run(cfg, events);
    Interleaving.RunsAreSerializable(cfg, events);
    ReplayIsSound(cfg, m.history);
    FiguresOffByLaterCredits(cfg, events, u, p);
    NoExcessIffNoCredit(m.db, u, SgtMonthBoundsUtc(p).0);
    NoExcessIffNoCredit(m.db, u, SgtMonthBoundsUtc(p).1);
  }

  lemma NoLaterTopUps(log: seq<Transaction>, known: set<UserId>, u: UserId, instant: int)
    requires LogSound(log, known)
    ensures Sum(TopUpsFrom(u, instant), log) == 0 <==>
            forall t :: t in log && t.channel == TopUp && t.recipient == u ==> t.at < instant
  {
    SumPositive(TopUpsFrom(u, instant), log);
    forall t | t in log
      ensures TopUpsFrom(u, instant)(t) == 0 <==> !(t.channel == TopUp && t.recipient == u) || t.at < instant
    {
    }
  }

  // ----- the listed rows

  /** The positions strictly rise. */
  predicate Rising(positions: seq<int>) {
    forall j, k :: 0 <= j < k < |positions| ==> positions[j] < positions[k]
  }

  /**
   The list is the log at rising positions: exactly those where the user is sender or
   recipient and the time is in the interval, completed or not. So order and
   multiplicity are the log's.
   */
  lemma {:induction false} ListedRows(u: UserId, start: int, end: int, log: seq<Transaction>)
    returns (positions: seq<int>)
    ensures var rows := RowsOf(u, start, end, log);
            && |positions| == |rows| && Rising(positions)
            && (forall j :: 0 <= j < |rows| ==> 0 <= positions[j] < |log| && rows[j] == log[positions[j]])
    ensures forall i :: 0 <= i < |log| ==>
              (i in positions <==> (log[i].sender == u || log[i].recipient == u) && start <= log[i].at < end)
  {
    positions := [];
    if log != [] {
      var last := |log| - 1;
      positions := ListedRows(u, start, end, log[..last]);
      assert forall j :: 0 <= j < |positions| ==> positions[j] < last;
      if (log[last].sender == u || log[last].recipient == u) && start <= log[last].at < end {
        positions := positions + [last];
      }
    }
  }

  /** What a listed row adds to the balance as the statement takes it; only completed rows count. */
  function Line(u: UserId): Transaction -> int {
    (t: Transaction) => if !t.completed then 0 else if t.sender == u then -t.amount else t.amount
  }

  lemma {:induction false} ListAddsUp(u: UserId, start: int, end: int, log: seq<Transaction>)
    ensures Sum(Line(u), RowsOf(u, start, end, log)) == Sum(Signed(u, start, Some(end)), log)
  {
    if log != [] {
      var rest, t := log[..|log| - 1], log[|log| - 1];
      ListAddsUp(u, start, end, rest);
      if Involves(u, t) && Within(t, start, Some(end)) {
        SumPush(Line(u), RowsOf(u, start, end, rest), t);
      } else {
        assert RowsOf(u, start, end, rest) + [] == RowsOf(u, start, end, rest);
      }
    }
  }

  /** Opening plus the signed completed rows of the list is closing, and the bounds are the month's. */
  lemma FiguresAgreeWithList(balance: int, log: seq<Transaction>, u: UserId, p: Period)
    requires Proper(p)
    ensures var f := Derive(balance, log, u, p);
            f.opening + Sum(Line(u), f.rows) == f.closing && (f.start, f.end) == SgtMonthBoundsUtc(p)
    ensures var f := Derive(balance, log, u, p); f.rows == RowsOf(u, f.start, f.end, log)
  {
    var (start, end) := SgtMonthBoundsUtc(p);
    ListAddsUp(u, start, end, log);
  }

  /** From one snapshot of any log, a month closes where the next month opens. */
  lemma MonthsChain(balance: int, log: seq<Transaction>, u: UserId, p: Period)
    requires Proper(p)
    ensures Derive(balance, log, u, p).end == Derive(balance, log, u, AdjacentPeriod(p, 1)).start
    ensures Derive(balance, log, u, p).closing == Derive(balance, log, u, AdjacentPeriod(p, 1)).opening
  {
    var q := AdjacentPeriod(p, 1);
    MonthEndsWhereNextBegins(p);
    MonthEndsWhereNextBegins(q);
    IntervalsAdd(u, log, SgtMonthBoundsUtc(q).0, SgtMonthBoundsUtc(q).1);
  }

  /** A transfer that commits between reading the balance and reading the rows shifts the figures by its own sign. */
  lemma TornReadShift(balance: int, log: seq<Transaction>, row: Transaction, u: UserId, p: Period)
    requires Proper(p)
    ensures var clean, torn := Derive(balance, log, u, p), Derive(balance, log + [row], u, p);
            && torn.closing == clean.closing - Signed(u, clean.end, None)(row)
            && torn.opening == clean.opening - Signed(u, clean.start, None)(row)
  {
    var (start, end) := SgtMonthBoundsUtc(p);
    MonthEndsWhereNextBegins(p);
    SumPush(Signed(u, end, None), log, row);
    SumPush(Signed(u, start, Some(end)), log, row);
  }
}
