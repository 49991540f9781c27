/**
 What statements call a past balance against what the database held at that time.
 Rows and credits are stamped before they commit, so the two differ by whatever was
 in flight with its stamp taken.
 */
module PastBalances {
  import opened Sums
  import opened Calendar
  import opened Ledger
  import opened LedgerInvariants
  import opened Statement
  import Interleaving
  import Timestamps

  /** What an account holds; one that is not open yet holds nothing. */
  function Held(db: Db, u: UserId): int {
    if u in db.users then db.users[u].balance else 0
  }

  /** What rows and a welcome credit stamped before an instant, but added since a past state, do to the user. */
  function LateEffect(past: Db, db: Db, u: UserId, instant: int): int
    requires |past.log| <= |db.log|
  {
    Sum(EffectBefore(u, instant), db.log[|past.log|..])
    + if u in db.welcomed && u !in past.welcomed && db.welcomed[u] < instant then WELCOME_CREDIT else 0
  }

  /** The true balance at an instant is what a database then held, plus what was stamped before it and added later. */
  lemma TrueBalanceIsHeldPlusLate(past: Db, db: Db, u: UserId, instant: int)
    requires RowsSound(past) && BalancesMatchLog(past) && Timestamps.Extends(past, db)
    requires (forall t :: t in past.log ==> t.at < instant)
             && (forall v :: v in past.welcomed ==> past.welcomed[v] < instant)
    ensures TrueBalance(db, u, instant) == Held(past, u) + LateEffect(past, db, u, instant)
  {
    var later := db.log[|past.log|..];
    assert db.log == past.log + later;
    SumConcat(EffectBefore(u, instant), past.log, later);
    NetIsEffect(u, past.log, past.users.Keys);
    SumSame(EffectBefore(u, instant), AnyEffect(u), past.log);
    if u !in past.users {
      StrangersHaveNoNet(u, past.log, past.users.Keys);
    }
  }

  /** In every run the database is sound and holds nothing stamped after the clock. */
  lemma PastIsSound(cfg: Config, first: seq<Interleaving.Event>)
    ensures var m := Interleaving.Run(cfg, first);
            && RowsSound(m.db) && BalancesMatchLog(m.db)
            && (forall t :: t in m.db.log ==> t.at <= m.clock) && Timestamps.CreditsPast(m.db.welcomed, m.clock)
  {
    Timestamps.CreditsArePast(cfg, first);
    Interleaving.RunsAreSerializable(cfg, first);
    ReplayIsSound(cfg, Interleaving.Run(cfg, first).history);
    ReplayKeepsBalances(cfg, Interleaving.Run(cfg, first).history);
  }

  /** In every run, for every instant after the point reached so far. */
  lemma TrueBalanceInRuns(cfg: Config, first: seq<Interleaving.Event>, more: seq<Interleaving.Event>, u: UserId,
                          instant: int)
    requires Interleaving.Run(cfg, first).clock < instant
    ensures var past, db := Interleaving.Run(cfg, first).db, Interleaving.Run(cfg, first + more).db;
            && Timestamps.Extends(past, db)
            && TrueBalance(db, u, instant) == Held(past, u) + LateEffect(past, db, u, instant)
  {
    Timestamps.RunAddsLaterOrInFlight(cfg, first, more);
    PastIsSound(cfg, first);
    TrueBalanceIsHeldPlusLate(Interleaving.Run(cfg, first).db, Interleaving.Run(cfg, first + more).db, u, instant);
  }

  /** A session that has taken a timestamp for something of this user's. */
  predicate StampedFor(s: Interleaving.Session, u: UserId) {
    Timestamps.StampOf(s.phase).Some? && (s.c.sender == u || s.c.recipient == u)
  }

  ghost predicate NothingStampedFor(m: Interleaving.Machine, u: UserId) {
    forall sid :: sid in m.sessions ==> !StampedFor(m.sessions[sid], u)
  }

  lemma NoLateEffect(cfg: Config, m: Interleaving.Machine, db: Db, u: UserId, instant: int)
    requires Interleaving.Ok(cfg, m) && Timestamps.AddedFrom(m, db) && NothingStampedFor(m, u) && instant <= m.clock
    ensures LateEffect(m.db, db, u, instant) == 0
  {
    var later := db.log[|m.db.log|..];
    forall t | t in later ensures EffectBefore(u, instant)(t) == 0 {
      var i :| |m.db.log| <= i < |db.log| && db.log[i] == t;
      if t.at < instant {
        var sid :| sid in m.sessions && Timestamps.RowToCome(m.sessions[sid]) == Some(t);
        assert !StampedFor(m.sessions[sid], u) && Interleaving.SessionOk(cfg, m.db, m.sessions[sid]);
      }
    }
    SumZero(EffectBefore(u, instant), later);
    forall sid, at | sid in m.sessions ensures !Timestamps.CreditToCome(m.sessions[sid], u, at) {
      assert !StampedFor(m.sessions[sid], u) && Interleaving.SessionOk(cfg, m.db, m.sessions[sid]);
    }
  }

  /** A stamped session can commit at once, and then moves the user's balance as of the stamp. */
  lemma StampedSessionCommits(cfg: Config, m: Interleaving.Machine, sid: Interleaving.SessionId, u: UserId,
                          instant: int)
    requires Interleaving.Ok(cfg, m) && sid in m.sessions && StampedFor(m.sessions[sid], u)
    requires Timestamps.StampOf(m.sessions[sid].phase).value < instant
    ensures var after := Interleaving.Next(cfg, m, Interleaving.Advance(sid)).db;
            |m.db.log| <= |after.log| && LateEffect(m.db, after, u, instant) != 0
  {
    var s := m.sessions[sid];
    var after := Interleaving.Next(cfg, m, Interleaving.Advance(sid)).db;
    if Timestamps.RowToCome(s).Some? {
      var row := Timestamps.RowToCome(s).value;
      assert after.log == m.db.log + [row] && after.welcomed == m.db.welcomed;
      assert after.log[|m.db.log|..] == [row];
      OneRowSum(EffectBefore(u, instant), row);
    } else {
      assert after.log == m.db.log;
      assert after.log[|m.db.log|..] == [];
    }
  }

  lemma OneRowSum(w: Transaction -> int, row: Transaction)
    ensures Sum(w, [row]) == w(row)
  {
    assert [] + [row] == [row];
    SumPush(w, [], row);
  }

  /** Nothing stamped for the user: no later event changes the true balance of the instant. */
  lemma HeldForGood(cfg: Config, first: seq<Interleaving.Event>, elapsed: nat, more: seq<Interleaving.Event>,
                    u: UserId, instant: int)
    requires Interleaving.Run(cfg, first).clock < instant <= Interleaving.Run(cfg, first).clock + elapsed
    requires NothingStampedFor(Interleaving.Run(cfg, first), u)
    ensures TrueBalance(Interleaving.Run(cfg, first + [Interleaving.Tick(elapsed)] + more).db, u, instant)
            == Held(Interleaving.Run(cfg, first).db, u)
  {
    var waited := first + [Interleaving.Tick(elapsed)];
    Interleaving.RunStep(cfg, first, Interleaving.Tick(elapsed));
    Timestamps.RunAddsLaterOrInFlight(cfg, waited, more);
    PastIsSound(cfg, first);
    NoLateEffect(cfg, Interleaving.Run(cfg, waited), Interleaving.Run(cfg, waited + more).db, u, instant);
    TrueBalanceIsHeldPlusLate(Interleaving.Run(cfg, first).db, Interleaving.Run(cfg, waited + more).db, u, instant);
  }

  /** Something stamped for the user: its commit changes the true balance of an instant that has passed. */
  lemma NotHeldForGood(cfg: Config, first: seq<Interleaving.Event>, elapsed: nat, sid: Interleaving.SessionId,
                       u: UserId, instant: int)
    requires Interleaving.Run(cfg, first).clock < instant <= Interleaving.Run(cfg, first).clock + elapsed
    requires sid in Interleaving.Run(cfg, first).sessions && StampedFor(Interleaving.Run(cfg, first).sessions[sid], u)
    ensures TrueBalance(Interleaving.Run(cfg, first + [Interleaving.Tick(elapsed)] + [Interleaving.Advance(sid)]).db,
            u, instant)
            != Held(Interleaving.Run(cfg, first).db, u)
  {
    var m := Interleaving.Run(cfg, first);
    var waited := first + [Interleaving.Tick(elapsed)];
    Interleaving.RunStep(cfg, first, Interleaving.Tick(elapsed));
    Interleaving.RunStep(cfg, waited, Interleaving.Advance(sid));
    assert Interleaving.PhaseDated(m.sessions[sid].phase, m.clock);
    StampedSessionCommits(cfg, Interleaving.Run(cfg, waited), sid, u, instant);
    PastIsSound(cfg, first);
    Timestamps.RunAddsLaterOrInFlight(cfg, waited, [Interleaving.Advance(sid)]);
    TrueBalanceIsHeldPlusLate(m.db, Interleaving.Run(cfg, waited + [Interleaving.Advance(sid)]).db, u, instant);
  }

  /**
   In every run, once an instant has passed, the true balance of that instant agrees in
   every continuation with what the database held when it passed if and only if nothing of
   the user's was in flight with its timestamp taken.
   */
  lemma HeldForGoodIffNothingStamped(cfg: Config, first: seq<Interleaving.Event>, elapsed: nat, u: UserId, instant: int)
    requires Interleaving.Run(cfg, first).clock < instant <= Interleaving.Run(cfg, first).clock + elapsed
    ensures (forall more ::
               TrueBalance(Interleaving.Run(cfg, first + [Interleaving.Tick(elapsed)] + more).db, u, instant)
               == Held(Interleaving.Run(cfg, first).db, u))
            <==> NothingStampedFor(Interleaving.Run(cfg, first), u)
  {
    var m := Interleaving.Run(cfg, first);
    if NothingStampedFor(m, u) {
      forall more
        ensures TrueBalance(Interleaving.Run(cfg, first + [Interleaving.Tick(elapsed)] + more).db, u, instant) ==
                Held(m.db, u)
      {
        HeldForGood(cfg, first, elapsed, more, u, instant);
      }
    } else {
      var sid :| sid in m.sessions && StampedFor(m.sessions[sid], u);
      NotHeldForGood(cfg, first, elapsed, sid, u, instant);
    }
  }

  // ----- runs

  /** A fresh account. */
  function Newcomer(): User {
    User(0, LIMIT_MIN, LIMIT_MIN, false, false, false, false, false, false, Active)
  }

  function Opened(): seq<Interleaving.Event> {
    [Interleaving.Commit(Joined(0, Newcomer()))]
  }

  lemma OpenedRun(cfg: Config)
    ensures Interleaving.Run(cfg, Opened()) ==
            Interleaving.Machine(Db(map[0 := Newcomer()], map[], map[], [], map[]), map[], 0, [Joined(0, Newcomer())])
  {
    var join := Interleaving.Commit(Joined(0, Newcomer()));
    assert [] + [join] == [join];
    Interleaving.RunStep(cfg, [], join);
  }

  /** A top-up of one cent, stamped and then committed with a month between the two. */
  function StampedTopUp(at: int): seq<Interleaving.Event> {
    [Interleaving.Stamp(0, Credited(0, 1, at))]
  }

  lemma WriteTopUp(db: Db, at: int)
    requires db.users == map[0 := Newcomer()] && db.log == []
    ensures var after := TopUpCall(db, 0, 1, at, true).0;
            && after.users == map[0 := Newcomer().(balance := 1)]
            && after.log == [Transaction(0, 0, 1, TopUp, true, at, false)]
  {
  }

  lemma CommitTopUp(cfg: Config, events: seq<Interleaving.Event>, at: int)
    requires var m := Interleaving.Run(cfg, events);
             && 0 in m.sessions && m.sessions[0].phase == Interleaving.Crediting(Credited(0, 1, at)) && m.db.log == []
             && m.db.users == map[0 := Newcomer()]
    ensures var db := Interleaving.Run(cfg, events + [Interleaving.Advance(0)]).db;
            && db.users == map[0 := Newcomer().(balance := 1)]
            && db.log == [Transaction(0, 0, 1, TopUp, true, at, false)]
  {
    var m := Interleaving.Run(cfg, events);
    Interleaving.RunStep(cfg, events, Interleaving.Advance(0));
    WriteTopUp(m.db, at);
    assert Interleaving.Step(cfg, m.db, m.sessions[0], m.clock).0 == TopUpCall(m.db, 0, 1, at, true).0;
  }

  /** An account is opened, a month and more pass, and it tops up. */
  function LateTopUp(): seq<Interleaving.Event> {
    Opened() + [Interleaving.Tick(31 * DAY)] + StampedTopUp(31 * DAY) + [Interleaving.Advance(0)]
  }

  lemma LateTopUpRun(cfg: Config)
    ensures var db := Interleaving.Run(cfg, LateTopUp()).db;
            0 in db.users && db.log == [Transaction(0, 0, 1, TopUp, true, 31 * DAY, false)]
  {
    OpenedRun(cfg);
    var waited := Opened() + [Interleaving.Tick(31 * DAY)];
    Interleaving.RunStep(cfg, Opened(), Interleaving.Tick(31 * DAY));
    Interleaving.RunStep(cfg, waited, Interleaving.Stamp(0, Credited(0, 1, 31 * DAY)));
    CommitTopUp(cfg, waited + StampedTopUp(31 * DAY), 31 * DAY);
  }

  /** In that run the statement of the first month closes with money the account did not have. */
  lemma LaterTopUpMisstates(cfg: Config)
    ensures var db := Interleaving.Run(cfg, LateTopUp()).db;
            && 0 in db.users
            && var f := Derive(db.users[0].balance, db.log, 0, Period(1, 1));
               f.closing != TrueBalance(db, 0, f.end)
  {
    LateTopUpRun(cfg);
    FiguresRightIffNoLaterCredit(cfg, LateTopUp(), 0, Period(1, 1));
    MonthEndsWhereNextBegins(Period(1, 1));
    var db := Interleaving.Run(cfg, LateTopUp()).db;
    assert db.log[0] in db.log && SgtMonthBoundsUtc(Period(1, 1)).1 <= 31 * DAY;
  }

  /** A top-up stamped in the first month and still in flight when that month has ended. */
  function MonthOver(): seq<Interleaving.Event> {
    Opened() + StampedTopUp(0) + [Interleaving.Tick(31 * DAY)]
  }

  lemma MonthOverRun(cfg: Config)
    ensures var m := Interleaving.Run(cfg, MonthOver());
            && m.clock == 31 * DAY && m.db.users == map[0 := Newcomer()] && m.db.log == []
            && 0 in m.sessions && m.sessions[0].phase == Interleaving.Crediting(Credited(0, 1, 0))
  {
    OpenedRun(cfg);
    Interleaving.RunStep(cfg, Opened(), Interleaving.Stamp(0, Credited(0, 1, 0)));
    Interleaving.RunStep(cfg, Opened() + StampedTopUp(0), Interleaving.Tick(31 * DAY));
  }

  lemma FirstMonthEnds()
    ensures 0 < SgtMonthBoundsUtc(Period(1, 1)).1 <= 31 * DAY
  {
    MonthEndsWhereNextBegins(Period(1, 1));
  }

  lemma ClosingFigure(balance: int, log: seq<Transaction>, u: UserId, p: Period)
    requires Proper(p)
    ensures Derive(balance, log, u, p).closing == balance - Sum(Signed(u, SgtMonthBoundsUtc(p).1, None), log)
  {
  }

  lemma FirstMonthFigures()
    ensures Derive(0, [], 0, Period(1, 1)).closing == 0
    ensures Derive(1, [Transaction(0, 0, 1, TopUp, true, 0, false)], 0, Period(1, 1)).closing == 1
  {
    var row := Transaction(0, 0, 1, TopUp, true, 0, false);
    var sign := Signed(0, SgtMonthBoundsUtc(Period(1, 1)).1, None);
    FirstMonthEnds();
    assert sign(row) == 0;
    OneRowSum(sign, row);
    ClosingFigure(0, [], 0, Period(1, 1));
    ClosingFigure(1, [row], 0, Period(1, 1));
  }

  /** A finished month's closing figure changes after the month has ended, when a row stamped in it commits. */
  lemma FinishedMonthChanges(cfg: Config)
    ensures var m := Interleaving.Run(cfg, MonthOver());
            && m.clock >= SgtMonthBoundsUtc(Period(1, 1)).1
            && 0 in m.db.users && Derive(m.db.users[0].balance, m.db.log, 0, Period(1, 1)).closing == 0
    ensures var db := Interleaving.Run(cfg, MonthOver() + [Interleaving.Advance(0)]).db;
            0 in db.users && Derive(db.users[0].balance, db.log, 0, Period(1, 1)).closing == 1
  {
    FirstMonthEnds();
    FirstMonthFigures();
    MonthOverRun(cfg);
    CommitTopUp(cfg, MonthOver(), 0);
  }
}
