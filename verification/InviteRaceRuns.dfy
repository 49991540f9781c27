/**
 Races that break an invite's guarantees: calls that go uncounted, a start that
 commits after the lock, a second browser that activates the account, and an
 activation that mixes two starts.
 */
module InviteRaceRuns {
  import opened Sums
  import opened InviteAcceptance
  import opened InviteRace
  import opened InviteRaceSafety

  lemma {:induction false} StepsSplit(s: Race, c: Context, first: seq<Move>, more: seq<Move>)
    ensures Steps(s, c, first + more) == Steps(Steps(s, c, first), c, more)
  {
    if more == [] {
      assert first + more == first;
    } else {
      StepsSplit(s, c, first, more[..|more| - 1]);
      assert (first + more)[..|first + more| - 1] == first + more[..|more| - 1];
    }
  }

  lemma TwoSteps(s: Race, c: Context, a: Move, b: Move)
    ensures Steps(s, c, [a, b]) == Step(Step(s, c, a), c, b)
  {
    assert [] + [a] == [a] && [a] + [b] == [a, b];
    StepsPush(s, c, [], a);
    StepsPush(s, c, [a], b);
  }

  lemma ThreeSteps(s: Race, c: Context, a: Move, b: Move, d: Move)
    ensures Steps(s, c, [a, b, d]) == Step(Step(Step(s, c, a), c, b), c, d)
  {
    TwoSteps(s, c, a, b);
    assert [a, b] + [d] == [a, b, d];
    StepsPush(s, c, [a, b], d);
  }

  function By(token: nat, session: nat, secret: nat): StartRequest {
    StartRequest(token, session, true, false, true, secret, secret, Mailed)
  }

  function Guess(token: nat, session: nat, secret: nat, code: nat): VerifyRequest {
    VerifyRequest(token, Some(session), From(secret), code, true)
  }

  // ----- uncounted calls

  /** Flights that all read a count of zero. */
  ghost predicate AllReadZero(s: Race, starts: bool) {
    forall f :: f in s.flights ==> if starts then f.StartLoaded? && f.starts == 0 else f.WrongLoaded? && f.wrong == 0
  }

  lemma {:induction false} CloseAll(s: Race, c: Context, starts: bool) returns (moves: seq<Move>)
    requires AllReadZero(s, starts) && s.flights != [] && !Locked(s.row)
    ensures var t := Steps(s, c, moves);
            && t.flights == [] && !Locked(t.row)
            && (starts ==> StartsSince(t.log) == StartsSince(s.log) + |s.flights| && t.row.starts == 1)
            && (!starts ==> WrongSince(t.log) == WrongSince(s.log) + |s.flights| && t.row.wrong == 1)
    decreases |s.flights|
  {
    var next := Step(s, c, Close(0));
    assert s.flights[0] in s.flights && next.flights == s.flights[1..];
    StepLogCounts(s, c, Close(0));
    assert [] + [Close(0)] == [Close(0)];
    StepsPush(s, c, [], Close(0));
    moves := [Close(0)];
    if |s.flights| > 1 {
      var rest := CloseAll(next, c, starts);
      StepsSplit(s, c, [Close(0)], rest);
      moves := [Close(0)] + rest;
    }
  }

  /** n starts admitted and read, none written. */
  ghost predicate StartsWaiting(s: Race, c: Context, token: nat, n: nat) {
    && s.log == [] && |s.flights| == n && AllReadZero(s, true)
    && Usable(s.row, c, token) && !Locked(s.row) && s.row.session.None? && s.row.starts == 0
    && (s.row.user.Some? ==> !s.row.user.value.active) && (forall k :: k >= n ==> k !in s.drawn)
  }

  lemma OneMoreStart(s: Race, c: Context, token: nat, n: nat)
    requires StartsWaiting(s, c, token, n)
    ensures StartsWaiting(Step(Step(s, c, Open(By(token, 0, n))), c, Load(n)), c, token, n + 1)
  {
    var admitted := Step(s, c, Open(By(token, 0, n)));
    assert admitted.flights == s.flights + [StartGated(By(token, 0, n), false, s.row.user.None?)];
    var loaded := Step(admitted, c, Load(n));
    assert loaded.flights == s.flights + [StartLoaded(By(token, 0, n), false, s.row.user.None?, 0, 0)];
  }

  lemma {:induction false} QueueStarts(c: Context, token: nat, resent: bool, n: nat) returns (moves: seq<Move>)
    requires c.policy.inviteTtl > 0
    ensures StartsWaiting(Steps(Begin(c, token, resent), c, moves), c, token, n)
  {
    moves := [];
    if n > 0 {
      var before := QueueStarts(c, token, resent, n - 1);
      var s := Steps(Begin(c, token, resent), c, before);
      OneMoreStart(s, c, token, n - 1);
      TwoSteps(s, c, Open(By(token, 0, n - 1)), Load(n - 1));
      StepsSplit(Begin(c, token, resent), c, before, [Open(By(token, 0, n - 1)), Load(n - 1)]);
      moves := before + [Open(By(token, 0, n - 1)), Load(n - 1)];
    }
  }

  /** With overlap any number of starts can commit and be counted as one. */
  lemma OverlappingStartsGoUncounted(c: Context, token: nat, resent: bool, n: nat) returns (moves: seq<Move>)
    requires n > 0 && c.policy.inviteTtl > 0
    ensures var s := Steps(Begin(c, token, resent), c, moves);
            StartsSince(s.log) == n && s.row.starts == 1 && s.flights == [] && !Locked(s.row)
  {
    var queue := QueueStarts(c, token, resent, n);
    var s := Steps(Begin(c, token, resent), c, queue);
    var rest := CloseAll(s, c, true);
    StepsSplit(Begin(c, token, resent), c, queue, rest);
    moves := queue + rest;
  }

  /** One start from session 0 with secret 0, and its code 0. */
  function Started1(c: Context, token: nat, resent: bool): Race {
    Race(Start(Issued(c, token, resent).row, c, By(token, 0, 0)).row, [], [Started(0, 0, 0)], {0})
  }

  lemma FirstStartRun(c: Context, token: nat, resent: bool)
    requires c.policy.inviteTtl > 0
    ensures Steps(Begin(c, token, resent), c, [Open(By(token, 0, 0)), Load(0), Close(0)]) == Started1(c, token, resent)
  {
    ThreeSteps(Begin(c, token, resent), c, Open(By(token, 0, 0)), Load(0), Close(0));
    UndividedStart(Begin(c, token, resent), c, By(token, 0, 0));
  }

  /** n wrong codes tried and read, none written. */
  ghost predicate GuessesWaiting(s: Race, c: Context, token: nat, resent: bool, n: nat) {
    s.row == Started1(c, token, resent).row && s.log == [Started(0, 0, 0)] && |s.flights| == n && AllReadZero(s, false)
  }

  lemma OneMoreGuess(s: Race, c: Context, token: nat, resent: bool, n: nat)
    requires c.policy.inviteTtl > 0 && GuessesWaiting(s, c, token, resent, n)
    ensures GuessesWaiting(Step(Step(s, c, Try(Guess(token, 0, 1, 0))), c, Load(n)), c, token, resent, n + 1)
  {
    var v := Guess(token, 0, 1, 0);
    assert Checks(s.row, c, v);
    var tried := Step(s, c, Try(v));
    assert tried.flights == s.flights + [VerifyGated(v, false, StartsSince(s.log))];
    var loaded := Step(tried, c, Load(n));
    assert loaded.flights == s.flights + [WrongLoaded(0, WrongSince(s.log))];
  }

  lemma {:induction false} QueueGuesses(c: Context, token: nat, resent: bool, n: nat) returns (moves: seq<Move>)
    requires c.policy.inviteTtl > 0
    ensures GuessesWaiting(Steps(Started1(c, token, resent), c, moves), c, token, resent, n)
  {
    moves := [];
    if n > 0 {
      var before := QueueGuesses(c, token, resent, n - 1);
      var s := Steps(Started1(c, token, resent), c, before);
      OneMoreGuess(s, c, token, resent, n - 1);
      TwoSteps(s, c, Try(Guess(token, 0, 1, 0)), Load(n - 1));
      StepsSplit(Started1(c, token, resent), c, before, [Try(Guess(token, 0, 1, 0)), Load(n - 1)]);
      moves := before + [Try(Guess(token, 0, 1, 0)), Load(n - 1)];
    }
  }

  /** After one start, any number of overlapping wrong codes can be tried and be counted as one. */
  lemma OverlappingGuessesGoUncounted(c: Context, token: nat, resent: bool, n: nat) returns (moves: seq<Move>)
    requires n > 0 && c.policy.inviteTtl > 0
    ensures var s := Steps(Begin(c, token, resent), c, moves);
            WrongSince(s.log) == n && s.row.wrong == 1 && s.flights == [] && !Locked(s.row)
  {
    FirstStartRun(c, token, resent);
    var first := [Open(By(token, 0, 0)), Load(0), Close(0)];
    var queue := QueueGuesses(c, token, resent, n);
    var s := Steps(Started1(c, token, resent), c, queue);
    assert WrongSince(s.log) == 0;
    var rest := CloseAll(s, c, false);
    StepsSplit(Started1(c, token, resent), c, queue, rest);
    StepsSplit(Begin(c, token, resent), c, first, queue + rest);
    moves := first + (queue + rest);
  }

  // ----- a second browser

  function AdmittedRow(c: Context, token: nat, resent: bool): Row {
    Issued(c, token, resent).row.(user := Some(SetupUser(None, false)))
  }

  lemma TwoAdmitted(c: Context, token: nat, resent: bool)
    requires c.policy.inviteTtl > 0
    ensures var a, b := By(token, 10, 10), By(token, 20, 20);
            Step(Step(Begin(c, token, resent), c, Open(a)), c, Open(b)) ==
            Race(AdmittedRow(c, token, resent), [StartGated(a, false, !resent), StartGated(b, false, false)], [],
              {10, 20})
  {
    var a := By(token, 10, 10);
    assert Step(Begin(c, token, resent), c, Open(a)) ==
           Race(AdmittedRow(c, token, resent), [StartGated(a, false, !resent)], [], {10});
  }

  lemma TwoRead(row: Row, c: Context, a: StartRequest, b: StartRequest, created: bool)
    requires row.starts == 0
    ensures Step(Step(Race(row, [StartGated(a, false, created), StartGated(b, false, false)], [], {10, 20}), c,
            Load(0)), c, Load(1)) ==
            Race(row, [StartLoaded(a, false, created, 0, 0), StartLoaded(b, false, false, 0, 0)], [], {10, 20})
  {
    var s := Race(row, [StartGated(a, false, created), StartGated(b, false, false)], [], {10, 20});
    assert Step(s, c, Load(0)).flights == [StartLoaded(a, false, created, 0, 0), StartGated(b, false, false)];
  }

  lemma TwoWritten(row: Row, c: Context, a: StartRequest, b: StartRequest, created: bool)
    ensures var s := Race(row, [StartLoaded(a, false, created, 0, 0), StartLoaded(b, false, false, 0, 0)], [],
            {10, 20});
            Step(Step(s, c, Close(0)), c, Close(0)) ==
            Race(CloseStart(CloseStart(row, c, a, 0), c, b, 0), [],
                 [Started(a.session, a.secret, a.code), Started(b.session, b.secret, b.code)], {10, 20})
  {
    var s := Race(row, [StartLoaded(a, false, created, 0, 0), StartLoaded(b, false, false, 0, 0)], [], {10, 20});
    var one := Step(s, c, Close(0));
    assert one.flights == [StartLoaded(b, false, false, 0, 0)] && one.log == [Started(a.session, a.secret, a.code)];
  }

  /** Two starts from different sessions, both admitted and read before either is written. */
  lemma TwoBrowsers(c: Context, token: nat, resent: bool) returns (moves: seq<Move>)
    requires c.policy.inviteTtl > 0
    ensures var s := Steps(Begin(c, token, resent), c, moves);
            && s.flights == [] && s.log == [Started(10, 10, 10), Started(20, 20, 20)]
            && s.row == CloseStart(CloseStart(AdmittedRow(c, token, resent), c, By(token, 10, 10), 0), c,
               By(token, 20, 20), 0)
  {
    var s, row := Begin(c, token, resent), AdmittedRow(c, token, resent);
    var a, b := By(token, 10, 10), By(token, 20, 20);
    TwoAdmitted(c, token, resent);
    TwoRead(row, c, a, b, !resent);
    TwoWritten(row, c, a, b, !resent);
    TwoSteps(s, c, Open(a), Open(b));
    TwoSteps(Steps(s, c, [Open(a), Open(b)]), c, Load(0), Load(1));
    StepsSplit(s, c, [Open(a), Open(b)], [Load(0), Load(1)]);
    TwoSteps(Steps(s, c, [Open(a), Open(b)] + [Load(0), Load(1)]), c, Close(0), Close(0));
    StepsSplit(s, c, [Open(a), Open(b)] + [Load(0), Load(1)], [Close(0), Close(0)]);
    moves := [Open(a), Open(b)] + [Load(0), Load(1)] + [Close(0), Close(0)];
  }

  /** The session that was not the first to start activates the account. */
  lemma SecondBrowserActivates(c: Context, token: nat, resent: bool) returns (moves: seq<Move>)
    requires c.policy.inviteTtl > 0 && c.policy.codeTtl > 0
    ensures Steps(Begin(c, token, resent), c, moves).log ==
            [Started(10, 10, 10), Started(20, 20, 20), Activated(20, 20, 20)]
  {
    var before := TwoBrowsers(c, token, resent);
    var s := Steps(Begin(c, token, resent), c, before);
    var v := Guess(token, 20, 20, 20);
    assert Verify(s.row, c, v).entry == Some(Activated(20, 20, 20));
    UndividedVerify(s, c, v);
    ThreeSteps(s, c, Try(v), Load(0), Close(0));
    StepsSplit(Begin(c, token, resent), c, before, [Try(v), Load(0), Close(0)]);
    moves := before + [Try(v), Load(0), Close(0)];
  }

  // ----- a mixed activation

  lemma CheckedAndAdmitted(c: Context, token: nat, resent: bool)
    requires c.policy.inviteTtl > 0
    ensures var s, q, v := Started1(c, token, resent), By(token, 0, 5), Guess(token, 0, 0, 5);
            Step(Step(s, c, Try(v)), c, Open(q)) ==
              s.(flights := [VerifyGated(v, true, 1), StartGated(q, true, false)], drawn := {0, 5})
  {
    var s, v := Started1(c, token, resent), Guess(token, 0, 0, 5);
    assert Checks(s.row, c, v);
    assert StartsSince(s.log) == 1;
    assert Step(s, c, Try(v)) == s.(flights := [VerifyGated(v, true, 1)]);
  }

  lemma Restarted(s: Race, c: Context, q: StartRequest, f: Flight)
    requires s.flights == [f, StartGated(q, true, false)] && f.VerifyGated?
    ensures Step(Step(s, c, Load(1)), c, Close(1)) ==
            s.(row := CloseStart(s.row, c, q, s.row.starts), flights := [f], log := s.log
               + [Started(q.session, q.secret, q.code)])
  {
    var loaded := Step(s, c, Load(1));
    assert loaded.flights == [f, StartLoaded(q, true, false, s.row.starts, StartsSince(s.log))];
    assert Without(loaded.flights, 1) == [f];
  }

  lemma Accepted1(s: Race, c: Context, v: VerifyRequest)
    requires s.flights == [VerifyGated(v, true, 1)] && CodeMatches(s.row, c, v.code) && v.session.Some? && v.totp.From?
    ensures Step(Step(s, c, Load(0)), c, Close(0)).log == s.log + [Activated(v.session.value, v.totp.secret, v.code)]
  {
    assert Step(s, c, Load(0)).flights == [Accepting(v, 1)];
  }

  /** A TOTP checked against the first start's secret is accepted with the second start's code. */
  lemma MixedActivation(c: Context, token: nat, resent: bool) returns (moves: seq<Move>)
    requires c.policy.inviteTtl > 0 && c.policy.codeTtl > 0
    ensures Steps(Begin(c, token, resent), c, moves).log == [Started(0, 0, 0), Started(0, 5, 5), Activated(0, 0, 5)]
  {
    FirstStartRun(c, token, resent);
    var first := [Open(By(token, 0, 0)), Load(0), Close(0)];
    var s := Started1(c, token, resent);
    var q, v := By(token, 0, 5), Guess(token, 0, 0, 5);
    CheckedAndAdmitted(c, token, resent);
    TwoSteps(s, c, Try(v), Open(q));
    var both := Steps(s, c, [Try(v), Open(q)]);
    Restarted(both, c, q, VerifyGated(v, true, 1));
    TwoSteps(both, c, Load(1), Close(1));
    var restarted := Steps(both, c, [Load(1), Close(1)]);
    Accepted1(restarted, c, v);
    TwoSteps(restarted, c, Load(0), Close(0));
    StepsSplit(s, c, [Try(v), Open(q)], [Load(1), Close(1)]);
    StepsSplit(s, c, [Try(v), Open(q)] + [Load(1), Close(1)], [Load(0), Close(0)]);
    var more := [Try(v), Open(q)] + [Load(1), Close(1)] + [Load(0), Close(0)];
    StepsSplit(Begin(c, token, resent), c, first, more);
    moves := first + more;
  }

  // ----- a start after the lock

  function Malformed(token: nat): VerifyRequest {
    VerifyRequest(token, Some(0), BadFormat, 0, true)
  }

  /** Malformed codes are counted at once and lock the invite at the fifth. */
  lemma {:induction false} CountMalformed(s: Race, c: Context, token: nat, n: nat) returns (moves: seq<Move>)
    requires Admitted(s.row, c, Malformed(token)) && SetupActive(s.row.user.value, c) && s.row.wrong + n <= MAX_WRONG
    ensures var t := Steps(s, c, moves);
            t.row == s.row.(wrong := s.row.wrong + n, verifyLocked := n > 0 && s.row.wrong + n == MAX_WRONG)
              && t.flights == s.flights
  {
    moves := [];
    if n > 0 {
      var before := CountMalformed(s, c, token, n - 1);
      StepsPush(s, c, before, Try(Malformed(token)));
      moves := before + [Try(Malformed(token))];
    }
  }

  lemma SecondAdmitted(c: Context, token: nat, resent: bool)
    requires c.policy.inviteTtl > 0
    ensures var s, q := Started1(c, token, resent), By(token, 0, 5);
            Step(s, c, Open(q)) == s.(flights := [StartGated(q, true, false)], drawn := {0, 5})
    ensures Admitted(Started1(c, token, resent).row, c, Malformed(token))
    ensures SetupActive(Started1(c, token, resent).row.user.value, c)
  {
  }

  lemma AdmittedStartCommits(s: Race, c: Context, q: StartRequest)
    requires s.flights == [StartGated(q, true, false)]
    ensures Step(Step(s, c, Load(0)), c, Close(0)).log == s.log + [Started(q.session, q.secret, q.code)]
  {
    assert Step(s, c, Load(0)).flights == [StartLoaded(q, true, false, s.row.starts, StartsSince(s.log))];
  }

  /** A start admitted before the fifth wrong code commits after the lock. */
  lemma StartCommitsAfterLock(c: Context, token: nat, resent: bool) returns (moves: seq<Move>, more: seq<Move>)
    requires c.policy.inviteTtl > 0
    ensures var s := Steps(Begin(c, token, resent), c, moves);
            Locked(s.row) && Steps(s, c, more).log == s.log + [Started(0, 5, 5)]
  {
    FirstStartRun(c, token, resent);
    var first := [Open(By(token, 0, 0)), Load(0), Close(0)];
    var s, q := Started1(c, token, resent), By(token, 0, 5);
    SecondAdmitted(c, token, resent);
    var admitted := Step(s, c, Open(q));
    assert [] + [Open(q)] == [Open(q)];
    StepsPush(s, c, [], Open(q));
    var wrong := CountMalformed(admitted, c, token, 5);
    StepsSplit(s, c, [Open(q)], wrong);
    StepsSplit(Begin(c, token, resent), c, first, [Open(q)] + wrong);
    moves := first + ([Open(q)] + wrong);
    var locked := Steps(admitted, c, wrong);
    AdmittedStartCommits(locked, c, q);
    TwoSteps(locked, c, Load(0), Close(0));
    more := [Load(0), Close(0)];
  }

  // ----- a clean-up after a commit

  lemma SecondCommits(row: Row, c: Context, a: StartRequest, b: StartRequest)
    requires row.starts == 0
    ensures var s := Race(row, [StartGated(a, false, true), StartGated(b, false, false)], [], {10, 20});
            Step(Step(s, c, Load(1)), c, Close(1)) ==
            Race(CloseStart(row, c, b, 0), [StartGated(a, false, true)], [Started(b.session, b.secret, b.code)],
              {10, 20})
  {
    var s := Race(row, [StartGated(a, false, true), StartGated(b, false, false)], [], {10, 20});
    var loaded := Step(s, c, Load(1));
    assert loaded.flights == [StartGated(a, false, true), StartLoaded(b, false, false, 0, 0)];
    assert Without(loaded.flights, 1) == [StartGated(a, false, true)];
  }

  /** The first of two overlapping starts fails after the second has committed, and its clean-up forgets that start. */
  lemma CleanUpForgetsAStart(c: Context, token: nat) returns (moves: seq<Move>)
    requires c.policy.inviteTtl > 0
    ensures var s := Steps(Begin(c, token, false), c, moves);
            StartsSince(s.log) == 1 && s.row.starts == 0 && s.row.user.None? && s.row.session.None?
  {
    var s, row := Begin(c, token, false), AdmittedRow(c, token, false);
    var a, b := By(token, 10, 10), By(token, 20, 20);
    TwoAdmitted(c, token, false);
    SecondCommits(row, c, a, b);
    TwoSteps(s, c, Open(a), Open(b));
    TwoSteps(Steps(s, c, [Open(a), Open(b)]), c, Load(1), Close(1));
    StepsSplit(s, c, [Open(a), Open(b)], [Load(1), Close(1)]);
    var before := [Open(a), Open(b)] + [Load(1), Close(1)];
    StepsPush(s, c, before, Fail(0));
    moves := before + [Fail(0)];
  }
}
