/**
 The two limits of an invite under overlapping calls. A gate looks at what has been
 committed and not at what is in flight, so the limits hold in a race that runs to its
 end exactly when no call passed while committed and in-flight ones together had
 reached the limit.
 */
module InviteRaceLimits {
  import opened Sums
  import opened InviteAcceptance
  import opened InviteRace
  import opened InviteRaceCounts
  import opened InviteRaceRuns

  // ----- counting flights

  function CountIf(p: Flight -> bool, fs: seq<Flight>): nat {
    if fs == [] then 0 else CountIf(p, fs[..|fs| - 1]) + if p(fs[|fs| - 1]) then 1 else 0
  }

  lemma {:induction false} CountConcat(p: Flight -> bool, a: seq<Flight>, b: seq<Flight>)
    ensures CountIf(p, a + b) == CountIf(p, a) + CountIf(p, b)
  {
    if b == [] {
      assert a + b == a;
    } else {
      CountConcat(p, a, b[..|b| - 1]);
      assert (a + b)[..|a + b| - 1] == a + b[..|b| - 1];
    }
  }

  lemma CountPush(p: Flight -> bool, fs: seq<Flight>, f: Flight)
    ensures CountIf(p, fs + [f]) == CountIf(p, fs) + if p(f) then 1 else 0
  {
    assert (fs + [f])[..|fs|] == fs;
  }

  lemma CountSplit(p: Flight -> bool, fs: seq<Flight>, i: nat)
    requires i < |fs|
    ensures CountIf(p, fs) == CountIf(p, fs[..i]) + (if p(fs[i]) then 1 else 0) + CountIf(p, fs[i + 1..])
  {
    assert fs == fs[..i] + [fs[i]] + fs[i + 1..];
    CountConcat(p, fs[..i] + [fs[i]], fs[i + 1..]);
    CountPush(p, fs[..i], fs[i]);
  }

  lemma CountWithout(p: Flight -> bool, fs: seq<Flight>, i: nat)
    requires i < |fs|
    ensures CountIf(p, Without(fs, i)) == CountIf(p, fs) - if p(fs[i]) then 1 else 0
  {
    CountSplit(p, fs, i);
    CountConcat(p, fs[..i], fs[i + 1..]);
  }

  lemma CountReplaced(p: Flight -> bool, fs: seq<Flight>, i: nat, f: Flight)
    requires i < |fs|
    ensures CountIf(p, fs[i := f]) == CountIf(p, fs) - (if p(fs[i]) then 1 else 0) + if p(f) then 1 else 0
  {
    CountSplit(p, fs, i);
    CountSplit(p, fs[i := f], i);
    assert fs[i := f][..i] == fs[..i] && fs[i := f][i + 1..] == fs[i + 1..];
  }

  // ----- what is committed or on its way

  predicate IsStart(f: Flight) { Starting(f) }

  predicate IsWrong(f: Flight) { f.WrongLoaded? }

  function Starts(s: Race): nat {
    StartsSince(s.log) + CountIf(IsStart, s.flights)
  }

  function Wrongs(s: Race): nat {
    WrongSince(s.log) + CountIf(IsWrong, s.flights)
  }

  predicate Admits(s: Race, c: Context, m: Move) {
    m.Open? && m.request.secret !in s.drawn && OpenStart(s.row, c, m.request).Admit?
  }

  /** A verify whose code has turned out wrong: counted at once, or its count read. */
  predicate TurnsWrong(s: Race, c: Context, m: Move) {
    || CountsAtOnce(s, c, m)
    || (m.Load? && m.i < |s.flights| && s.flights[m.i].VerifyGated? && Loaded(s, c, s.flights[m.i]).WrongLoaded?)
  }

  predicate Abandons(m: Move) { m.Drop? || m.Fail? }

  lemma CloseKeepsNumbers(s: Race, c: Context, i: nat)
    ensures var t := Step(s, c, Close(i)); Starts(t) == Starts(s) && Wrongs(t) == Wrongs(s)
  {
    if i < |s.flights| && !Gated(s.flights[i]) {
      StepLogCounts(s, c, Close(i));
      CountWithout(IsStart, s.flights, i);
      CountWithout(IsWrong, s.flights, i);
    }
  }

  lemma LoadNumbers(s: Race, c: Context, i: nat)
    ensures var t := Step(s, c, Load(i));
            Starts(t) == Starts(s) && Wrongs(t) == Wrongs(s) + if TurnsWrong(s, c, Load(i)) then 1 else 0
  {
    if i < |s.flights| {
      var f := Loaded(s, c, s.flights[i]);
      CountReplaced(IsStart, s.flights, i, f);
      CountReplaced(IsWrong, s.flights, i, f);
    }
  }

  lemma OpenNumbers(s: Race, c: Context, q: StartRequest)
    ensures var t := Step(s, c, Open(q));
            Starts(t) == Starts(s) + (if Admits(s, c, Open(q)) then 1 else 0) && Wrongs(t) == Wrongs(s)
  {
    if Admits(s, c, Open(q)) {
      var f := StartGated(q, s.row.session.Some?, OpenStart(s.row, c, q).created);
      CountPush(IsStart, s.flights, f);
      CountPush(IsWrong, s.flights, f);
    }
  }

  lemma CheckedTryNumbers(s: Race, c: Context, v: VerifyRequest)
    requires Checks(s.row, c, v)
    ensures var t := Step(s, c, Try(v)); Starts(t) == Starts(s) && Wrongs(t) == Wrongs(s)
  {
    var f := VerifyGated(v, v.totp.secret == s.row.user.value.setup.value.secret, StartsSince(s.log));
    assert Step(s, c, Try(v)) == s.(flights := s.flights + [f]);
    CountPush(IsStart, s.flights, f);
    CountPush(IsWrong, s.flights, f);
  }

  lemma LogNumbers(s: Race, t: Race)
    requires t.flights == s.flights && (t.log == s.log || t.log == s.log + [WrongCode])
    ensures Starts(t) == Starts(s) && Wrongs(t) == Wrongs(s) + if t.log == s.log then 0 else 1
  {
    Appended(s.log, WrongCode);
  }

  lemma TryNumbers(s: Race, c: Context, v: VerifyRequest)
    ensures var t := Step(s, c, Try(v));
            Starts(t) == Starts(s) && Wrongs(t) == Wrongs(s) + if CountsAtOnce(s, c, Try(v)) then 1 else 0
  {
    if Checks(s.row, c, v) {
      CheckedTryNumbers(s, c, v);
    } else {
      UncheckedVerify(s.row, c, v);
      LogNumbers(s, Step(s, c, Try(v)));
    }
  }

  /** Without abandoned calls the numbers only grow, by one at each call that passes. */
  lemma StepNumbers(s: Race, c: Context, m: Move)
    requires !Abandons(m)
    ensures Starts(Step(s, c, m)) == Starts(s) + if Admits(s, c, m) then 1 else 0
    ensures Wrongs(Step(s, c, m)) == Wrongs(s) + if TurnsWrong(s, c, m) then 1 else 0
  {
    match m
    case Open(q) => OpenNumbers(s, c, q);
    case Try(v) => TryNumbers(s, c, v);
    case Load(i) => LoadNumbers(s, c, i);
    case Close(i) => CloseKeepsNumbers(s, c, i);
  }

  // ----- the limits

  /** A start admitted although committed starts and starts in flight are already at the limit. */
  predicate AdmitsOver(s: Race, c: Context, m: Move) {
    Admits(s, c, m) && Starts(s) >= MAX_STARTS
  }

  predicate WrongOver(s: Race, c: Context, m: Move) {
    TurnsWrong(s, c, m) && Wrongs(s) >= MAX_WRONG
  }

  ghost predicate NeverAdmitsOver(s: Race, c: Context, moves: seq<Move>) {
    forall k :: 0 <= k < |moves| ==> !AdmitsOver(Steps(s, c, moves[..k]), c, moves[k])
  }

  ghost predicate NeverWrongOver(s: Race, c: Context, moves: seq<Move>) {
    forall k :: 0 <= k < |moves| ==> !WrongOver(Steps(s, c, moves[..k]), c, moves[k])
  }

  lemma NeverOverPush(s: Race, c: Context, moves: seq<Move>, m: Move)
    ensures NeverAdmitsOver(s, c, moves + [m])
            <==> NeverAdmitsOver(s, c, moves) && !AdmitsOver(Steps(s, c, moves), c, m)
    ensures NeverWrongOver(s, c, moves + [m]) <==> NeverWrongOver(s, c, moves) && !WrongOver(Steps(s, c, moves), c, m)
  {
    var all := moves + [m];
    assert all[..|moves|] == moves && all[|moves|] == m;
    assert forall k :: 0 <= k < |moves| ==> all[..k] == moves[..k] && all[k] == moves[k];
  }

  lemma {:induction false} NumbersAlongRace(s: Race, c: Context, moves: seq<Move>)
    requires Starts(s) <= MAX_STARTS && Wrongs(s) <= MAX_WRONG && forall m :: m in moves ==> !Abandons(m)
    ensures Starts(Steps(s, c, moves)) <= MAX_STARTS <==> NeverAdmitsOver(s, c, moves)
    ensures Wrongs(Steps(s, c, moves)) <= MAX_WRONG <==> NeverWrongOver(s, c, moves)
  {
    if moves != [] {
      var before, m := moves[..|moves| - 1], moves[|moves| - 1];
      assert moves == before + [m];
      NumbersAlongRace(s, c, before);
      NeverOverPush(s, c, before, m);
      StepNumbers(Steps(s, c, before), c, m);
    }
  }

  /**
   In every race that runs to its end, at most three starts commit if and only if none was
   admitted while three were already committed or in flight, and at most five wrong codes
   are counted if and only if none turned out wrong while five were already counted or read.
   */
  lemma LimitsHoldIffNeverOver(c: Context, token: nat, resent: bool, moves: seq<Move>)
    requires Steps(Begin(c, token, resent), c, moves).flights == [] && forall m :: m in moves ==> !Abandons(m)
    ensures StartsSince(Steps(Begin(c, token, resent), c, moves).log) <= MAX_STARTS <==>
            NeverAdmitsOver(Begin(c, token, resent), c, moves)
    ensures WrongSince(Steps(Begin(c, token, resent), c, moves).log) <= MAX_WRONG <==>
            NeverWrongOver(Begin(c, token, resent), c, moves)
  {
    NumbersAlongRace(Begin(c, token, resent), c, moves);
  }

  // ----- all counted, and over the limit

  /** n starts admitted, none read. */
  ghost predicate StartsAdmitted(s: Race, c: Context, token: nat, n: nat) {
    && s.log == [] && |s.flights| == n && (forall f :: f in s.flights ==> f.StartGated?)
    && Usable(s.row, c, token) && !Locked(s.row) && s.row.session.None? && s.row.starts == 0
    && (s.row.user.Some? ==> !s.row.user.value.active) && (forall k :: k >= n ==> k !in s.drawn)
  }

  lemma AdmitAnother(s: Race, c: Context, token: nat, n: nat)
    requires StartsAdmitted(s, c, token, n)
    ensures StartsAdmitted(Step(s, c, Open(By(token, 0, n))), c, token, n + 1)
  {
    var t := Step(s, c, Open(By(token, 0, n)));
    assert t.flights == s.flights + [StartGated(By(token, 0, n), false, s.row.user.None?)];
  }

  lemma {:induction false} AdmitAll(c: Context, token: nat, resent: bool, n: nat) returns (moves: seq<Move>)
    requires c.policy.inviteTtl > 0
    ensures StartsAdmitted(Steps(Begin(c, token, resent), c, moves), c, token, n) && forall m :: m in moves ==>
                                                                                       !Abandons(m)
  {
    moves := [];
    if n > 0 {
      var before := AdmitAll(c, token, resent, n - 1);
      AdmitAnother(Steps(Begin(c, token, resent), c, before), c, token, n - 1);
      StepsPush(Begin(c, token, resent), c, before, Open(By(token, 0, n - 1)));
      moves := before + [Open(By(token, 0, n - 1))];
    }
  }

  /** One admitted start is read and written, on top of all before it. */
  lemma FinishFirst(s: Race, c: Context)
    requires s.flights != [] && s.flights[0].StartGated? && s.row.starts == StartsSince(s.log)
    ensures var t := Step(Step(s, c, Load(0)), c, Close(0));
            && t.flights == s.flights[1..] && t.row.starts == StartsSince(t.log) == s.row.starts + 1
  {
    var loaded := Step(s, c, Load(0));
    var f := Loaded(s, c, s.flights[0]);
    assert loaded.flights == [f] + s.flights[1..];
    StepLogCounts(loaded, c, Close(0));
    assert Without(loaded.flights, 0) == s.flights[1..];
  }

  lemma {:induction false} FinishAll(s: Race, c: Context) returns (moves: seq<Move>)
    requires (forall f :: f in s.flights ==> f.StartGated?) && s.row.starts == StartsSince(s.log)
    ensures var t := Steps(s, c, moves);
            t.flights == [] && t.row.starts == StartsSince(t.log) == s.row.starts + |s.flights|
    ensures forall m :: m in moves ==> !Abandons(m)
    decreases |s.flights|
  {
    moves := [];
    if s.flights != [] {
      FinishFirst(s, c);
      TwoSteps(s, c, Load(0), Close(0));
      var rest := FinishAll(Steps(s, c, [Load(0), Close(0)]), c);
      StepsSplit(s, c, [Load(0), Close(0)], rest);
      moves := [Load(0), Close(0)] + rest;
    }
  }

  /** Any number of starts, admitted together and then read and written in turn, are all counted and all commit. */
  lemma CountedYetOverLimit(c: Context, token: nat, resent: bool, n: nat) returns (moves: seq<Move>)
    requires c.policy.inviteTtl > 0
    ensures var s := Steps(Begin(c, token, resent), c, moves);
            s.flights == [] && s.row.starts == StartsSince(s.log) == n
    ensures forall m :: m in moves ==> !Abandons(m)
  {
    var queue := AdmitAll(c, token, resent, n);
    var rest := FinishAll(Steps(Begin(c, token, resent), c, queue), c);
    StepsSplit(Begin(c, token, resent), c, queue, rest);
    moves := queue + rest;
  }

  /** n wrong codes checked, none read. */
  ghost predicate GuessesChecked(s: Race, c: Context, token: nat, resent: bool, n: nat) {
    && s.row == Started1(c, token, resent).row && s.log == [Started(0, 0, 0)] && |s.flights| == n
    && (forall f :: f in s.flights ==> f.VerifyGated? && !f.right)
  }

  lemma CheckAnother(s: Race, c: Context, token: nat, resent: bool, n: nat)
    requires c.policy.inviteTtl > 0 && GuessesChecked(s, c, token, resent, n)
    ensures GuessesChecked(Step(s, c, Try(Guess(token, 0, 1, 0))), c, token, resent, n + 1)
  {
    var v := Guess(token, 0, 1, 0);
    assert Checks(s.row, c, v);
    assert Step(s, c, Try(v)).flights == s.flights + [VerifyGated(v, false, StartsSince(s.log))];
  }

  lemma {:induction false} CheckAll(c: Context, token: nat, resent: bool, n: nat) returns (moves: seq<Move>)
    requires c.policy.inviteTtl > 0
    ensures GuessesChecked(Steps(Started1(c, token, resent), c, moves), c, token, resent, n)
    ensures forall m :: m in moves ==> !Abandons(m)
  {
    moves := [];
    if n > 0 {
      var before := CheckAll(c, token, resent, n - 1);
      CheckAnother(Steps(Started1(c, token, resent), c, before), c, token, resent, n - 1);
      StepsPush(Started1(c, token, resent), c, before, Try(Guess(token, 0, 1, 0)));
      moves := before + [Try(Guess(token, 0, 1, 0))];
    }
  }

  lemma CountFirst(s: Race, c: Context)
    requires s.flights != [] && s.flights[0].VerifyGated? && !s.flights[0].right && s.row.wrong == WrongSince(s.log)
    ensures var t := Step(Step(s, c, Load(0)), c, Close(0));
            && t.flights == s.flights[1..] && t.row.wrong == WrongSince(t.log) == s.row.wrong + 1
  {
    var loaded := Step(s, c, Load(0));
    assert loaded.flights == [WrongLoaded(s.row.wrong, WrongSince(s.log))] + s.flights[1..];
    StepLogCounts(loaded, c, Close(0));
    assert Without(loaded.flights, 0) == s.flights[1..];
  }

  lemma {:induction false} CountAll(s: Race, c: Context) returns (moves: seq<Move>)
    requires (forall f :: f in s.flights ==> f.VerifyGated? && !f.right) && s.row.wrong == WrongSince(s.log)
    ensures var t := Steps(s, c, moves);
            t.flights == [] && t.row.wrong == WrongSince(t.log) == s.row.wrong + |s.flights|
    ensures forall m :: m in moves ==> !Abandons(m)
    decreases |s.flights|
  {
    moves := [];
    if s.flights != [] {
      CountFirst(s, c);
      TwoSteps(s, c, Load(0), Close(0));
      var rest := CountAll(Steps(s, c, [Load(0), Close(0)]), c);
      StepsSplit(s, c, [Load(0), Close(0)], rest);
      moves := [Load(0), Close(0)] + rest;
    }
  }

  /** Any number of wrong codes, checked together and then read and written in turn, are all counted, past the limit. */
  lemma GuessesCountedYetOverLimit(c: Context, token: nat, resent: bool, n: nat) returns (moves: seq<Move>)
    requires c.policy.inviteTtl > 0
    ensures var s := Steps(Begin(c, token, resent), c, moves);
            s.flights == [] && s.row.wrong == WrongSince(s.log) == n
    ensures forall m :: m in moves ==> !Abandons(m)
  {
    FirstStartRun(c, token, resent);
    var first := [Open(By(token, 0, 0)), Load(0), Close(0)];
    var queue := CheckAll(c, token, resent, n);
    var s := Steps(Started1(c, token, resent), c, queue);
    assert WrongSince(s.log) == 0;
    var rest := CountAll(s, c);
    StepsSplit(Started1(c, token, resent), c, queue, rest);
    StepsSplit(Begin(c, token, resent), c, first, queue + rest);
    moves := first + (queue + rest);
  }
}
