/**
 The two limits of an invite under overlapping calls: they hold when calls of a
 kind do not overlap; in a race that runs to its end every call is counted exactly
 when no two of a kind were read before either was written; and without that any
 number of calls can be counted as one.
 */
module InviteRaceCounts {
  import opened Sums
  import opened InviteAcceptance
  import opened InviteRace

  // ----- races that run to their end

  predicate SameKind(f: Flight, g: Flight) {
    (f.StartLoaded? && g.StartLoaded?) || (f.WrongLoaded? && g.WrongLoaded?)
  }

  /** A code that is counted under the row lock, in one step. */
  predicate CountsAtOnce(s: Race, c: Context, m: Move) {
    m.Try? && !Checks(s.row, c, m.verify) && Verify(s.row, c, m.verify).entry.Some?
  }

  /** A call read while another of its kind is read and unwritten, or a malformed code counted meanwhile. */
  predicate Crowds(s: Race, c: Context, m: Move) {
    || (m.Load? && m.i < |s.flights| && Gated(s.flights[m.i])
        && exists f :: f in s.flights && SameKind(f, Loaded(s, c, s.flights[m.i])))
    || (CountsAtOnce(s, c, m) && exists f :: f in s.flights && f.WrongLoaded?)
  }

  predicate UpToDate(f: Flight, log: seq<Entry>) {
    (f.StartLoaded? ==> f.after == StartsSince(log)) && (f.WrongLoaded? ==> f.after == WrongSince(log))
  }

  predicate NotAhead(f: Flight, log: seq<Entry>) {
    (f.StartLoaded? ==> f.after <= StartsSince(log)) && (f.WrongLoaded? ==> f.after <= WrongSince(log))
  }

  ghost predicate NoneAhead(s: Race) {
    forall f :: f in s.flights ==> NotAhead(f, s.log)
  }

  ghost predicate Uncrowded(s: Race) {
    && (forall f :: f in s.flights ==> UpToDate(f, s.log))
    && (forall i, j :: 0 <= i < j < |s.flights| ==> !SameKind(s.flights[i], s.flights[j]))
  }

  predicate Twins(s: Race, i: nat, j: nat) {
    i < j < |s.flights| && SameKind(s.flights[i], s.flights[j])
  }

  predicate Outdated(s: Race, i: nat) {
    i < |s.flights| && !UpToDate(s.flights[i], s.log)
  }

  /** Two of a kind are in the air, or one that is already out of date. */
  ghost predicate Crowded(s: Race) {
    (exists i, j :: Twins(s, i, j)) || (exists i :: Outdated(s, i))
  }

  /** Where a flight is once another has left. */
  function Shift(k: nat, i: nat): nat
    requires k != i
  {
    if k < i then k else k - 1
  }

  lemma WithoutKeeps(fs: seq<Flight>, i: nat, k: nat)
    requires i < |fs| && k < |fs| && k != i
    ensures Shift(k, i) < |Without(fs, i)| && Without(fs, i)[Shift(k, i)] == fs[k]
  {
  }

  lemma StepKeepsNoneAhead(s: Race, c: Context, m: Move)
    requires NoneAhead(s)
    ensures NoneAhead(Step(s, c, m))
  {
    StepLogCounts(s, c, m);
    forall f | f in Step(s, c, m).flights ensures NotAhead(f, Step(s, c, m).log) {
      StepFlight(s, c, m, f);
    }
  }

  lemma CloseKeepsUncrowded(s: Race, c: Context, i: nat)
    requires Uncrowded(s) && i < |s.flights| && !Gated(s.flights[i])
    ensures Uncrowded(Step(s, c, Close(i)))
  {
    var t := Step(s, c, Close(i));
    StepLogCounts(s, c, Close(i));
    assert forall k :: 0 <= k < |t.flights| ==> t.flights[k] == s.flights[if k < i then k else k + 1];
    forall k | 0 <= k < |t.flights| ensures UpToDate(t.flights[k], t.log) {
      var was := if k < i then k else k + 1;
      assert !SameKind(s.flights[i], s.flights[was]) && UpToDate(s.flights[was], s.log);
    }
  }

  lemma LoadKeepsUncrowded(s: Race, c: Context, i: nat)
    requires Uncrowded(s) && !Crowds(s, c, Load(i)) && i < |s.flights|
    ensures Uncrowded(Step(s, c, Load(i)))
  {
    var t := Step(s, c, Load(i));
    var f := Loaded(s, c, s.flights[i]);
    assert t.flights == s.flights[i := f];
    forall k | 0 <= k < |t.flights| ensures UpToDate(t.flights[k], t.log) && (k != i ==> !SameKind(t.flights[k], f)) {
      assert s.flights[k] in s.flights && UpToDate(s.flights[k], s.log);
      if k != i && !Gated(s.flights[i]) {
        assert if k < i then !SameKind(s.flights[k], s.flights[i]) else !SameKind(s.flights[i], s.flights[k]);
      }
    }
  }

  lemma TryKeepsUncrowded(s: Race, c: Context, v: VerifyRequest)
    requires Uncrowded(s) && !Crowds(s, c, Try(v))
    ensures Uncrowded(Step(s, c, Try(v)))
  {
    StepLogCounts(s, c, Try(v));
    if !Checks(s.row, c, v) {
      UncheckedVerify(s.row, c, v);
    }
  }

  lemma StepKeepsUncrowded(s: Race, c: Context, m: Move)
    requires Uncrowded(s) && !Crowds(s, c, m) && !m.Drop? && !m.Fail?
    ensures Uncrowded(Step(s, c, m)) && !Overwrites(s, m)
  {
    match m
    case Close(i) =>
      if i < |s.flights| {
        assert UpToDate(s.flights[i], s.log);
        if !Gated(s.flights[i]) {
          CloseKeepsUncrowded(s, c, i);
        }
      }
    case Load(i) =>
      if i < |s.flights| {
        LoadKeepsUncrowded(s, c, i);
      }
    case Try(v) => TryKeepsUncrowded(s, c, v);
    case Open(_) =>
  }

  lemma CrowdingShows(s: Race, c: Context, m: Move)
    requires Uncrowded(s) && Crowds(s, c, m)
    ensures Crowded(Step(s, c, m))
  {
    var t := Step(s, c, m);
    if m.Load? {
      var g := Loaded(s, c, s.flights[m.i]);
      var k: nat :| k < |s.flights| && SameKind(s.flights[k], g);
      assert k != m.i && t.flights[k] == s.flights[k] && t.flights[m.i] == g;
      assert if k < m.i then Twins(t, k, m.i) else Twins(t, m.i, k);
    } else {
      var k: nat :| k < |s.flights| && s.flights[k].WrongLoaded?;
      UncheckedVerify(s.row, c, m.verify);
      StepLogCounts(s, c, m);
      assert UpToDate(s.flights[k], s.log);
      assert Outdated(t, k);
    }
  }

  lemma OutdatedStays(s: Race, c: Context, i: nat, k: nat)
    requires NoneAhead(s) && i < |s.flights| && !Gated(s.flights[i]) && Outdated(s, k) && k != i
    ensures Crowded(Step(s, c, Close(i)))
  {
    var t := Step(s, c, Close(i));
    StepLogCounts(s, c, Close(i));
    WithoutKeeps(s.flights, i, k);
    assert NotAhead(s.flights[k], s.log);
    assert Outdated(t, Shift(k, i));
  }

  /** When one of two twins is written, the other is out of date. */
  lemma TwinLeft(s: Race, c: Context, i: nat, k: nat)
    requires NoneAhead(s) && i < |s.flights| && k < |s.flights| && k != i && SameKind(s.flights[i], s.flights[k])
    ensures Crowded(Step(s, c, Close(i)))
  {
    var t := Step(s, c, Close(i));
    StepLogCounts(s, c, Close(i));
    WithoutKeeps(s.flights, i, k);
    assert NotAhead(s.flights[k], s.log);
    assert Outdated(t, Shift(k, i));
  }

  lemma CrowdedClose(s: Race, c: Context, i: nat)
    requires Crowded(s) && NoneAhead(s) && !Overwrites(s, Close(i)) && i < |s.flights| && !Gated(s.flights[i])
    ensures Crowded(Step(s, c, Close(i)))
  {
    if k: nat :| Outdated(s, k) {
      OutdatedStays(s, c, i, k);
    } else {
      var a: nat, b: nat :| Twins(s, a, b);
      if a == i {
        TwinLeft(s, c, i, b);
      } else if b == i {
        TwinLeft(s, c, i, a);
      } else {
        WithoutKeeps(s.flights, i, a);
        WithoutKeeps(s.flights, i, b);
        assert Twins(Step(s, c, Close(i)), Shift(a, i), Shift(b, i));
      }
    }
  }

  lemma CrowdedStep(s: Race, c: Context, m: Move)
    requires Crowded(s) && NoneAhead(s) && !Overwrites(s, m) && !m.Drop? && !m.Fail?
    ensures Crowded(Step(s, c, m))
  {
    var t := Step(s, c, m);
    if m.Close? && m.i < |s.flights| && !Gated(s.flights[m.i]) {
      CrowdedClose(s, c, m.i);
    } else {
      StepLogCounts(s, c, m);
      if k: nat :| Outdated(s, k) {
        assert t.flights[k] == s.flights[k] && NotAhead(s.flights[k], s.log);
        assert Outdated(t, k);
      } else {
        var a: nat, b: nat :| Twins(s, a, b);
        assert t.flights[a] == s.flights[a] && t.flights[b] == s.flights[b];
        assert Twins(t, a, b);
      }
    }
  }

  ghost predicate NeverCrowds(s: Race, c: Context, moves: seq<Move>) {
    forall k :: 0 <= k < |moves| ==> !Crowds(Steps(s, c, moves[..k]), c, moves[k])
  }

  lemma NeverCrowdsPush(s: Race, c: Context, moves: seq<Move>, m: Move)
    ensures NeverCrowds(s, c, moves + [m]) <==> NeverCrowds(s, c, moves) && !Crowds(Steps(s, c, moves), c, m)
  {
    var all := moves + [m];
    assert all[..|moves|] == moves && all[|moves|] == m;
    assert forall k :: 0 <= k < |moves| ==> all[..k] == moves[..k] && all[k] == moves[k];
  }

  lemma {:induction false} CrowdingAlongRace(s: Race, c: Context, moves: seq<Move>)
    requires Uncrowded(s) && NoneAhead(s) && forall m :: m in moves ==> !m.Drop? && !m.Fail?
    ensures NoneAhead(Steps(s, c, moves))
    ensures NeverCrowds(s, c, moves) ==> Uncrowded(Steps(s, c, moves)) && NeverOverwrites(s, c, moves)
    ensures !NeverCrowds(s, c, moves) && NeverOverwrites(s, c, moves) ==> Crowded(Steps(s, c, moves))
  {
    if moves != [] {
      var before, m := moves[..|moves| - 1], moves[|moves| - 1];
      assert moves == before + [m];
      CrowdingAlongRace(s, c, before);
      NeverCrowdsPush(s, c, before, m);
      NeverOverwritesPush(s, c, before, m);
      var t := Steps(s, c, before);
      StepKeepsNoneAhead(t, c, m);
      if NeverCrowds(s, c, moves) {
        StepKeepsUncrowded(t, c, m);
      } else if NeverOverwrites(s, c, moves) {
        if NeverCrowds(s, c, before) {
          CrowdingShows(t, c, m);
        } else {
          CrowdedStep(t, c, m);
        }
      }
    }
  }

  /**
   In every race that runs to its end, with nothing left in flight and no call
   abandoned, all starts and wrong codes are counted if and only if no call was
   read while another of its kind was read and not yet written.
   */
  lemma FinishedRaceCountedIffNeverCrowded(c: Context, token: nat, resent: bool, moves: seq<Move>)
    requires var s := Steps(Begin(c, token, resent), c, moves); !s.row.used && s.flights == []
    requires forall m :: m in moves ==> !m.Drop? && !m.Fail?
    ensures var s := Steps(Begin(c, token, resent), c, moves);
            s.row.starts == StartsSince(s.log) && s.row.wrong == WrongSince(s.log)
            <==> NeverCrowds(Begin(c, token, resent), c, moves)
  {
    CountedIffNotOverwritten(c, token, resent, moves);
    CrowdingAlongRace(Begin(c, token, resent), c, moves);
  }

  // ----- calls that do not overlap

  /** A call admitted, or a code counted, while another call of its family is in flight. */
  predicate Overlaps(s: Race, c: Context, m: Move) {
    || (m.Open? && m.request.secret !in s.drawn && OpenStart(s.row, c, m.request).Admit?
        && exists f :: f in s.flights && Starting(f))
    || (m.Try? && (Checks(s.row, c, m.verify) || CountsAtOnce(s, c, m)) && exists f :: f in s.flights && !Starting(f))
  }

  /** A call in flight is up to date, was admitted below its limit, and created a user only before any commit. */
  predicate InOrder(f: Flight, log: seq<Entry>) {
    && UpToDate(f, log)
    && (if Starting(f) then StartsSince(log) < MAX_STARTS else StartsSince(log) > 0 && WrongSince(log) < MAX_WRONG)
    && (Starting(f) && f.created ==> StartsSince(log) == 0 && WrongSince(log) == 0)
  }

  /** Of each family at most one call is in flight, and it is in order. */
  ghost predicate Orderly(s: Race) {
    && StartsSince(s.log) <= MAX_STARTS && WrongSince(s.log) <= MAX_WRONG
    && (s.row.verifyLocked <==> WrongSince(s.log) == MAX_WRONG)
    && (forall f :: f in s.flights ==> InOrder(f, s.log))
    && (s.row.user.None? ==> StartsSince(s.log) == 0 && WrongSince(s.log) == 0)
    && (s.row.session.Some? ==> StartsSince(s.log) > 0)
    && (s.flights != [] ==> s.row.user.Some?)
    && (forall i, j :: 0 <= i < j < |s.flights| ==> (Starting(s.flights[i]) <==> !Starting(s.flights[j])))
  }

  lemma OpenKeepsOrder(s: Race, c: Context, q: StartRequest)
    requires StartsExact(s) && Orderly(s) && !Overlaps(s, c, Open(q))
    ensures Orderly(Step(s, c, Open(q)))
  {
    GateKeepsLock(s.row, c, q);
  }

  lemma GateKeepsLock(r: Row, c: Context, q: StartRequest)
    ensures OpenStart(r, c, q).row.verifyLocked == r.verifyLocked
    ensures OpenStart(r, c, q).Admit? ==> r.starts < MAX_STARTS
  {
  }

  lemma TryKeepsOrder(s: Race, c: Context, v: VerifyRequest)
    requires WrongExact(s) && Orderly(s) && !Overlaps(s, c, Try(v)) && !s.row.used
    ensures Orderly(Step(s, c, Try(v)))
  {
    StepLogCounts(s, c, Try(v));
    if !Checks(s.row, c, v) {
      UncheckedVerify(s.row, c, v);
    }
  }

  /** Writing a call leaves the call of the other family in order. */
  lemma OtherStaysInOrder(s: Race, c: Context, i: nat, f: Flight)
    requires i < |s.flights| && !Gated(s.flights[i]) && !s.flights[i].Accepting?
    requires InOrder(f, s.log) && InOrder(s.flights[i], s.log) && (Starting(f) <==> !Starting(s.flights[i]))
    ensures InOrder(f, Step(s, c, Close(i)).log)
  {
    StepLogCounts(s, c, Close(i));
  }

  lemma CloseKeepsRowOrder(s: Race, c: Context, i: nat)
    requires StartsExact(s) && WrongExact(s) && Orderly(s) && i < |s.flights| && !Gated(s.flights[i])
             && !s.flights[i].Accepting?
    ensures var t := Step(s, c, Close(i));
            && StartsSince(t.log) <= MAX_STARTS && WrongSince(t.log) <= MAX_WRONG
            && (t.row.verifyLocked <==> WrongSince(t.log) == MAX_WRONG)
            && (t.row.user.None? ==> StartsSince(t.log) == 0 && WrongSince(t.log) == 0)
            && (t.row.session.Some? ==> StartsSince(t.log) > 0)
            && t.row.user.Some?
  {
    assert InOrder(s.flights[i], s.log);
    StepLogCounts(s, c, Close(i));
  }

  lemma CloseKeepsOrder(s: Race, c: Context, i: nat)
    requires StartsExact(s) && WrongExact(s) && Orderly(s) && i < |s.flights| && !Gated(s.flights[i])
             && !s.flights[i].Accepting?
    ensures Orderly(Step(s, c, Close(i)))
  {
    var t := Step(s, c, Close(i));
    CloseKeepsRowOrder(s, c, i);
    assert t.flights == Without(s.flights, i);
    assert forall k :: 0 <= k < |t.flights| ==> t.flights[k] == s.flights[if k < i then k else k + 1];
    forall k | 0 <= k < |t.flights| ensures InOrder(t.flights[k], t.log) {
      var was := if k < i then k else k + 1;
      assert t.flights[k] == s.flights[was] && InOrder(s.flights[was], s.log) && InOrder(s.flights[i], s.log);
      OtherStaysInOrder(s, c, i, s.flights[was]);
    }
  }

  lemma StepKeepsOrder(s: Race, c: Context, m: Move)
    requires StartsExact(s) && WrongExact(s) && Orderly(s) && !Overlaps(s, c, m) && !Step(s, c, m).row.used
    ensures Orderly(Step(s, c, m)) && !Overwrites(s, m)
  {
    UsedForGood(s, c, m);
    match m
    case Open(q) => OpenKeepsOrder(s, c, q);
    case Try(v) => TryKeepsOrder(s, c, v);
    case Close(i) =>
      if i < |s.flights| {
        assert InOrder(s.flights[i], s.log);
        if !Gated(s.flights[i]) {
          CloseOutcome(s, c, i);
        }
      }
    case Load(i) => LoadKeepsOrder(s, c, i);
    case Drop(i) => DropKeepsOrder(s, c, i);
    case Fail(i) =>
      if CleansUp(s, m) {
        assert InOrder(s.flights[i], s.log);
      }
  }

  lemma CloseOutcome(s: Race, c: Context, i: nat)
    requires StartsExact(s) && WrongExact(s) && Orderly(s) && i < |s.flights| && !Gated(s.flights[i])
    requires !Step(s, c, Close(i)).row.used
    ensures Orderly(Step(s, c, Close(i)))
  {
    if s.flights[i].Accepting? {
      DropKeepsOrder(s, c, i);
    } else {
      CloseKeepsOrder(s, c, i);
    }
  }

  lemma LoadKeepsOrder(s: Race, c: Context, i: nat)
    requires Orderly(s)
    ensures Orderly(Step(s, c, Load(i)))
  {
    var t := Step(s, c, Load(i));
    if i < |s.flights| {
      var f := Loaded(s, c, s.flights[i]);
      assert t.flights == s.flights[i := f] && InOrder(s.flights[i], s.log);
      assert Starting(f) <==> Starting(s.flights[i]);
    }
  }

  lemma DropKeepsOrder(s: Race, c: Context, i: nat)
    requires Orderly(s)
    ensures Orderly(Step(s, c, Drop(i)))
  {
    var t := Step(s, c, Drop(i));
    if i < |s.flights| {
      assert forall k :: 0 <= k < |t.flights| ==> t.flights[k] == s.flights[if k < i then k else k + 1];
    }
  }

  ghost predicate NeverOverlaps(s: Race, c: Context, moves: seq<Move>) {
    forall k :: 0 <= k < |moves| ==> !Overlaps(Steps(s, c, moves[..k]), c, moves[k])
  }

  lemma {:induction false} OrderAlongRace(s: Race, c: Context, moves: seq<Move>)
    requires StartsExact(s) && WrongExact(s) && Orderly(s) && NeverOverlaps(s, c, moves) && !Steps(s, c, moves).row.used
    ensures var t := Steps(s, c, moves); StartsExact(t) && WrongExact(t) && Orderly(t)
  {
    if moves != [] {
      var before, m := moves[..|moves| - 1], moves[|moves| - 1];
      var t := Steps(s, c, before);
      assert forall k :: 0 <= k < |before| ==> before[..k] == moves[..k] && before[k] == moves[k];
      assert !Overlaps(Steps(s, c, moves[..|before|]), c, moves[|before|]);
      UsedForGood(t, c, m);
      OrderAlongRace(s, c, before);
      StepKeepsOrder(t, c, m);
      StepKeepsStarts(t, c, m, Step(t, c, m));
      StepKeepsWrong(t, c, m, Step(t, c, m));
    }
  }

  /** Without overlap every start and every wrong code is counted, and both limits hold. */
  lemma LimitsHoldWithoutOverlap(c: Context, token: nat, resent: bool, moves: seq<Move>)
    requires NeverOverlaps(Begin(c, token, resent), c, moves) && !Steps(Begin(c, token, resent), c, moves).row.used
    ensures var s := Steps(Begin(c, token, resent), c, moves);
            s.row.starts == StartsSince(s.log) <= MAX_STARTS && s.row.wrong == WrongSince(s.log) <= MAX_WRONG
  {
    OrderAlongRace(Begin(c, token, resent), c, moves);
  }
}
