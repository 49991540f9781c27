/**
 What overlapping calls do to an invite's session, to the codes an activation
 rests on, and to its locks: for each, the exact overlap that breaks it.
 */
module InviteRaceSafety {
  import opened Sums
  import opened InviteAcceptance
  import opened InviteRace

  // ----- the session

  /** A start admitted before any session was bound, written after another session's start. */
  predicate Rebinds(s: Race, m: Move) {
    && m.Close? && m.i < |s.flights| && s.flights[m.i].StartLoaded? && !s.flights[m.i].bound
    && FirstStart(s.log).Some? && s.flights[m.i].request.session != FirstStart(s.log).value.session
  }

  predicate FromSession(e: Entry, session: nat) {
    (e.Started? || e.Activated?) ==> e.session == session
  }

  /** Every start and every activation comes from the session of the first start. */
  ghost predicate OneSession(log: seq<Entry>) {
    forall e :: e in log && (e.Started? || e.Activated?) ==>
      FirstStart(log).Some? && FromSession(e, FirstStart(log).value.session)
  }

  predicate FlightBound(f: Flight, first: Option<Entry>)
    requires first.Some? ==> first.value.Started?
  {
    match f
    case StartGated(q, bound, _) => bound ==> first.Some? && q.session == first.value.session
    case StartLoaded(q, bound, _, _, _) => bound ==> first.Some? && q.session == first.value.session
    case VerifyGated(v, _, _) => first.Some? && v.session == Some(first.value.session)
    case Accepting(v, _) => first.Some? && v.session == Some(first.value.session)
    case WrongLoaded(_, _) => first.Some?
  }

  ghost predicate Bound(s: Race, c: Context) {
    && (s.row.session.Some? ==>
          FirstStart(s.log).Some? && s.row.session.value == SessionHash(c, FirstStart(s.log).value.session))
    && (forall f :: f in s.flights ==> FlightBound(f, FirstStart(s.log)))
    && OneSession(s.log)
  }

  lemma FirstStays(log: seq<Entry>, e: Entry)
    requires !e.ResetByRoot?
    ensures FirstStart(log).Some? ==> FirstStart(log + [e]) == FirstStart(log)
    ensures FirstStart(log).None? ==> FirstStart(log + [e]) == if e.Started? then Some(e) else None
  {
    Appended(log, e);
  }

  lemma StillBound(f: Flight, log: seq<Entry>, e: Entry)
    requires FlightBound(f, FirstStart(log)) && !e.ResetByRoot?
    ensures FlightBound(f, FirstStart(log + [e]))
  {
    FirstStays(log, e);
  }

  lemma LogStaysOneSession(log: seq<Entry>, e: Entry)
    requires OneSession(log) && !e.ResetByRoot?
    requires if FirstStart(log).Some? then FromSession(e, FirstStart(log).value.session) else !e.Activated?
    ensures OneSession(log + [e])
  {
    FirstStays(log, e);
  }

  lemma OpenKeepsBound(s: Race, c: Context, q: StartRequest)
    requires Bound(s, c)
    ensures Bound(Step(s, c, Open(q)), c)
  {
    GateKeepsCounts(s.row, c, q);
  }

  lemma TryKeepsBound(s: Race, c: Context, v: VerifyRequest)
    requires Bound(s, c)
    ensures Bound(Step(s, c, Try(v)), c)
  {
    var t := Step(s, c, Try(v));
    if !Checks(s.row, c, v) {
      UncheckedVerify(s.row, c, v);
      if t.log != s.log {
        assert s.row.session.Some?;
        LogStaysOneSession(s.log, WrongCode);
        forall f | f in t.flights ensures FlightBound(f, FirstStart(t.log)) {
          StillBound(f, s.log, WrongCode);
        }
        FirstStays(s.log, WrongCode);
      }
    }
  }

  lemma CloseKeepsBound(s: Race, c: Context, i: nat)
    requires Bound(s, c) && !Rebinds(s, Close(i)) && i < |s.flights| && !Gated(s.flights[i])
    ensures Bound(Step(s, c, Close(i)), c)
  {
    var f, t := s.flights[i], Step(s, c, Close(i));
    assert FlightBound(f, FirstStart(s.log));
    var o := Written(s, c, f);
    if o.entry.Some? {
      var e := o.entry.value;
      FirstStays(s.log, e);
      LogStaysOneSession(s.log, e);
      forall g | g in t.flights ensures FlightBound(g, FirstStart(t.log)) {
        assert g in s.flights;
        StillBound(g, s.log, e);
      }
    }
  }

  lemma StepKeepsBound(s: Race, c: Context, m: Move)
    requires Bound(s, c) && !Rebinds(s, m)
    ensures Bound(Step(s, c, m), c)
  {
    match m
    case Open(q) => OpenKeepsBound(s, c, q);
    case Try(v) => TryKeepsBound(s, c, v);
    case Close(i) =>
      if i < |s.flights| && !Gated(s.flights[i]) {
        CloseKeepsBound(s, c, i);
      }
    case Load(i) =>
      forall f | f in Step(s, c, m).flights ensures FlightBound(f, FirstStart(s.log)) {
        if f !in s.flights {
          assert FlightBound(s.flights[i], FirstStart(s.log));
        }
      }
    case Drop(i) =>
    case Fail(i) =>
  }

  /** A start or an activation from another session than the first start's. */
  ghost predicate Split(log: seq<Entry>) {
    FirstStart(log).Some? && exists e :: e in log && !FromSession(e, FirstStart(log).value.session)
  }

  /** A rebinding start leaves its own session in the log, next to the first one's. */
  lemma RebindingShows(s: Race, c: Context, m: Move)
    requires Rebinds(s, m)
    ensures Split(Step(s, c, m).log)
  {
    var q := s.flights[m.i].request;
    var e := Started(q.session, q.secret, q.code);
    FirstStays(s.log, e);
    assert Step(s, c, m).log == s.log + [e] && e in s.log + [e];
  }

  lemma SplitStays(s: Race, c: Context, m: Move)
    requires Split(s.log)
    ensures Split(Step(s, c, m).log)
  {
    var t := Step(s, c, m);
    StepLog(s, c, m);
    if t.log != s.log {
      var x :| x in s.log && !FromSession(x, FirstStart(s.log).value.session);
      FirstStays(s.log, t.log[|s.log|]);
      assert x in t.log;
    }
  }

  ghost predicate NeverRebinds(s: Race, c: Context, moves: seq<Move>) {
    forall k :: 0 <= k < |moves| ==> !Rebinds(Steps(s, c, moves[..k]), moves[k])
  }

  lemma NeverRebindsPush(s: Race, c: Context, moves: seq<Move>, m: Move)
    ensures NeverRebinds(s, c, moves + [m]) <==> NeverRebinds(s, c, moves) && !Rebinds(Steps(s, c, moves), m)
  {
    var all := moves + [m];
    assert all[..|moves|] == moves && all[|moves|] == m;
    assert forall k :: 0 <= k < |moves| ==> all[..k] == moves[..k] && all[k] == moves[k];
  }

  lemma {:induction false} SessionAlongRace(s: Race, c: Context, moves: seq<Move>)
    requires Bound(s, c)
    ensures var t := Steps(s, c, moves); if NeverRebinds(s, c, moves) then Bound(t, c) else Split(t.log)
  {
    if moves != [] {
      var before, m := moves[..|moves| - 1], moves[|moves| - 1];
      assert moves == before + [m];
      SessionAlongRace(s, c, before);
      NeverRebindsPush(s, c, before, m);
      var t := Steps(s, c, before);
      if Split(t.log) {
        SplitStays(t, c, m);
      }
      if Rebinds(t, m) {
        RebindingShows(t, c, m);
      } else if Bound(t, c) {
        StepKeepsBound(t, c, m);
      }
    }
  }

  /**
   In every race all starts and activations come from the session of the first
   committed start if and only if no start from another session, admitted before
   that first commit, was written after it.
   */
  lemma OneSessionIffNeverRebound(c: Context, token: nat, resent: bool, moves: seq<Move>)
    ensures OneSession(Steps(Begin(c, token, resent), c, moves).log)
            <==> NeverRebinds(Begin(c, token, resent), c, moves)
  {
    SessionAlongRace(Begin(c, token, resent), c, moves);
  }

  // ----- what an activation rests on

  function Secrets(log: seq<Entry>): set<nat> {
    set e | e in log && e.Started? :: e.secret
  }

  /** Secrets in flight were drawn, are not committed yet, and are all different. */
  ghost predicate Drawn(s: Race) {
    && Secrets(s.log) <= s.drawn
    && (forall i :: 0 <= i < |s.flights| && Starting(s.flights[i]) ==>
          s.flights[i].request.secret in s.drawn && s.flights[i].request.secret !in Secrets(s.log))
    && (forall i, j :: 0 <= i < j < |s.flights| && Starting(s.flights[i]) && Starting(s.flights[j]) ==>
          s.flights[i].request.secret != s.flights[j].request.secret)
  }

  /** A right TOTP was right for a committed start: the latest one exactly if none has committed since. */
  predicate Rests(f: Flight, log: seq<Entry>) {
    match f
    case VerifyGated(v, right, since) => right ==> RestsOn(v, since, log)
    case Accepting(v, since) =>
      RestsOn(v, since, log) && (since == StartsSince(log) ==> v.code == LatestStart(log).value.code)
    case _ => true
  }

  predicate RestsOn(v: VerifyRequest, since: nat, log: seq<Entry>) {
    && v.totp.From? && v.totp.secret in Secrets(log) && since <= StartsSince(log) && LatestStart(log).Some?
    && (since == StartsSince(log) <==> v.totp.secret == LatestStart(log).value.secret)
  }

  /** The row holds the secret and the code of the latest start. */
  predicate HoldsLatest(r: Row, log: seq<Entry>) {
    && (r.user.Some? && r.user.value.setup.Some? ==>
          LatestStart(log).Some? && r.user.value.setup.value.secret == LatestStart(log).value.secret)
    && (r.code.Some? ==>
          LatestStart(log).Some?
            && r.code.value.digest.message == CodeMessage(r.tokenHash, LatestStart(log).value.code))
    && (LatestStart(log).Some? ==> LatestStart(log).value.secret in Secrets(log))
  }

  ghost predicate Latest(s: Race) {
    HoldsLatest(s.row, s.log) && forall f :: f in s.flights ==> Rests(f, s.log)
  }

  lemma SecretsPush(log: seq<Entry>, e: Entry)
    ensures Secrets(log + [e]) == if e.Started? then Secrets(log) + {e.secret} else Secrets(log)
  {
  }

  lemma CloseKeepsDrawn(s: Race, c: Context, i: nat)
    requires Drawn(s) && i < |s.flights| && !Gated(s.flights[i])
    ensures Drawn(Step(s, c, Close(i)))
  {
    var t := Step(s, c, Close(i));
    var o := Written(s, c, s.flights[i]);
    if o.entry.Some? {
      SecretsPush(s.log, o.entry.value);
    }
    assert forall k :: 0 <= k < |t.flights| ==> t.flights[k] == s.flights[if k < i then k else k + 1];
  }

  lemma StepKeepsDrawn(s: Race, c: Context, m: Move)
    requires Drawn(s)
    ensures Drawn(Step(s, c, m))
  {
    match m
    case Close(i) =>
      if i < |s.flights| && !Gated(s.flights[i]) {
        CloseKeepsDrawn(s, c, i);
      }
    case Drop(i) => DropKeepsDrawn(s, c, i);
    case Try(v) => TryKeepsDrawn(s, c, v);
    case Open(q) => OpenKeepsDrawn(s, c, q);
    case Load(_) =>
    case Fail(i) => FailKeepsDrawn(s, c, i);
  }

  lemma FailKeepsDrawn(s: Race, c: Context, i: nat)
    requires Drawn(s)
    ensures Drawn(Step(s, c, Fail(i)))
  {
    if CleansUp(s, Fail(i)) && s.row.used {
      var t := Step(s, c, Fail(i));
      assert forall k :: 0 <= k < |t.flights| ==> t.flights[k] == s.flights[if k < i then k else k + 1];
    }
  }

  lemma DropKeepsDrawn(s: Race, c: Context, i: nat)
    requires Drawn(s)
    ensures Drawn(Step(s, c, Drop(i)))
  {
    var t := Step(s, c, Drop(i));
    assert i < |s.flights| ==> forall k :: 0 <= k < |t.flights| ==>
                                 t.flights[k] == s.flights[if k < i then k else k + 1];
  }

  lemma OpenKeepsDrawn(s: Race, c: Context, q: StartRequest)
    requires Drawn(s)
    ensures Drawn(Step(s, c, Open(q)))
  {
  }

  lemma TryKeepsDrawn(s: Race, c: Context, v: VerifyRequest)
    requires Drawn(s)
    ensures Drawn(Step(s, c, Try(v)))
  {
    if !Checks(s.row, c, v) {
      UncheckedVerify(s.row, c, v);
      SecretsPush(s.log, WrongCode);
    }
  }

  lemma RestsAfter(f: Flight, log: seq<Entry>, e: Entry)
    requires Rests(f, log) && !e.ResetByRoot? && (e.Started? ==> e.secret !in Secrets(log))
    ensures Rests(f, log + [e])
  {
    Appended(log, e);
    SecretsPush(log, e);
  }

  lemma WriteKeepsRow(s: Race, c: Context, f: Flight)
    requires HoldsLatest(s.row, s.log)
    ensures var t := Logged(s, Written(s, c, f)); HoldsLatest(t.row, t.log)
  {
    var o := Written(s, c, f);
    if o.entry.Some? {
      Appended(s.log, o.entry.value);
      SecretsPush(s.log, o.entry.value);
    }
  }

  lemma WriteKeepsFlight(s: Race, c: Context, i: nat, f: Flight)
    requires Drawn(s) && i < |s.flights| && Rests(f, s.log)
    ensures Rests(f, Logged(s, Written(s, c, s.flights[i])).log)
  {
    var o := Written(s, c, s.flights[i]);
    if o.entry.Some? {
      RestsAfter(f, s.log, o.entry.value);
    }
  }

  lemma WriteKeepsLatest(s: Race, c: Context, i: nat)
    requires Drawn(s) && Latest(s) && i < |s.flights| && !Gated(s.flights[i])
    ensures Latest(Step(s, c, Close(i)))
  {
    var t := Step(s, c, Close(i));
    WriteKeepsRow(s, c, s.flights[i]);
    forall f | f in t.flights ensures Rests(f, t.log) {
      assert f in s.flights;
      WriteKeepsFlight(s, c, i, f);
    }
  }

  lemma LoadKeepsLatest(s: Race, c: Context, i: nat)
    requires Latest(s) && i < |s.flights|
    ensures Latest(Step(s, c, Load(i)))
  {
    var t := Step(s, c, Load(i));
    forall f | f in t.flights ensures Rests(f, t.log) {
      if f !in s.flights {
        assert Rests(s.flights[i], s.log);
      }
    }
  }

  lemma TryKeepsLatest(s: Race, c: Context, v: VerifyRequest)
    requires Latest(s)
    ensures Latest(Step(s, c, Try(v)))
  {
    var t := Step(s, c, Try(v));
    if !Checks(s.row, c, v) {
      UncheckedVerify(s.row, c, v);
      if t.log != s.log {
        Appended(s.log, WrongCode);
        SecretsPush(s.log, WrongCode);
        forall f | f in t.flights ensures Rests(f, t.log) {
          RestsAfter(f, s.log, WrongCode);
        }
      }
    }
  }

  lemma StepKeepsLatest(s: Race, c: Context, m: Move)
    requires Drawn(s) && Latest(s)
    ensures Latest(Step(s, c, m))
  {
    match m
    case Close(i) =>
      if i < |s.flights| && !Gated(s.flights[i]) {
        WriteKeepsLatest(s, c, i);
      }
    case Load(i) =>
      if i < |s.flights| {
        LoadKeepsLatest(s, c, i);
      }
    case Try(v) => TryKeepsLatest(s, c, v);
    case _ =>
  }

  lemma {:induction false} LatestAlongRace(c: Context, token: nat, resent: bool, moves: seq<Move>)
    ensures var s := Steps(Begin(c, token, resent), c, moves); Drawn(s) && Latest(s)
  {
    if moves != [] {
      LatestAlongRace(c, token, resent, moves[..|moves| - 1]);
      var s := Steps(Begin(c, token, resent), c, moves[..|moves| - 1]);
      StepKeepsDrawn(s, c, moves[|moves| - 1]);
      StepKeepsLatest(s, c, moves[|moves| - 1]);
    }
  }

  /**
   In every race an activation is written with the secret and the code of the
   latest start if and only if no start has committed since its TOTP was checked.
   */
  lemma ActivationIsLatestIffNoStartSince(c: Context, token: nat, resent: bool, moves: seq<Move>, i: nat)
    requires var s := Steps(Begin(c, token, resent), c, moves); i < |s.flights| && s.flights[i].Accepting?
    ensures var s := Steps(Begin(c, token, resent), c, moves);
            var f := s.flights[i];
            && f.verify.totp.From? && LatestStart(s.log).Some?
            && (f.verify.totp.secret == LatestStart(s.log).value.secret
                && f.verify.code == LatestStart(s.log).value.code
                <==> f.since == StartsSince(s.log))
  {
    LatestAlongRace(c, token, resent, moves);
    var s := Steps(Begin(c, token, resent), c, moves);
    assert Rests(s.flights[i], s.log);
  }

  // ----- locked or accepted

  predicate Shut(r: Row) { Locked(r) || r.used }

  lemma ShutStep(s: Race, c: Context, m: Move)
    requires Shut(s.row) && s.flights == []
    ensures var t := Step(s, c, m); Shut(t.row) && t.flights == [] && t.log == s.log
  {
  }

  lemma {:induction false} ShutForGood(s: Race, c: Context, moves: seq<Move>)
    requires Shut(s.row) && s.flights == []
    ensures var t := Steps(s, c, moves); Shut(t.row) && t.flights == [] && t.log == s.log
  {
    if moves != [] {
      ShutForGood(s, c, moves[..|moves| - 1]);
      ShutStep(Steps(s, c, moves[..|moves| - 1]), c, moves[|moves| - 1]);
    }
  }

  predicate CanWrite(f: Flight) {
    f.VerifyGated? || f.Accepting? ==> f.verify.session.Some? && f.verify.totp.From?
  }

  lemma LoadedFlightWrites(s: Race, c: Context)
    requires s.flights != [] && CanWrite(s.flights[0])
    ensures |Step(Step(s, c, Load(0)), c, Close(0)).log| == |s.log| + 1
  {
    var f := Loaded(s, c, s.flights[0]);
    var loaded := Step(s, c, Load(0));
    assert loaded.flights[0] == f && !Gated(f) && CanWrite(f);
    assert Written(loaded, c, f).entry.Some?;
  }

  lemma FlightStillWrites(s: Race, c: Context) returns (moves: seq<Move>)
    requires s.flights != [] && CanWrite(s.flights[0])
    ensures Steps(s, c, moves).log != s.log
  {
    assert [] + [Load(0)] == [Load(0)];
    StepsPush(s, c, [], Load(0));
    StepsPush(s, c, [Load(0)], Close(0));
    moves := [Load(0)] + [Close(0)];
    LoadedFlightWrites(s, c);
  }

  /**
   In every race, once the invite is locked or accepted, nothing is committed in any
   continuation if and only if no call is in flight past its gate.
   */
  lemma ShutIffNothingInFlight(c: Context, token: nat, resent: bool, moves: seq<Move>)
    requires Shut(Steps(Begin(c, token, resent), c, moves).row)
    ensures var s := Steps(Begin(c, token, resent), c, moves);
            (forall more :: Steps(s, c, more).log == s.log) <==> s.flights == []
  {
    var s := Steps(Begin(c, token, resent), c, moves);
    if s.flights == [] {
      forall more ensures Steps(s, c, more).log == s.log {
        ShutForGood(s, c, more);
      }
    } else {
      VerifiesCanWrite(c, token, resent, moves);
      assert CanWrite(s.flights[0]);
      var more := FlightStillWrites(s, c);
      assert Steps(s, c, more).log != s.log;
    }
  }

  lemma {:induction false} VerifiesCanWrite(c: Context, token: nat, resent: bool, moves: seq<Move>)
    ensures forall f :: f in Steps(Begin(c, token, resent), c, moves).flights ==> CanWrite(f)
  {
    if moves != [] {
      var s, m := Steps(Begin(c, token, resent), c, moves[..|moves| - 1]), moves[|moves| - 1];
      VerifiesCanWrite(c, token, resent, moves[..|moves| - 1]);
      forall f | f in Step(s, c, m).flights ensures CanWrite(f) {
        if f !in s.flights && m.Load? {
          assert CanWrite(s.flights[m.i]);
        }
      }
    }
  }
}
