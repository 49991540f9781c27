/**
 Calls on one invite that overlap. A start commits inside encryption and a verify
 commits when its TOTP result is recorded; both lose the row lock there, then read
 the row again and write it at the end. Checks made before that commit are not
 repeated. Here each call is its gate, its read and its write, in any order with
 the others; time and key stand still and no TOTP secret is drawn twice.
 */
module InviteRace {
  import opened Sums
  import opened InviteAcceptance

  /**
   `bound`: a session was bound when the start was admitted; `created`: it created the setup user;
   `after`, `since`: how many starts or wrong codes had been committed at that point.
   */
  datatype Flight =
    | StartGated(request: StartRequest, bound: bool, created: bool)
    | StartLoaded(request: StartRequest, bound: bool, created: bool, starts: nat, after: nat)
    | VerifyGated(verify: VerifyRequest, right: bool, since: nat)
    | WrongLoaded(wrong: nat, after: nat)
    | Accepting(verify: VerifyRequest, since: nat)

  datatype Race = Race(row: Row, flights: seq<Flight>, log: seq<Entry>, drawn: set<nat>)

  datatype Move =
    | Open(request: StartRequest)
    | Try(verify: VerifyRequest)
    | Load(i: nat)
    | Close(i: nat)
    | Drop(i: nat)
    | Fail(i: nat)

  /** A verify whose TOTP is checked, with the commit that follows it. */
  predicate Checks(r: Row, c: Context, v: VerifyRequest) {
    Admitted(r, c, v) && SetupActive(r.user.value, c) && v.totp.From?
  }

  function CloseWrong(r: Row, wrong: nat): Row {
    r.(wrong := wrong + 1, verifyLocked := r.verifyLocked || wrong + 1 >= MAX_WRONG)
  }

  function Accept(r: Row): Row {
    Cleared(r).(user := if r.user.Some? then Some(r.user.value.(active := true))
                else None, status := Accepted, used := true)
  }

  function Without(fs: seq<Flight>, i: nat): seq<Flight>
    requires i < |fs|
  {
    fs[..i] + fs[i + 1..]
  }

  /** The second read of a call, after its lock is gone. */
  function Loaded(s: Race, c: Context, f: Flight): Flight {
    match f
    case StartGated(q, bound, created) => StartLoaded(q, bound, created, s.row.starts, StartsSince(s.log))
    case VerifyGated(v, right, since) =>
      if right && CodeMatches(s.row, c, v.code) then Accepting(v, since)
        else WrongLoaded(s.row.wrong, WrongSince(s.log))
    case _ => f
  }

  function Written(s: Race, c: Context, f: Flight): Outcome {
    match f
    case StartLoaded(q, _, _, starts, _) =>
      Outcome(CloseStart(s.row, c, q, starts), Some(Started(q.session, q.secret, q.code)))
    case WrongLoaded(wrong, _) => Outcome(CloseWrong(s.row, wrong), Some(WrongCode))
    case Accepting(v, _) =>
      if v.session.Some? && v.totp.From?
      then Outcome(Accept(s.row), Some(Activated(v.session.value, v.totp.secret, v.code))) else Outcome(s.row, None)
    case _ => Outcome(s.row, None)
  }

  predicate Starting(f: Flight) { f.StartGated? || f.StartLoaded? }

  /**
   A start that created the setup user fails, deletes that user and clears the invite; every other
   call in flight holds the deleted user and fails with it. The user of an accepted invite is active
   and is not deleted. Any other failure is a `Drop`.
   */
  predicate CleansUp(s: Race, m: Move) {
    m.Fail? && m.i < |s.flights| && Starting(s.flights[m.i]) && s.flights[m.i].created
  }

  predicate Gated(f: Flight) { f.StartGated? || f.VerifyGated? }

  function Logged(s: Race, o: Outcome): Race {
    s.(row := o.row, log := if o.entry.Some? then s.log + [o.entry.value] else s.log)
  }

  function Step(s: Race, c: Context, m: Move): Race {
    match m
    case Open(q) =>
      if q.secret in s.drawn then s
      else
        var gate := OpenStart(s.row, c, q);
        if gate.Refuse? then s.(row := gate.row)
        else s.(row := gate.row, flights := s.flights + [StartGated(q, s.row.session.Some?, gate.created)],
          drawn := s.drawn + {q.secret})
    case Try(v) =>
      if Checks(s.row, c, v) then
        s.(flights := s.flights
           + [VerifyGated(v, v.totp.secret == s.row.user.value.setup.value.secret, StartsSince(s.log))])
      else Logged(s, Verify(s.row, c, v))
    case Load(i) => if i < |s.flights| then s.(flights := s.flights[i := Loaded(s, c, s.flights[i])]) else s
    case Close(i) =>
      if i < |s.flights| && !Gated(s.flights[i])
      then Logged(s, Written(s, c, s.flights[i])).(flights := Without(s.flights, i)) else s
    case Drop(i) => if i < |s.flights| then s.(flights := Without(s.flights, i)) else s
    case Fail(i) =>
      if !CleansUp(s, m) then s
      else
        s.(row := Cleared(s.row.(user := None, status := Pending)),
           flights := if s.row.used then Without(s.flights, i) else [])
  }

  function Steps(s: Race, c: Context, moves: seq<Move>): Race {
    if moves == [] then s else Step(Steps(s, c, moves[..|moves| - 1]), c, moves[|moves| - 1])
  }

  function Alone(row: Row): Race { Race(row, [], [], {}) }

  function Begin(c: Context, token: nat, resent: bool): Race { Alone(Issued(c, token, resent).row) }

  /** A start that nothing overlaps is the service call as a whole. */
  lemma UndividedStart(s: Race, c: Context, q: StartRequest)
    requires s.flights == [] && q.ending.Mailed? && q.secret !in s.drawn
    ensures var t := Step(Step(Step(s, c, Open(q)), c, Load(0)), c, Close(0));
            && t.row == Start(s.row, c, q).row && t.flights == []
            && t.log == s.log + (if Start(s.row, c, q).entry.Some? then [Start(s.row, c, q).entry.value] else [])
  {
    if OpenStart(s.row, c, q).Refuse? {
      assert s.log + [] == s.log;
    }
  }

  /** So is a verify. */
  lemma UndividedVerify(s: Race, c: Context, v: VerifyRequest)
    requires s.flights == [] && v.audited
    ensures var t := Step(Step(Step(s, c, Try(v)), c, Load(0)), c, Close(0));
            && t.row == Verify(s.row, c, v).row && t.flights == []
            && t.log == s.log + (if Verify(s.row, c, v).entry.Some? then [Verify(s.row, c, v).entry.value] else [])
  {
    if Verify(s.row, c, v).entry.None? {
      assert s.log + [] == s.log;
    }
  }

  /**
   The clean-up of a failed first start leaves a pending invite with no user and nothing
   counted or bound, and takes every other call with it unless the invite was accepted.
   */
  lemma FailAnswers(s: Race, c: Context, i: nat)
    requires i < |s.flights|
    ensures var f, t := s.flights[i], Step(s, c, Fail(i));
            if (f.StartGated? || f.StartLoaded?) && f.created then
              && t.row.user == None && t.row.status == Pending && t.row.session == None && t.row.code == None
              && t.row.starts == 0 && t.row.wrong == 0 && t.log == s.log
              && t.flights == if s.row.used then s.flights[..i] + s.flights[i + 1..] else []
            else t == s
  {
  }

  lemma StepsPush(s: Race, c: Context, moves: seq<Move>, m: Move)
    ensures Steps(s, c, moves + [m]) == Step(Steps(s, c, moves), c, m)
  {
    assert (moves + [m])[..|moves|] == moves;
  }

  lemma StepLog(s: Race, c: Context, m: Move)
    ensures var t := Step(s, c, m);
            || t.log == s.log
            || (|t.log| == |s.log| + 1 && t.log == s.log + [t.log[|s.log|]] && !t.log[|s.log|].ResetByRoot?)
  {
  }

  // ----- which calls are counted

  /** A start written although another committed between its read and its write, or a clean-up after a commit. */
  predicate OverwritesStart(s: Race, m: Move) {
    || (m.Close? && m.i < |s.flights| && s.flights[m.i].StartLoaded? && s.flights[m.i].after != StartsSince(s.log))
    || (CleansUp(s, m) && StartsSince(s.log) > 0)
  }

  predicate OverwritesWrong(s: Race, m: Move) {
    || (m.Close? && m.i < |s.flights| && s.flights[m.i].WrongLoaded? && s.flights[m.i].after != WrongSince(s.log))
    || (CleansUp(s, m) && WrongSince(s.log) > 0)
  }

  predicate Overwrites(s: Race, m: Move) {
    OverwritesStart(s, m) || OverwritesWrong(s, m)
  }

  ghost predicate StartsExact(s: Race) {
    && s.row.starts == StartsSince(s.log)
    && (forall f :: f in s.flights && f.StartLoaded? ==> f.starts == f.after <= StartsSince(s.log))
  }

  ghost predicate WrongExact(s: Race) {
    && s.row.wrong == WrongSince(s.log)
    && (forall f :: f in s.flights && f.WrongLoaded? ==> f.wrong == f.after <= WrongSince(s.log))
  }

  /** A start was lost from the count, and nothing in flight can bring it back. */
  ghost predicate StartsBehind(s: Race) {
    && s.row.starts < StartsSince(s.log)
    && (forall f :: f in s.flights && f.StartLoaded? ==> f.starts < StartsSince(s.log))
  }

  ghost predicate WrongBehind(s: Race) {
    && s.row.wrong < WrongSince(s.log)
    && (forall f :: f in s.flights && f.WrongLoaded? ==> f.wrong < WrongSince(s.log))
  }

  lemma StepLogCounts(s: Race, c: Context, m: Move)
    ensures var t := Step(s, c, m);
            && StartsSince(t.log) == StartsSince(s.log)
               + (if |t.log| > |s.log| && t.log[|s.log|].Started? then 1 else 0)
            && WrongSince(t.log) == WrongSince(s.log)
               + (if |t.log| > |s.log| && t.log[|s.log|].WrongCode? then 1 else 0)
  {
    var t := Step(s, c, m);
    StepLog(s, c, m);
    if t.log != s.log {
      Appended(s.log, t.log[|s.log|]);
    }
  }

  /** The flight whose write a move commits, if any. */
  function Committing(s: Race, m: Move): Option<Flight> {
    if m.Close? && m.i < |s.flights| && !Gated(s.flights[m.i]) then Some(s.flights[m.i]) else None
  }

  /** Flights after a move were there before, were just read from the row, or were just admitted. */
  lemma StepFlight(s: Race, c: Context, m: Move, f: Flight)
    requires f in Step(s, c, m).flights
    ensures f in s.flights || Gated(f) || (m.Load? && m.i < |s.flights| && f == Loaded(s, c, s.flights[m.i]))
  {
  }

  lemma CloseCounts(s: Race, c: Context, i: nat)
    requires i < |s.flights| && !Gated(s.flights[i]) && !Step(s, c, Close(i)).row.used
    ensures var t, f := Step(s, c, Close(i)), s.flights[i];
            && t.row.starts == (if f.StartLoaded? then f.starts + 1 else s.row.starts)
            && t.row.wrong == (if f.WrongLoaded? then f.wrong + 1 else s.row.wrong)
            && StartsSince(t.log) == StartsSince(s.log) + (if f.StartLoaded? then 1 else 0)
            && WrongSince(t.log) == WrongSince(s.log) + (if f.WrongLoaded? then 1 else 0)
  {
    StepLogCounts(s, c, Close(i));
  }

  /** A move that writes no flight and cleans nothing up changes a count only by a malformed code. */
  lemma QuietCounts(s: Race, c: Context, m: Move)
    requires Committing(s, m).None? && !CleansUp(s, m)
    ensures var t := Step(s, c, m);
            && t.row.starts == s.row.starts && StartsSince(t.log) == StartsSince(s.log)
            && t.row.wrong - s.row.wrong == WrongSince(t.log) - WrongSince(s.log) >= 0
  {
    StepLogCounts(s, c, m);
    match m
    case Try(v) =>
      if !Checks(s.row, c, v) {
        UncheckedVerify(s.row, c, v);
      }
    case Open(q) => GateKeepsCounts(s.row, c, q);
    case _ =>
  }

  /** A verify that is settled under its lock counts a malformed code or nothing. */
  lemma UncheckedVerify(r: Row, c: Context, v: VerifyRequest)
    requires !Checks(r, c, v)
    ensures var o := Verify(r, c, v);
            && o.row.starts == r.starts && o.row.used == r.used && o.row.session == r.session
            && (if o.entry.Some? then o.entry.value == WrongCode && o.row.wrong == r.wrong + 1
                else o.row.wrong == r.wrong)
  {
  }

  lemma GateKeepsCounts(r: Row, c: Context, q: StartRequest)
    ensures var after := OpenStart(r, c, q).row;
            after.starts == r.starts && after.wrong == r.wrong && after.used == r.used && after.session == r.session
  {
  }

  lemma StepLoads(s: Race, c: Context, m: Move)
    ensures forall f :: f in Step(s, c, m).flights && f.StartLoaded? ==>
              f in s.flights || (f.starts == s.row.starts && f.after == StartsSince(s.log))
    ensures forall f :: f in Step(s, c, m).flights && f.WrongLoaded? ==>
              f in s.flights || (f.wrong == s.row.wrong && f.after == WrongSince(s.log))
  {
    forall f | f in Step(s, c, m).flights
      ensures f.StartLoaded? ==> f in s.flights || (f.starts == s.row.starts && f.after == StartsSince(s.log))
      ensures f.WrongLoaded? ==> f in s.flights || (f.wrong == s.row.wrong && f.after == WrongSince(s.log))
    {
      StepFlight(s, c, m, f);
    }
  }

  lemma StepKeepsStarts(s: Race, c: Context, m: Move, t: Race)
    requires t == Step(s, c, m) && !t.row.used
    ensures StartsExact(s) && !OverwritesStart(s, m) ==> StartsExact(t)
    ensures StartsExact(s) && OverwritesStart(s, m) ==> StartsBehind(t)
    ensures StartsBehind(s) ==> StartsBehind(t)
  {
    if Committing(s, m).Some? {
      CloseCounts(s, c, m.i);
    } else if !CleansUp(s, m) {
      QuietCounts(s, c, m);
    }
    StepLoads(s, c, m);
  }

  lemma StepKeepsWrong(s: Race, c: Context, m: Move, t: Race)
    requires t == Step(s, c, m) && !t.row.used
    ensures WrongExact(s) && !OverwritesWrong(s, m) ==> WrongExact(t)
    ensures WrongExact(s) && OverwritesWrong(s, m) ==> WrongBehind(t)
    ensures WrongBehind(s) ==> WrongBehind(t)
  {
    if Committing(s, m).Some? {
      CloseCounts(s, c, m.i);
    } else if !CleansUp(s, m) {
      QuietCounts(s, c, m);
    }
    StepLoads(s, c, m);
  }

  lemma UsedForGood(s: Race, c: Context, m: Move)
    ensures s.row.used ==> Step(s, c, m).row.used
  {
  }

  ghost predicate NeverOverwrites(s: Race, c: Context, moves: seq<Move>) {
    forall k :: 0 <= k < |moves| ==> !Overwrites(Steps(s, c, moves[..k]), moves[k])
  }

  lemma NeverOverwritesPush(s: Race, c: Context, moves: seq<Move>, m: Move)
    ensures NeverOverwrites(s, c, moves + [m]) <==> NeverOverwrites(s, c, moves) && !Overwrites(Steps(s, c, moves), m)
  {
    var all := moves + [m];
    assert all[..|moves|] == moves && all[|moves|] == m;
    assert forall k :: 0 <= k < |moves| ==> all[..k] == moves[..k] && all[k] == moves[k];
  }

  lemma {:induction false} CountsAlongRace(s: Race, c: Context, moves: seq<Move>)
    requires StartsExact(s) && WrongExact(s) && !Steps(s, c, moves).row.used
    ensures var t := Steps(s, c, moves);
            if NeverOverwrites(s, c, moves) then StartsExact(t) && WrongExact(t) else StartsBehind(t) || WrongBehind(t)
  {
    if moves != [] {
      var before, m := moves[..|moves| - 1], moves[|moves| - 1];
      var t := Steps(s, c, before);
      assert moves == before + [m];
      UsedForGood(t, c, m);
      CountsAlongRace(s, c, before);
      NeverOverwritesPush(s, c, before, m);
      StepKeepsStarts(t, c, m, Step(t, c, m));
      StepKeepsWrong(t, c, m, Step(t, c, m));
    }
  }

  /**
   In every race on an invite not yet accepted, the stored counts are the numbers of
   committed starts and wrong codes if and only if no call was written over another
   of its kind that committed since its own read and no start was cleaned up after a commit.
   */
  lemma CountedIffNotOverwritten(c: Context, token: nat, resent: bool, moves: seq<Move>)
    requires !Steps(Begin(c, token, resent), c, moves).row.used
    ensures var s := Steps(Begin(c, token, resent), c, moves);
            s.row.starts == StartsSince(s.log) && s.row.wrong == WrongSince(s.log)
            <==> NeverOverwrites(Begin(c, token, resent), c, moves)
  {
    CountsAlongRace(Begin(c, token, resent), c, moves);
  }
}
