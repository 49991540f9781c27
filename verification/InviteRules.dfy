/**
 When invite calls take effect, said over the row and the inputs alone, and when in a
 run an activation can happen: before the invite, the mailed code and the TOTP setup
 of the latest start have lapsed, and under the key they were made with.
 */
module InviteRules {
  import opened Sums
  import opened InviteAcceptance

  // ----- one call

  /** The invite a token names, still open. */
  predicate Open(r: Row, c: Context, token: nat) {
    && r.tokenHash == Digest(c.key, TokenMessage(token)) && c.now < r.expiresAt && !r.revoked && !r.used
    && (r.status == Pending || r.status == TotpPending)
  }

  /** The lookup marks an expired invite, whatever it was before, and changes nothing else. */
  lemma LookupAnswers(r: Row, c: Context, token: nat)
    ensures LookedUp(r, c, token) ==
            if r.tokenHash == Digest(c.key, TokenMessage(token)) && c.now >= r.expiresAt then r.(status := Expired)
            else r
  {
  }

  /** The checks of a start, before the setup user. */
  predicate StartMayTry(r: Row, c: Context, q: StartRequest) {
    && Open(r, c, q.token) && !r.startLocked && !r.verifyLocked
    && (r.session.Some? ==> r.session.value == Digest(c.key, SessionMessage(q.session)))
  }

  predicate StartPasses(r: Row, c: Context, q: StartRequest) {
    && StartMayTry(r, c, q) && r.starts < 3 && q.detailsOk
    && (if r.user.None? then !q.duplicate else !r.user.value.active)
  }

  /** The invite with nobody set up and nothing bound, counted, locked or mailed. */
  function Blank(r: Row): Row {
    Row(r.tokenHash, Pending, r.expiresAt, r.revoked, r.used, None, None, 0, false, 0, false, None)
  }

  /** A start commits exactly when it passes and its mail goes out; and what it then stores. */
  lemma StartAnswers(r: Row, c: Context, q: StartRequest)
    ensures var o := Start(r, c, q);
            && (o.entry.Some? <==> StartPasses(r, c, q) && q.ending.Mailed?)
            && (o.entry.Some? ==>
                  && o.entry.value == Started(q.session, q.secret, q.code)
                  && o.row == r.(user := Some(SetupUser(Some(Setup(q.secret, c.now, c.key)), false)),
                                 status := TotpPending, session := Some(Digest(c.key, SessionMessage(q.session))),
                                 starts := r.starts + 1,
                                 code := Some(WorkplaceCode(Digest(c.key, CodeMessage(r.tokenHash, q.code)),
                                                            c.now + c.policy.codeTtl))))
  {
  }

  /** A start that does not commit: what it leaves behind. */
  lemma FailedStartAnswers(r: Row, c: Context, q: StartRequest)
    requires !(StartPasses(r, c, q) && q.ending.Mailed?)
    ensures var row := Start(r, c, q).row;
            if StartPasses(r, c, q) then
              if r.user.Some? then row == r
              else if q.ending == MailFailed(true) then row == Blank(r)
              else row == r.(user := Some(SetupUser(None, false)))
            else if StartMayTry(r, c, q) && r.starts >= 3 then row == r.(startLocked := q.audited)
            else row == LookedUp(r, c, q.token)
  {
  }

  /** The gates of a verify before its TOTP is looked at. */
  predicate VerifyMayTry(r: Row, c: Context, q: VerifyRequest) {
    && Open(r, c, q.token) && !r.startLocked && !r.verifyLocked
    && q.session.Some? && r.session == Some(Digest(c.key, SessionMessage(q.session.value)))
    && r.user.Some? && !r.user.value.active
  }

  /** The TOTP setup of the latest start is still good. */
  predicate SetupGood(r: Row, c: Context) {
    && r.user.Some? && r.user.value.setup.Some?
    && var s := r.user.value.setup.value;
       0 <= c.now - s.startedAt <= c.policy.setupMaxAge && s.bindingKey == c.key
  }

  predicate CodesRight(r: Row, c: Context, q: VerifyRequest)
    requires SetupGood(r, c)
  {
    && q.totp == From(r.user.value.setup.value.secret)
    && r.code.Some? && c.now < r.code.value.expiresAt
    && r.code.value.digest == Digest(c.key, CodeMessage(r.tokenHash, q.code))
  }

  /** What a verify makes of the invite, each answer exactly when. */
  lemma VerifyAnswers(r: Row, c: Context, q: VerifyRequest)
    ensures var o := Verify(r, c, q);
            var asked := VerifyMayTry(r, c, q) && SetupGood(r, c) && !q.totp.Replayed? && !q.totp.BackedOff?;
            && (o.entry.Some? && o.entry.value.Activated? <==> asked && CodesRight(r, c, q) && q.audited)
            && (o.entry == Some(WrongCode) <==> asked && !CodesRight(r, c, q) && q.audited)
            && (o.entry.Some? ==> o.entry.value.Activated? || o.entry.value.WrongCode?)
            && (o.entry.Some? && o.entry.value.Activated? ==>
                  && o.entry.value == Activated(q.session.value, r.user.value.setup.value.secret, q.code)
                  && o.row == r.(user := Some(r.user.value.(active := true)), status := Accepted, used := true,
                                 session := None, starts := 0, startLocked := false, wrong := 0, verifyLocked := false,
                                 code := None))
            && (o.entry == Some(WrongCode) ==>
                  o.row == r.(wrong := r.wrong + 1, verifyLocked := r.wrong + 1 >= 5))
  {
  }

  lemma QuietVerifyAnswers(r: Row, c: Context, q: VerifyRequest)
    requires Verify(r, c, q).entry.None?
    ensures Verify(r, c, q).row ==
            if VerifyMayTry(r, c, q) && !SetupGood(r, c)
            then r.(user := Some(r.user.value.(setup := None)), status := Pending)
            else LookedUp(r, c, q.token)
  {
  }

  /** A root action resets exactly an open invite whose account is not active. */
  lemma ResetAnswers(r: Row, c: Context, token: nat, mailed: bool)
    ensures var open := (r.status == Pending || r.status == TotpPending) && (r.user.Some? ==> !r.user.value.active);
            var blank := Blank(r);
            && Reset(r) == (if open then Outcome(blank, Some(ResetByRoot)) else Outcome(r, None))
            && Reissue(r, c, token, mailed) ==
               if open && mailed
               then Outcome(blank.(tokenHash := Digest(c.key, TokenMessage(token)), revoked := false,
                                   expiresAt := c.now + c.policy.inviteTtl), Some(ResetByRoot))
               else Outcome(r, None)
  {
  }

  lemma RevokeAnswers(r: Row)
    ensures Revoke(r) ==
            if r.status == Pending || r.status == TotpPending then r.(status := Revoked, revoked := true) else r
  {
  }

  // ----- times of a run, from its events

  datatype Moment = Moment(at: int, key: Key)

  /** When and under which key the latest start since the last reset committed. */
  function LatestStartAt(first: State, events: seq<Event>): Option<Moment> {
    if events == [] then None
    else
      var s := Run(first, events[..|events| - 1]);
      var entry := EntryOf(s, events[|events| - 1]);
      if entry.Some? && entry.value.Started? then Some(Moment(s.context.now, s.context.key))
      else if entry.Some? && entry.value.ResetByRoot? then None
      else LatestStartAt(first, events[..|events| - 1])
  }

  /** When and under which key the invite's token was last issued. */
  function IssuedAt(first: State, events: seq<Event>): Moment {
    if events == [] then Moment(first.context.now, first.context.key)
    else
      var s, e := Run(first, events[..|events| - 1]), events[|events| - 1];
      if e.ReissueCall? && EntryOf(s, e).Some? then Moment(s.context.now, s.context.key)
      else IssuedAt(first, events[..|events| - 1])
  }

  /** The row's times are those of the run. */
  predicate Dated(s: State, start: Option<Moment>, issued: Moment) {
    && s.row.expiresAt == issued.at + s.context.policy.inviteTtl && s.row.tokenHash.key == issued.key
    && (!s.row.used && s.row.user.Some? && s.row.user.value.setup.Some? ==>
          && start.Some? && s.row.user.value.setup.value.startedAt == start.value.at
          && s.row.user.value.setup.value.bindingKey == start.value.key)
    && (!s.row.used && s.row.code.Some? ==>
          && start.Some? && s.row.code.value.expiresAt == start.value.at + s.context.policy.codeTtl
          && s.row.code.value.digest.key == start.value.key)
    && (s.row.user.None? ==> s.row.code.None?)
  }

  function StartAfter(s: State, e: Event, start: Option<Moment>): Option<Moment> {
    var entry := EntryOf(s, e);
    if entry.Some? && entry.value.Started? then Some(Moment(s.context.now, s.context.key))
    else if entry.Some? && entry.value.ResetByRoot? then None
    else start
  }

  function IssueAfter(s: State, e: Event, issued: Moment): Moment {
    if e.ReissueCall? && EntryOf(s, e).Some? then Moment(s.context.now, s.context.key) else issued
  }

  lemma NextKeepsDated(s: State, e: Event, start: Option<Moment>, issued: Moment)
    requires Dated(s, start, issued)
    ensures Dated(Next(s, e), StartAfter(s, e, start), IssueAfter(s, e, issued))
    ensures Next(s, e).context.policy == s.context.policy
  {
  }

  lemma {:induction false} RunKeepsDated(c: Context, token: nat, resent: bool, events: seq<Event>)
    ensures var first := Issued(c, token, resent);
            && Dated(Run(first, events), LatestStartAt(first, events), IssuedAt(first, events))
            && Run(first, events).context.policy == c.policy
  {
    if events != [] {
      var first, before, e := Issued(c, token, resent), events[..|events| - 1], events[|events| - 1];
      RunKeepsDated(c, token, resent, before);
      NextKeepsDated(Run(first, before), e, LatestStartAt(first, before), IssuedAt(first, before));
    }
  }

  /** A moment is before the invite, the code and the setup of the run so far have lapsed, with no rotation since. */
  predicate InTime(c: Context, first: State, events: seq<Event>) {
    var s, start, issued := Run(first, events), LatestStartAt(first, events), IssuedAt(first, events);
    && start.Some? && s.context.key == start.value.key == issued.key
    && s.context.now < issued.at + c.policy.inviteTtl
    && s.context.now < start.value.at + c.policy.codeTtl
    && 0 <= s.context.now - start.value.at <= c.policy.setupMaxAge
  }

  /**
   In every run an activation happens before the invite's last issue plus its lifetime, before
   the latest start plus the code's lifetime, within the setup's age of that start, and with no
   key rotation since either.
   */
  lemma ActivationIsInTime(c: Context, token: nat, resent: bool, events: seq<Event>, q: VerifyRequest)
    requires var s := Run(Issued(c, token, resent), events);
             var entry := Verify(s.row, s.context, q).entry;
             entry.Some? && entry.value.Activated?
    ensures InTime(c, Issued(c, token, resent), events)
  {
    RunKeepsDated(c, token, resent, events);
    var s := Run(Issued(c, token, resent), events);
    VerifyAnswers(s.row, s.context, q);
  }

  lemma OnlyVerifyActivates(s: State, e: Event)
    requires EntryOf(s, e).Some? && EntryOf(s, e).value.Activated?
    ensures e.VerifyCall?
  {
  }

  /** So every activation in a run's log was made by a verify of the run, in time. */
  lemma {:induction false} EveryActivationWasInTime(c: Context, token: nat, resent: bool, events: seq<Event>, i: nat)
    returns (k: nat)
    requires var log := Run(Issued(c, token, resent), events).log; i < |log| && log[i].Activated?
    ensures var first := Issued(c, token, resent);
            && k < |events| && events[k].VerifyCall? && |Run(first, events[..k]).log| == i
            && EntryOf(Run(first, events[..k]), events[k]) == Some(Run(first, events).log[i])
            && InTime(c, first, events[..k])
  {
    var first, last := Issued(c, token, resent), |events| - 1;
    var s := Run(first, events[..last]);
    NextLog(s, events[last]);
    if i < |s.log| {
      k := EveryActivationWasInTime(c, token, resent, events[..last], i);
      assert events[..last][..k] == events[..k];
    } else {
      k := last;
      OnlyVerifyActivates(s, events[last]);
      ActivationIsInTime(c, token, resent, events[..last], events[last].verify);
    }
  }
}
