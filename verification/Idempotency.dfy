/**
 Reserving an idempotency key for a public transaction request. A request reads
 the clock, selects the reservation row under lock, and then renews an expired
 row, is refused by a live one, or inserts a new one; the reservation counts only
 once its success audit commits. Inserts race on a unique constraint, HMAC keys
 are rotated and removed, and expired rows are deleted in the background.
 */
module Idempotency {
  import opened Sums

  type Key = nat
  type Payload = nat

  datatype Ticket = Ticket(user: nat, idempotencyKey: nat)

  datatype Message = KeyMessage(idempotencyKey: nat) | PayloadMessage(payload: Payload)

  datatype Verifier = Hmac(key: Key, message: Message)

  datatype Record = Record(hmacKey: Key, keyVerifier: Verifier, payloadVerifier: Verifier, createdAt: int,
                          expiresAt: int)

  datatype Refusal = Unavailable | KeyUnavailable | KeyVerifierInvalid | Replay | PayloadConflict | RolledBack

  function Reserve(t: Ticket, p: Payload, key: Key, now: int, ttl: int): Record {
    Record(key, Hmac(key, KeyMessage(t.idempotencyKey)), Hmac(key, PayloadMessage(p)), now, now + ttl)
  }

  /** None: the row has expired and may be renewed. Some: why it stands in the way. */
  function Objection(r: Record, t: Ticket, p: Payload, now: int, keyring: set<Key>): Option<Refusal> {
    if r.expiresAt <= now then None
    else if r.hmacKey !in keyring then Some(KeyUnavailable)
    else if r.keyVerifier != Hmac(r.hmacKey, KeyMessage(t.idempotencyKey)) then Some(KeyVerifierInvalid)
    else if r.payloadVerifier == Hmac(r.hmacKey, PayloadMessage(p)) then Some(Replay)
    else Some(PayloadConflict)
  }

  /** The table as one request at a time updates it. */
  class Reservations {
    var rows: map<Ticket, Record>

    constructor ()
      ensures rows == map[]
    {
      rows := map[];
    }

    method ReserveKey(t: Ticket, p: Payload, now: int, ttl: int, active: Key, keyring: set<Key>, auditWritten: bool)
      returns (refusal: Option<Refusal>)
      modifies this
      ensures refusal.None? <==>
              active in keyring && 60 <= ttl <= 604800 && auditWritten
                && (t in old(rows) ==> old(rows)[t].expiresAt <= now)
      ensures rows == if refusal.None? then old(rows)[t := Reserve(t, p, active, now, ttl)] else old(rows)
      ensures active in keyring && 60 <= ttl <= 604800 && t in old(rows) && old(rows)[t].expiresAt > now ==>
                refusal == Objection(old(rows)[t], t, p, now, keyring)
    {
      if ttl < 60 || ttl > 604800 || active !in keyring {
        return Some(Unavailable);
      }
      if t in rows {
        var r := rows[t];
        if r.expiresAt > now {
          return Objection(r, t, p, now, keyring);
        }
      }
      if !auditWritten {
        return Some(RolledBack);
      }
      rows := rows[t := Reserve(t, p, active, now, ttl)];
      return None;
    }
  }

  // ----- requests in flight

  datatype Phase =
    | Begun
    | Absent              // the select found no row; nothing is locked
    | Clashed             // the insert hit the unique constraint and was rolled back
    | Inserted(row: Record)
    | Renewed(row: Record)
    | Granted
    | Refused(why: Refusal)

  /** `now` and `ttl` are read once, before the select. */
  datatype Request = Request(ticket: Ticket, payload: Payload, now: int, ttl: int, phase: Phase)

  /** A committed reservation; `expiresAt` is one TTL after `createdAt`. */
  datatype Grant = Grant(ticket: Ticket, payload: Payload, createdAt: int, expiresAt: int, committedAt: int)

  datatype State = State(
    rows: map<Ticket, Record>, requests: map<nat, Request>, keyring: set<Key>, active: Key, clock: int,
      grants: seq<Grant>)

  datatype Event =
    | Tick(elapsed: nat)
    | Rotate(key: Key)
    | RemoveKey(key: Key)
    | Cleanup(ticket: Ticket)
    | Begin(id: nat, ticket: Ticket, payload: Payload, ttl: int)
    | Select(id: nat)
    | Insert(id: nat)
    | Commit(id: nat)
    | Rollback(id: nat)

  predicate Holding(r: Request, t: Ticket) {
    r.ticket == t && (r.phase.Inserted? || r.phase.Renewed?)
  }

  predicate FreeTicket(s: State, t: Ticket) {
    forall id :: id in s.requests ==> !Holding(s.requests[id], t)
  }

  function Put(s: State, id: nat, p: Phase): State
    requires id in s.requests
  {
    s.(requests := s.requests[id := s.requests[id].(phase := p)])
  }

  /** A locking select that finds a row: renew it or refuse. */
  function Meet(s: State, id: nat): State
    requires id in s.requests && s.requests[id].ticket in s.rows
  {
    var r := s.requests[id];
    var objection := Objection(s.rows[r.ticket], r.ticket, r.payload, r.now, s.keyring);
    if s.active !in s.keyring then Put(s, id, Refused(Unavailable))
    else if objection.Some? then Put(s, id, Refused(objection.value))
    else Put(s, id, Renewed(Reserve(r.ticket, r.payload, s.active, r.now, r.ttl)))
  }

  function Next(s: State, e: Event): State {
    match e
    case Tick(elapsed) => s.(clock := s.clock + elapsed)
    case Rotate(key) => s.(active := key, keyring := s.keyring + {key})
    case RemoveKey(key) => s.(keyring := s.keyring - {key})
    case Cleanup(t) =>
      if t in s.rows && s.rows[t].expiresAt <= s.clock && FreeTicket(s, t) then s.(rows := s.rows - {t}) else s
    case Begin(id, t, p, ttl) =>
      if id in s.requests then s
      else s.(requests := s.requests[id := Request(t, p, s.clock, ttl,
                if 60 <= ttl <= 604800 then Begun else Refused(Unavailable))])
    case Select(id) =>
      if id !in s.requests || !(s.requests[id].phase.Begun? || s.requests[id].phase.Clashed?) then s
      else if s.requests[id].ticket in s.rows then
        (if FreeTicket(s, s.requests[id].ticket) then Meet(s, id) else s)
      else if s.requests[id].phase.Clashed? then Put(s, id, Refused(Unavailable))
      else Put(s, id, Absent)
    case Insert(id) =>
      if id !in s.requests || !s.requests[id].phase.Absent? || !FreeTicket(s, s.requests[id].ticket) then s
      else
        var r := s.requests[id];
        if r.ticket in s.rows then Put(s, id, Clashed)
        else if s.active !in s.keyring then Put(s, id, Refused(Unavailable))
        else Put(s, id, Inserted(Reserve(r.ticket, r.payload, s.active, r.now, r.ttl)))
    case Commit(id) =>
      if id !in s.requests || !Holding(s.requests[id], s.requests[id].ticket) then s
      else
        var r := s.requests[id];
        Put(s, id, Granted).(rows := s.rows[r.ticket := r.phase.row],
          grants := s.grants + [Grant(r.ticket, r.payload, r.now, r.now + r.ttl, s.clock)])
    case Rollback(id) =>
      if id !in s.requests || s.requests[id].phase.Granted? then s else Put(s, id, Refused(RolledBack))
  }

  function Run(events: seq<Event>): State {
    if events == [] then State(map[], map[], {0}, 0, 0, [])
    else Next(Run(events[..|events| - 1]), events[|events| - 1])
  }

  // ----- the invariant

  predicate RequestOk(s: State, r: Request) {
    && r.now <= s.clock
    && (r.phase.Inserted? ==>
          r.ticket !in s.rows && r.phase.row == Reserve(r.ticket, r.payload, r.phase.row.hmacKey, r.now, r.ttl))
    && (r.phase.Renewed? ==>
          && r.ticket in s.rows && s.rows[r.ticket].expiresAt <= r.now
          && r.phase.row == Reserve(r.ticket, r.payload, r.phase.row.hmacKey, r.now, r.ttl))
  }

  predicate RecordOf(r: Record, g: Grant) {
    r == Reserve(g.ticket, g.payload, r.hmacKey, g.createdAt, g.expiresAt - g.createdAt)
  }

  /** A grant's row is still in the table, or its time is up. */
  predicate GrantOk(s: State, g: Grant) {
    g.committedAt <= s.clock && (s.clock >= g.expiresAt || (g.ticket in s.rows && RecordOf(s.rows[g.ticket], g)))
  }

  /** Every request's own row is as it should be, and at most one request holds a ticket. */
  ghost predicate RequestsOk(s: State) {
    && (forall id :: id in s.requests ==> RequestOk(s, s.requests[id]))
    && (forall a, b :: a in s.requests && b in s.requests && a != b && s.requests[a].ticket == s.requests[b].ticket ==>
          !(Holding(s.requests[a], s.requests[a].ticket) && Holding(s.requests[b], s.requests[b].ticket)))
  }

  ghost predicate GrantsKept(s: State) {
    forall i :: 0 <= i < |s.grants| ==> GrantOk(s, s.grants[i])
  }

  ghost predicate GrantsApart(grants: seq<Grant>) {
    forall i, j :: 0 <= i < j < |grants| && grants[i].ticket == grants[j].ticket ==>
      grants[i].expiresAt <= grants[j].committedAt
  }

  ghost predicate Inv(s: State) {
    RequestsOk(s) && GrantsKept(s) && GrantsApart(s.grants)
  }

  /** Rows of tickets that nobody else writes stay put, so a request's standing is not disturbed. */
  lemma NextKeepsRequest(s: State, e: Event, id: nat)
    requires RequestsOk(s) && id in Next(s, e).requests
    ensures RequestOk(Next(s, e), Next(s, e).requests[id])
  {
    assert id in s.requests ==> RequestOk(s, s.requests[id]);
  }

  /** Only one request holds a ticket, since a select or an insert waits for the holder. */
  lemma NextKeepsOneHolder(s: State, e: Event, a: nat, b: nat)
    requires RequestsOk(s) && a in Next(s, e).requests && b in Next(s, e).requests && a != b
    requires Next(s, e).requests[a].ticket == Next(s, e).requests[b].ticket
    ensures var t := Next(s, e).requests[a].ticket;
            !(Holding(Next(s, e).requests[a], t) && Holding(Next(s, e).requests[b], t))
  {
  }

  lemma NextKeepsRequests(s: State, e: Event)
    requires RequestsOk(s)
    ensures RequestsOk(Next(s, e))
  {
    var after := Next(s, e);
    forall id | id in after.requests ensures RequestOk(after, after.requests[id]) {
      NextKeepsRequest(s, e, id);
    }
    forall a, b | a in after.requests && b in after.requests && a != b
      && after.requests[a].ticket == after.requests[b].ticket
      ensures !(Holding(after.requests[a], after.requests[a].ticket)
                && Holding(after.requests[b], after.requests[b].ticket))
    {
      NextKeepsOneHolder(s, e, a, b);
    }
  }

  /** Whoever commits on a ticket finds every earlier grant of it expired. */
  lemma CommitComesAfterExpiry(s: State, id: nat, i: nat)
    requires RequestsOk(s) && GrantsKept(s) && id in s.requests && i < |s.grants|
    requires Holding(s.requests[id], s.requests[id].ticket) && s.grants[i].ticket == s.requests[id].ticket
    ensures s.grants[i].expiresAt <= s.clock
  {
    assert RequestOk(s, s.requests[id]) && GrantOk(s, s.grants[i]);
  }

  lemma NextKeepsGrants(s: State, e: Event)
    requires RequestsOk(s) && GrantsKept(s)
    ensures GrantsKept(Next(s, e))
  {
    var after := Next(s, e);
    forall i | 0 <= i < |after.grants| ensures GrantOk(after, after.grants[i]) {
      if i < |s.grants| {
        assert GrantOk(s, s.grants[i]) && after.grants[i] == s.grants[i];
        if e.Commit? && after != s && s.requests[e.id].ticket == s.grants[i].ticket {
          CommitComesAfterExpiry(s, e.id, i);
        }
      } else {
        assert RequestOk(s, s.requests[e.id]);
      }
    }
  }

  lemma NextKeepsApart(s: State, e: Event)
    requires Inv(s)
    ensures GrantsApart(Next(s, e).grants)
  {
    var after := Next(s, e);
    if |after.grants| > |s.grants| {
      forall i | 0 <= i < |s.grants| && s.grants[i].ticket == s.requests[e.id].ticket
        ensures s.grants[i].expiresAt <= s.clock
      {
        CommitComesAfterExpiry(s, e.id, i);
      }
    } else {
      assert after.grants == s.grants;
    }
  }

  lemma {:induction false} RunKeepsInv(events: seq<Event>)
    ensures Inv(Run(events))
  {
    if events != [] {
      var s, e := Run(events[..|events| - 1]), events[|events| - 1];
      RunKeepsInv(events[..|events| - 1]);
      NextKeepsRequests(s, e);
      NextKeepsGrants(s, e);
      NextKeepsApart(s, e);
    }
  }

  /**
   In every run, with rotations, removed keys, racing inserts and deletions, a
   second reservation of the same user and key commits no earlier than one TTL
   after the first was created.
   */
  lemma GrantsAreATtlApart(events: seq<Event>, i: nat, j: nat)
    requires i < j < |Run(events).grants| && Run(events).grants[i].ticket == Run(events).grants[j].ticket
    ensures Run(events).grants[i].expiresAt <= Run(events).grants[j].committedAt
  {
    RunKeepsInv(events);
  }

  /** A reservation that was granted is in the table, for its own payload, until it expires. */
  lemma GrantStaysUntilExpiry(events: seq<Event>, i: nat)
    requires i < |Run(events).grants| && Run(events).clock < Run(events).grants[i].expiresAt
    ensures var s := Run(events); s.grants[i].ticket in s.rows && RecordOf(s.rows[s.grants[i].ticket], s.grants[i])
  {
    RunKeepsInv(events);
  }

  /**
   A request that meets a reservation still live at the time it read is always
   refused: as a payload conflict exactly when its payload differs from the
   reserved one, unless the record's key has been removed.
   */
  lemma LiveReservationRefuses(events: seq<Event>, id: nat, i: nat)
    requires var s := Run(events);
             && id in s.requests && (s.requests[id].phase.Begun? || s.requests[id].phase.Clashed?) && i < |s.grants|
             && s.grants[i].ticket == s.requests[id].ticket && s.clock < s.grants[i].expiresAt
             && s.active in s.keyring && FreeTicket(s, s.requests[id].ticket)
    ensures var s := Run(events);
            var r := s.requests[id];
            var outcome := Next(s, Select(id)).requests[id].phase;
            && outcome.Refused? && r.ticket in s.rows
            && (outcome.why == PayloadConflict
                <==> s.rows[r.ticket].hmacKey in s.keyring && r.payload != s.grants[i].payload)
            && (outcome.why == Replay <==> s.rows[r.ticket].hmacKey in s.keyring && r.payload == s.grants[i].payload)
  {
    RunKeepsInv(events);
  }

  // ----- when each step takes effect

  /** Nobody else holds the ticket, uncommitted. */
  predicate Unheld(s: State, t: Ticket) {
    forall id :: id in s.requests && s.requests[id].ticket == t ==>
      !s.requests[id].phase.Inserted? && !s.requests[id].phase.Renewed?
  }

  /** A request goes ahead exactly with a TTL from one minute to one week, at the time it reads. */
  lemma BeginAnswers(s: State, id: nat, t: Ticket, p: Payload, ttl: int)
    requires id !in s.requests
    ensures Next(s, Begin(id, t, p, ttl)) == s.(requests := s.requests[id :=
              Request(t, p, s.clock, ttl, if 60 <= ttl <= 7 * 24 * 3600 then Begun else Refused(Unavailable))])
  {
  }

  /** An identifier in use is not begun again, and anything but a granted request may be rolled back. */
  lemma RollbackAnswers(s: State, id: nat, t: Ticket, p: Payload, ttl: int)
    requires id in s.requests
    ensures Next(s, Begin(id, t, p, ttl)) == s
    ensures var r, after := s.requests[id], Next(s, Rollback(id));
            && after.rows == s.rows && after.grants == s.grants
            && after.requests == if r.phase == Granted then s.requests
                                 else s.requests[id := r.(phase := Refused(RolledBack))]
  {
  }

  /** The row a reservation stores. */
  function Stored(s: State, r: Request): Record {
    Record(s.active, Hmac(s.active, KeyMessage(r.ticket.idempotencyKey)), Hmac(s.active, PayloadMessage(r.payload)),
           r.now, r.now + r.ttl)
  }

  /** What a locking select makes of a request: it waits, finds nothing, renews an expired row, or is refused. */
  lemma SelectAnswers(s: State, id: nat)
    requires id in s.requests && (s.requests[id].phase.Begun? || s.requests[id].phase.Clashed?)
    ensures var r, after := s.requests[id], Next(s, Select(id));
            var put := (p: Phase) => s.(requests := s.requests[id := r.(phase := p)]);
            if r.ticket !in s.rows then after == put(if r.phase.Begun? then Absent else Refused(Unavailable))
            else if !Unheld(s, r.ticket) then after == s
            else if s.active !in s.keyring then after == put(Refused(Unavailable))
            else
              var row := s.rows[r.ticket];
              if row.expiresAt <= r.now then after == put(Renewed(Stored(s, r)))
              else if row.hmacKey !in s.keyring then after == put(Refused(KeyUnavailable))
              else if row.keyVerifier != Hmac(row.hmacKey, KeyMessage(r.ticket.idempotencyKey))
              then after == put(Refused(KeyVerifierInvalid))
              else if row.payloadVerifier == Hmac(row.hmacKey, PayloadMessage(r.payload))
              then after == put(Refused(Replay))
              else after == put(Refused(PayloadConflict))
  {
    var r := s.requests[id];
    assert Unheld(s, r.ticket) <==> FreeTicket(s, r.ticket);
  }

  /** An insert waits for a holder, clashes with a committed row, or holds the ticket. */
  lemma InsertAnswers(s: State, id: nat)
    requires id in s.requests && s.requests[id].phase.Absent?
    ensures var r, after := s.requests[id], Next(s, Insert(id));
            var put := (p: Phase) => s.(requests := s.requests[id := r.(phase := p)]);
            if !Unheld(s, r.ticket) then after == s
            else if r.ticket in s.rows then after == put(Clashed)
            else if s.active !in s.keyring then after == put(Refused(Unavailable))
            else after == put(Inserted(Stored(s, r)))
  {
    var r := s.requests[id];
    assert Unheld(s, r.ticket) <==> FreeTicket(s, r.ticket);
  }

  /** Success is answered exactly by the commit of a held row, and that row is then in the table. */
  lemma CommitAnswers(s: State, id: nat)
    requires id in s.requests
    ensures var r, after := s.requests[id], Next(s, Commit(id));
            && id in after.requests
            && (after.requests[id].phase.Granted? <==> r.phase.Granted? || r.phase.Inserted? || r.phase.Renewed?)
            && (r.phase.Inserted? || r.phase.Renewed? ==>
                  && after.rows == s.rows[r.ticket := r.phase.row]
                  && after.grants == s.grants + [Grant(r.ticket, r.payload, r.now, r.now + r.ttl, s.clock)])
            && (!r.phase.Inserted? && !r.phase.Renewed? ==> after == s)
  {
  }

  /** A row is deleted exactly when it has expired and nobody holds it. */
  lemma CleanupAnswers(s: State, t: Ticket)
    ensures Next(s, Cleanup(t)) ==
            if t in s.rows && s.rows[t].expiresAt <= s.clock && Unheld(s, t) then s.(rows := s.rows - {t}) else s
  {
    assert Unheld(s, t) <==> FreeTicket(s, t);
  }
}
