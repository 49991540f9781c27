/**
 The creation times stored in reservation rows. A request stores the time it read
 before its select, so a request that began before a row expired and is still
 waiting when that row is deleted will store a time from before the expiry. This
 is the only way two stored times can be closer than a TTL.
 */
module StoredTimes {
  import opened Sums
  import opened Idempotency

  /** A request that may still insert a row of its own. */
  predicate Waiting(r: Request) {
    r.phase.Begun? || r.phase.Absent?
  }

  predicate Deletes(s: State, t: Ticket) {
    t in s.rows && s.rows[t].expiresAt <= s.clock && FreeTicket(s, t)
  }

  predicate Stranded(s: State, t: Ticket, id: nat, expiry: int) {
    id in s.requests && s.requests[id].ticket == t && Waiting(s.requests[id]) && s.requests[id].now < expiry
  }

  /** A deletion that leaves behind a waiting request begun before the deleted row expired. */
  ghost predicate Strands(s: State, e: Event) {
    e.Cleanup? && Deletes(s, e.ticket) && exists id :: Stranded(s, e.ticket, id, s.rows[e.ticket].expiresAt)
  }

  // ----- without a stranding deletion

  /** What a request in flight knows of an earlier grant of its ticket. */
  predicate Knows(rows: map<Ticket, Record>, r: Request, g: Grant) {
    g.ticket == r.ticket ==>
      && (r.phase.Renewed? ==> g.expiresAt <= r.now)
      && (g.ticket !in rows && (Waiting(r) || r.phase.Inserted?) ==> g.expiresAt <= r.now)
  }

  ghost predicate AllKnow(s: State) {
    forall id, i :: id in s.requests && 0 <= i < |s.grants| ==> Knows(s.rows, s.requests[id], s.grants[i])
  }

  /** The row in the table expires last of all its ticket's grants. */
  ghost predicate RowsLast(s: State) {
    forall i :: 0 <= i < |s.grants| && s.grants[i].ticket in s.rows ==>
      s.grants[i].expiresAt <= s.rows[s.grants[i].ticket].expiresAt
  }

  ghost predicate TtlsSane(s: State) {
    forall id :: id in s.requests && !s.requests[id].phase.Refused? ==> s.requests[id].ttl > 0
  }

  ghost predicate StoredApart(grants: seq<Grant>) {
    forall i, j :: 0 <= i < j < |grants| && grants[i].ticket == grants[j].ticket ==>
      grants[i].expiresAt <= grants[j].createdAt
  }

  lemma NextKeepsTtls(s: State, e: Event)
    requires TtlsSane(s)
    ensures TtlsSane(Next(s, e))
  {
  }

  lemma CommitAdds(s: State, e: Event)
    requires RequestsOk(s) && |Next(s, e).grants| != |s.grants|
    ensures e.Commit? && e.id in s.requests && Holding(s.requests[e.id], s.requests[e.id].ticket)
    ensures var r := s.requests[e.id];
            && Next(s, e).grants == s.grants + [Grant(r.ticket, r.payload, r.now, r.now + r.ttl, s.clock)]
            && Next(s, e).rows == s.rows[r.ticket := r.phase.row] && r.phase.row.expiresAt == r.now + r.ttl
            && (r.phase.Inserted? ==> r.ticket !in s.rows)
  {
    assert RequestOk(s, s.requests[e.id]);
  }

  /** A holder that commits read its time after every earlier grant of its ticket expired. */
  lemma HolderKnows(s: State, id: nat, i: nat)
    requires RequestsOk(s) && AllKnow(s) && id in s.requests && i < |s.grants|
    requires Holding(s.requests[id], s.requests[id].ticket) && s.grants[i].ticket == s.requests[id].ticket
    ensures s.grants[i].expiresAt <= s.requests[id].now
  {
    assert RequestOk(s, s.requests[id]) && Knows(s.rows, s.requests[id], s.grants[i]);
  }

  lemma NextKeepsApart(s: State, e: Event)
    requires RequestsOk(s) && AllKnow(s) && StoredApart(s.grants)
    ensures StoredApart(Next(s, e).grants)
  {
    if |Next(s, e).grants| != |s.grants| {
      CommitAdds(s, e);
      forall i | 0 <= i < |s.grants| && s.grants[i].ticket == s.requests[e.id].ticket
        ensures s.grants[i].expiresAt <= s.requests[e.id].now
      {
        HolderKnows(s, e.id, i);
      }
    }
  }

  lemma NextKeepsRowsLast(s: State, e: Event)
    requires RequestsOk(s) && AllKnow(s) && RowsLast(s) && TtlsSane(s)
    ensures RowsLast(Next(s, e))
  {
    if |Next(s, e).grants| != |s.grants| {
      CommitAdds(s, e);
      forall i | 0 <= i < |s.grants| && s.grants[i].ticket == s.requests[e.id].ticket
        ensures s.grants[i].expiresAt <= s.requests[e.id].now
      {
        HolderKnows(s, e.id, i);
      }
    }
  }

  lemma NextKeepsKnowing(s: State, e: Event, id: nat, i: nat)
    requires Inv(s) && AllKnow(s) && RowsLast(s) && TtlsSane(s) && !Strands(s, e)
    requires id in Next(s, e).requests && i < |s.grants|
    ensures Knows(Next(s, e).rows, Next(s, e).requests[id], s.grants[i])
  {
    var g := s.grants[i];
    assert GrantOk(s, g);
    if id in s.requests {
      assert Knows(s.rows, s.requests[id], g) && RequestOk(s, s.requests[id]);
    }
    if e.Cleanup? && Deletes(s, e.ticket) && e.ticket == g.ticket {
      assert !Stranded(s, e.ticket, id, s.rows[e.ticket].expiresAt);
    }
  }

  lemma NextKeepsAllKnow(s: State, e: Event)
    requires Inv(s) && AllKnow(s) && RowsLast(s) && TtlsSane(s) && !Strands(s, e)
    ensures AllKnow(Next(s, e))
  {
    var after := Next(s, e);
    forall id, i | id in after.requests && 0 <= i < |after.grants|
      ensures Knows(after.rows, after.requests[id], after.grants[i])
    {
      if |after.grants| != |s.grants| {
        CommitAdds(s, e);
      }
      if i < |s.grants| {
        NextKeepsKnowing(s, e, id, i);
      } else {
        OneHolderAtCommit(s, e.id, id);
      }
    }
  }

  lemma OneHolderAtCommit(s: State, id: nat, other: nat)
    requires RequestsOk(s) && id in s.requests && Holding(s.requests[id], s.requests[id].ticket) && other in s.requests
    ensures other != id && s.requests[other].ticket == s.requests[id].ticket ==> !s.requests[other].phase.Renewed?
  {
  }

  ghost predicate NeverStrands(events: seq<Event>) {
    forall n :: 0 <= n < |events| ==> !Strands(Run(events[..n]), events[n])
  }

  /** In every run without a stranding deletion, stored creation times are a TTL apart too. */
  lemma {:induction false} StoredTimesApartUnlessStranded(events: seq<Event>)
    requires NeverStrands(events)
    ensures var s := Run(events); StoredApart(s.grants) && AllKnow(s) && RowsLast(s) && TtlsSane(s)
  {
    if events != [] {
      var before, e := events[..|events| - 1], events[|events| - 1];
      forall n | 0 <= n < |before| ensures !Strands(Run(before[..n]), before[n]) {
        assert before[..n] == events[..n];
      }
      StoredTimesApartUnlessStranded(before);
      var s := Run(before);
      RunKeepsInv(before);
      assert !Strands(s, e);
      NextKeepsApart(s, e);
      NextKeepsRowsLast(s, e);
      NextKeepsAllKnow(s, e);
      NextKeepsTtls(s, e);
    }
  }

  /** In every run a renewal stores a time no earlier than the expiry of the row it renews. */
  lemma RenewalsFollowExpiry(events: seq<Event>, id: nat)
    requires id in Run(events).requests && Run(events).requests[id].phase.Renewed?
    ensures var s := Run(events);
            var after := Next(s, Commit(id));
            && s.requests[id].ticket in s.rows && |after.grants| == |s.grants| + 1
            && after.grants[|s.grants|].createdAt >= s.rows[s.requests[id].ticket].expiresAt
  {
    RunKeepsInv(events);
    assert RequestOk(Run(events), Run(events).requests[id]);
  }

  // ----- and with one

  /** From this many grants on, one of the ticket was created before the expiry. */
  ghost predicate ReservedEarly(s: State, since: nat, t: Ticket, expiry: int) {
    exists j :: since <= j < |s.grants| && s.grants[j].ticket == t && s.grants[j].createdAt < expiry
  }

  predicate OpenLate(r: Request, t: Ticket, expiry: int) {
    r.ticket == t && (Waiting(r) || r.phase.Inserted? || r.phase.Renewed?) ==> expiry <= r.now
  }

  /** Nobody in flight can store an early time any more. */
  ghost predicate AllLate(s: State, since: nat, t: Ticket, expiry: int) {
    && expiry <= s.clock && since <= |s.grants| && (t in s.rows ==> expiry <= s.rows[t].expiresAt)
    && (forall id :: id in s.requests ==> OpenLate(s.requests[id], t, expiry))
    && !ReservedEarly(s, since, t, expiry)
  }

  lemma NextKeepsLate(s: State, e: Event, since: nat, t: Ticket, expiry: int)
    requires RequestsOk(s) && TtlsSane(s) && AllLate(s, since, t, expiry)
    ensures AllLate(Next(s, e), since, t, expiry)
  {
    var after := Next(s, e);
    if |after.grants| != |s.grants| {
      CommitAdds(s, e);
      assert OpenLate(s.requests[e.id], t, expiry);
    }
    forall id | id in after.requests ensures OpenLate(after.requests[id], t, expiry) {
      assert id in s.requests ==> OpenLate(s.requests[id], t, expiry) && RequestOk(s, s.requests[id]);
    }
  }

  lemma {:induction false} LateForGood(events: seq<Event>, more: seq<Event>, since: nat, t: Ticket, expiry: int)
    requires AllLate(Run(events), since, t, expiry)
    ensures AllLate(Run(events + more), since, t, expiry)
  {
    if more == [] {
      assert events + more == events;
    } else {
      var rest, e := more[..|more| - 1], more[|more| - 1];
      LateForGood(events, rest, since, t, expiry);
      assert (events + more)[..|events + more| - 1] == events + rest;
      RunKeepsInv(events + rest);
      RunTtlsSane(events + rest);
      NextKeepsLate(Run(events + rest), e, since, t, expiry);
    }
  }

  lemma {:induction false} RunTtlsSane(events: seq<Event>)
    ensures TtlsSane(Run(events))
  {
    if events != [] {
      RunTtlsSane(events[..|events| - 1]);
      NextKeepsTtls(Run(events[..|events| - 1]), events[|events| - 1]);
    }
  }

  lemma RunStep(first: seq<Event>, e: Event)
    ensures Run(first + [e]) == Next(Run(first), e)
  {
    assert (first + [e])[..|first|] == first;
  }

  /** The state once a request has reserved its ticket, with the time it read at its start. */
  function Reserved(s: State, id: nat): State
    requires id in s.requests
  {
    var r := s.requests[id];
    s.(rows := s.rows[r.ticket := Reserve(r.ticket, r.payload, s.active, r.now, r.ttl)],
       requests := s.requests[id := r.(phase := Granted)], keyring := s.keyring + {s.active},
       grants := s.grants + [Grant(r.ticket, r.payload, r.now, r.now + r.ttl, s.clock)])
  }

  /** A waiting request whose ticket has no row can reserve it. */
  lemma WaitingRequestReserves(events: seq<Event>, id: nat) returns (more: seq<Event>)
    requires var s := Run(events);
             id in s.requests && Waiting(s.requests[id]) && s.requests[id].ticket !in s.rows
               && FreeTicket(s, s.requests[id].ticket)
    ensures Run(events + more) == Reserved(Run(events), id)
  {
    var s := Run(events);
    var keyed := events + [Rotate(s.active)];
    RunStep(events, Rotate(s.active));
    var selected := keyed + [Select(id)];
    RunStep(keyed, Select(id));
    var ready := Run(selected);
    assert ready == s.(keyring := s.keyring + {s.active},
           requests := s.requests[id := s.requests[id].(phase := Absent)]);
    assert FreeTicket(ready, s.requests[id].ticket);
    InsertAndCommit(selected, id);
    more := [Rotate(s.active), Select(id), Insert(id), Commit(id)];
    assert events + more == selected + [Insert(id)] + [Commit(id)];
    assert Reserved(ready, id).requests == Reserved(s, id).requests;
  }

  lemma InsertAndCommit(events: seq<Event>, id: nat)
    requires var s := Run(events);
             && id in s.requests && s.requests[id].phase.Absent? && s.requests[id].ticket !in s.rows
             && FreeTicket(s, s.requests[id].ticket) && s.active in s.keyring
    ensures Run(events + [Insert(id)] + [Commit(id)]) == Reserved(Run(events), id)
  {
    var s := Run(events);
    RunStep(events, Insert(id));
    RunStep(events + [Insert(id)], Commit(id));
    assert s.keyring + {s.active} == s.keyring;
  }

  /**
   In every run, after a row is deleted some continuation reserves its ticket with
   a time before the deleted row's expiry if and only if the deletion stranded a
   waiting request.
   */
  lemma EarlyTimeIffStranded(events: seq<Event>, t: Ticket)
    requires Deletes(Run(events), t)
    ensures var s := Run(events);
            (exists more :: ReservedEarly(Run(events + [Cleanup(t)] + more), |s.grants|, t, s.rows[t].expiresAt))
            <==> Strands(s, Cleanup(t))
  {
    var s := Run(events);
    var expiry := s.rows[t].expiresAt;
    var deleted := events + [Cleanup(t)];
    RunStep(events, Cleanup(t));
    if Strands(s, Cleanup(t)) {
      var id :| Stranded(s, t, id, expiry);
      var more := WaitingRequestReserves(deleted, id);
      assert Run(deleted + more).grants[|s.grants|].createdAt < expiry;
      assert ReservedEarly(Run(deleted + more), |s.grants|, t, expiry);
    } else {
      forall more ensures !ReservedEarly(Run(deleted + more), |s.grants|, t, expiry) {
        NothingStranded(events, t);
        LateForGood(deleted, more, |s.grants|, t, expiry);
      }
    }
  }

  lemma NothingStranded(events: seq<Event>, t: Ticket)
    requires Deletes(Run(events), t) && !Strands(Run(events), Cleanup(t))
    ensures AllLate(Run(events + [Cleanup(t)]), |Run(events).grants|, t, Run(events).rows[t].expiresAt)
  {
    var s := Run(events);
    RunStep(events, Cleanup(t));
    forall id | id in s.requests ensures OpenLate(s.requests[id], t, s.rows[t].expiresAt) {
      assert !Stranded(s, t, id, s.rows[t].expiresAt) && !Holding(s.requests[id], t);
    }
  }

  // ----- such a run

  lemma {:induction false} TraceExtendsRun(first: seq<Event>, states: seq<State>, more: seq<Event>)
    requires |states| == |more| + 1 && states[0] == Run(first)
    requires forall i :: 0 <= i < |more| ==> Next(states[i], more[i]) == states[i + 1]
    ensures Run(first + more) == states[|more|]
  {
    if more == [] {
      assert first + more == first;
    } else {
      var rest := more[..|more| - 1];
      TraceExtendsRun(first, states[..|more|], rest);
      assert (first + more)[..|first + more| - 1] == first + rest;
    }
  }

  /** One uncontested reservation at time 0, with a second request already begun. */
  lemma FirstReservation(t: Ticket) returns (events: seq<Event>)
    ensures Run(events) == State(map[t := Reserve(t, 5, 0, 0, 60)],
                                 map[1 := Request(t, 5, 0, 60, Granted), 2 := Request(t, 6, 0, 60, Begun)],
                                 {0}, 0, 0, [Grant(t, 5, 0, 60, 0)])
  {
    var a, b := Request(t, 5, 0, 60, Begun), Request(t, 6, 0, 60, Begun);
    var row := Reserve(t, 5, 0, 0, 60);
    events := [Begin(1, t, 5, 60), Select(1), Insert(1), Commit(1), Begin(2, t, 6, 60)];
    var states := [
      State(map[], map[], {0}, 0, 0, []),
      State(map[], map[1 := a], {0}, 0, 0, []),
      State(map[], map[1 := a.(phase := Absent)], {0}, 0, 0, []),
      State(map[], map[1 := a.(phase := Inserted(row))], {0}, 0, 0, []),
      State(map[t := row], map[1 := a.(phase := Granted)], {0}, 0, 0, [Grant(t, 5, 0, 60, 0)]),
      State(map[t := row], map[1 := a.(phase := Granted), 2 := b], {0}, 0, 0, [Grant(t, 5, 0, 60, 0)])];
    assert states[1].requests == map[][1 := a];
    TraceExtendsRun([], states, events);
    assert [] + events == events;
  }

  /**
   By the times stored in the rows, two reservations can be closer than a TTL: a
   request that began early, waited past the first one's expiry and found its row
   deleted stores a creation time before that expiry.
   */
  lemma StalledRequestStoresEarlyTime(t: Ticket) returns (events: seq<Event>)
    ensures !StoredApart(Run(events).grants)
  {
    var begun := FirstReservation(t);
    var stranding := begun + [Tick(60)];
    RunStep(begun, Tick(60));
    var deleted := stranding + [Cleanup(t)];
    RunStep(stranding, Cleanup(t));
    var s := Run(deleted);
    assert t !in s.rows && s.requests[2] == Request(t, 6, 0, 60, Begun) && s.grants == [Grant(t, 5, 0, 60, 0)] by {
      assert FreeTicket(Run(stranding), t);
    }
    var more := WaitingRequestReserves(deleted, 2);
    events := deleted + more;
    GrantsOnlyGrow(deleted, more);
    assert Run(events).grants[0].expiresAt > Run(events).grants[1].createdAt;
  }

  lemma {:induction false} GrantsOnlyGrow(events: seq<Event>, more: seq<Event>)
    ensures Run(events).grants <= Run(events + more).grants
  {
    if more == [] {
      assert events + more == events;
    } else {
      GrantsOnlyGrow(events, more[..|more| - 1]);
      assert (events + more)[..|events + more| - 1] == events + more[..|more| - 1];
    }
  }

  // ----- a renewal is later than the row it renews, but not than every row before

  /** Request 2 began first, at 0; request 1 began at 10 and holds the ticket until 70. */
  lemma TwoBegun(t: Ticket) returns (events: seq<Event>)
    ensures var s := Run(events);
            && s.clock == 10 && s.active in s.keyring && s.rows == map[t := Reserve(t, 5, s.active, 10, 60)]
            && s.requests == map[2 := Request(t, 6, 0, 60, Begun), 1 := Request(t, 5, 10, 60, Granted)]
            && s.grants == [Grant(t, 5, 10, 70, 10)]
  {
    var a, b := Begin(2, t, 6, 60), Begin(1, t, 5, 60);
    assert [] + [a] == [a];
    RunStep([], a);
    RunStep([a], Tick(10));
    RunStep([a] + [Tick(10)], b);
    var begun := [a] + [Tick(10)] + [b];
    var s := Run(begun);
    assert s.requests == map[2 := Request(t, 6, 0, 60, Begun), 1 := Request(t, 5, 10, 60, Begun)] && s.rows == map[];
    var more := WaitingRequestReserves(begun, 1);
    events := begun + more;
  }

  /** Request 3 begins at 62, and at 70 the row is deleted. */
  lemma RowDeleted(t: Ticket) returns (events: seq<Event>)
    ensures var s := Run(events);
            && s.clock == 70 && s.active in s.keyring && s.rows == map[]
            && s.requests == map[2 := Request(t, 6, 0, 60, Begun), 1 := Request(t, 5, 10, 60, Granted),
                                 3 := Request(t, 7, 62, 60, Begun)]
            && s.grants == [Grant(t, 5, 10, 70, 10)]
  {
    var first := TwoBegun(t);
    RunStep(first, Tick(52));
    RunStep(first + [Tick(52)], Begin(3, t, 7, 60));
    var third := first + [Tick(52)] + [Begin(3, t, 7, 60)];
    RunStep(third, Tick(8));
    RunStep(third + [Tick(8)], Cleanup(t));
    var s := Run(third + [Tick(8)]);
    assert FreeTicket(s, t) && s.rows - {t} == map[];
    events := third + [Tick(8)] + [Cleanup(t)];
  }

  /** Request 2 then reserves the ticket with its early time. */
  lemma EarlyRow(t: Ticket) returns (events: seq<Event>)
    ensures var s := Run(events);
            && s.active in s.keyring && t in s.rows && s.rows[t].expiresAt == 60
            && (forall id :: id in s.requests ==> !Holding(s.requests[id], t))
            && 3 in s.requests && s.requests[3] == Request(t, 7, 62, 60, Begun)
            && s.grants == [Grant(t, 5, 10, 70, 10), Grant(t, 6, 0, 60, 70)]
  {
    var before := RowDeleted(t);
    var more := WaitingRequestReserves(before, 2);
    events := before + more;
  }

  /** Request 3 renews that row at a time before the first reservation expired. */
  lemma RenewalCanPrecedeOlderExpiry(t: Ticket) returns (events: seq<Event>)
    ensures var g := Run(events + [Commit(3)]).grants;
            && 3 in Run(events).requests && Run(events).requests[3].phase.Renewed?
            && |g| == 3 && g[0].ticket == g[2].ticket == t && g[2].createdAt < g[0].expiresAt
  {
    var before := EarlyRow(t);
    var s := Run(before);
    assert FreeTicket(s, t);
    RunStep(before, Select(3));
    events := before + [Select(3)];
    RunStep(events, Commit(3));
  }
}
