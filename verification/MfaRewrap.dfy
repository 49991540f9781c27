/**
 The `rewrap-mfa-deks` command: one pass over the users with a stored MFA secret
 that moves every envelope from one KEK to another, all or nothing. It runs
 outside any request, where the audit hook of a single rewrap writes nothing and
 so commits nothing half way.
 */
module MfaRewrap {
  import opened Sums
  import opened MfaEnvelope

  datatype UserRow = UserRow(id: nat, secret: Option<Stored>)

  datatype Kind = Unselected | Legacy | OtherKek | Updated | Failed

  datatype Report = Report(scanned: nat, updated: nat, skippedLegacy: nat, skippedOtherKek: nat, failures: nat)

  datatype Preflight = Passed | SameKek | MissingKeyring | MissingSource | MissingTarget

  datatype Outcome = Rejected(why: Preflight) | RolledBack | DryRunDone | Committed

  datatype Command = Command(ring: Keyring, source: string, target: string, dryRun: bool)

  function Check(c: Command): Preflight {
    if c.source == c.target then SameKek
    else if c.ring == map[] then MissingKeyring
    else if c.source !in c.ring then MissingSource
    else if c.target !in c.ring then MissingTarget
    else Passed
  }

  function KindOf(c: Command, row: UserRow): Kind {
    if row.secret.None? then Unselected
    else if !IsEnveloped(row.secret.value) then Legacy
    else if !Loads(row.secret.value) then Failed
    else if KekId(row.secret.value) != c.source then OtherKek
    else if !c.dryRun && RewrapRefused(c.ring, row.secret.value, row.id, c.target, Some(c.source)) then Failed
    else Updated
  }

  function NewRow(c: Command, row: UserRow, nonce: Bytes): UserRow {
    if KindOf(c, row).Updated? && !c.dryRun then
      var r := Rewrap(c.ring, row.secret.value, row.id, c.target, Some(c.source), nonce);
      if r.Ok? then row.(secret := Some(r.value)) else row
    else row
  }

  function NewRows(c: Command, rows: seq<UserRow>, nonces: nat -> Bytes): seq<UserRow> {
    seq(|rows|, i requires 0 <= i < |rows| => NewRow(c, rows[i], nonces(i)))
  }

  /** How many rows are of a kind. */
  function Tally(c: Command, rows: seq<UserRow>, kind: Kind): nat {
    if rows == [] then 0
    else Tally(c, rows[..|rows| - 1], kind) + if KindOf(c, rows[|rows| - 1]) == kind then 1 else 0
  }

  function Counted(n: Report, kind: Kind): Report {
    match kind
    case Unselected => n
    case Legacy => n.(scanned := n.scanned + 1, skippedLegacy := n.skippedLegacy + 1)
    case OtherKek => n.(scanned := n.scanned + 1, skippedOtherKek := n.skippedOtherKek + 1)
    case Updated => n.(scanned := n.scanned + 1, updated := n.updated + 1)
    case Failed => n.(scanned := n.scanned + 1, failures := n.failures + 1)
  }

  /** One turn of the loop: an error of any sort is counted and leaves the row alone. */
  method RewrapOne(c: Command, row: UserRow, nonce: Bytes, before: Report) returns (after: UserRow, n: Report)
    ensures after == NewRow(c, row, nonce)
    ensures n == Counted(before, KindOf(c, row))
  {
    after, n := row, before;
    if row.secret.None? {
      return;
    }
    var stored := row.secret.value;
    n := n.(scanned := n.scanned + 1);
    if !IsEnveloped(stored) {
      n := n.(skippedLegacy := n.skippedLegacy + 1);
    } else if !Loads(stored) {
      n := n.(failures := n.failures + 1);
    } else if KekId(stored) != c.source {
      n := n.(skippedOtherKek := n.skippedOtherKek + 1);
    } else if c.dryRun {
      n := n.(updated := n.updated + 1);
    } else {
      var r := RewrapMfaDek(c.ring, stored, row.id, c.target, Some(c.source), nonce);
      if r.Ok? {
        after := row.(secret := Some(r.value));
        n := n.(updated := n.updated + 1);
      } else {
        n := n.(failures := n.failures + 1);
      }
    }
  }

  lemma {:induction false} EveryRowHasAKind(c: Command, rows: seq<UserRow>)
    ensures |rows| == Tally(c, rows, Unselected) + Counts(c, rows).scanned
  {
    if rows != [] {
      EveryRowHasAKind(c, rows[..|rows| - 1]);
    }
  }

  /** A database session: the rows as last committed, and as this session sees them. */
  class Session {
    var committed: seq<UserRow>
    var working: seq<UserRow>

    constructor (rows: seq<UserRow>)
      ensures committed == rows && working == rows
    {
      committed, working := rows, rows;
    }

    /**
     The counters name every selected row once; the rows change only in a
     committed run, and then all at once; and it commits exactly when no row
     fails, it is not a dry run and the database accepts the commit.
     */
    method RewrapMfaDeks(c: Command, nonces: nat -> Bytes, commitAccepted: bool) returns (outcome: Outcome, n: Report)
      requires working == committed
      modifies this
      ensures working == committed
      ensures committed == if outcome.Committed? then NewRows(c, old(committed), nonces) else old(committed)
      ensures outcome == RunOutcome(c, old(committed), commitAccepted)
      ensures n == RunReport(c, old(committed))
      ensures n.scanned == n.updated + n.skippedLegacy + n.skippedOtherKek + n.failures
      ensures Check(c).Passed? ==> n.scanned == |old(committed)| - Tally(c, old(committed), Unselected)
    {
      n := Report(0, 0, 0, 0, 0);
      var preflight := Check(c);
      if !preflight.Passed? {
        return Rejected(preflight), n;
      }
      var i := 0;
      while i < |working|
        invariant 0 <= i <= |working| == |committed|
        invariant committed == old(committed)
        invariant forall k :: 0 <= k < i ==> working[k] == NewRow(c, committed[k], nonces(k))
        invariant forall k :: i <= k < |working| ==> working[k] == committed[k]
        invariant n == Counts(c, committed[..i])
      {
        assert committed[..i + 1][..i] == committed[..i];
        var row: UserRow;
        row, n := RewrapOne(c, working[i], nonces(i), n);
        working := working[i := row];
        i := i + 1;
      }
      assert committed[..i] == committed;
      EveryRowHasAKind(c, committed);
      if n.failures > 0 || c.dryRun || !commitAccepted {
        working := committed;
        outcome := if n.failures == 0 && c.dryRun then DryRunDone else RolledBack;
      } else {
        assert working == NewRows(c, committed, nonces);
        committed := working;
        outcome := Committed;
      }
    }
  }

  function Counts(c: Command, rows: seq<UserRow>): Report {
    Report(Tally(c, rows, Legacy) + Tally(c, rows, OtherKek) + Tally(c, rows, Updated) + Tally(c, rows, Failed),
           Tally(c, rows, Updated), Tally(c, rows, Legacy), Tally(c, rows, OtherKek), Tally(c, rows, Failed))
  }

  function RunReport(c: Command, rows: seq<UserRow>): Report {
    if Check(c).Passed? then Counts(c, rows) else Report(0, 0, 0, 0, 0)
  }

  function RunOutcome(c: Command, rows: seq<UserRow>, commitAccepted: bool): Outcome {
    if !Check(c).Passed? then Rejected(Check(c))
    else if Tally(c, rows, Failed) > 0 then RolledBack
    else if c.dryRun then DryRunDone
    else if commitAccepted then Committed else RolledBack
  }

  lemma {:induction false} TallyZero(c: Command, rows: seq<UserRow>, kind: Kind)
    ensures Tally(c, rows, kind) == 0 <==> forall i :: 0 <= i < |rows| ==> KindOf(c, rows[i]) != kind
  {
    if rows != [] {
      var most := rows[..|rows| - 1];
      TallyZero(c, most, kind);
      assert forall i :: 0 <= i < |most| ==> rows[i] == most[i];
      if Tally(c, rows, kind) == 0 {
        forall i | 0 <= i < |rows| ensures KindOf(c, rows[i]) != kind {
          assert i < |most| ==> KindOf(c, most[i]) != kind;
        }
      } else if Tally(c, most, kind) > 0 {
        var i :| 0 <= i < |most| && KindOf(c, most[i]) == kind;
        assert KindOf(c, rows[i]) == kind;
      } else {
        assert KindOf(c, rows[|rows| - 1]) == kind;
      }
    }
  }

  /** The rows on which a real run succeeds: envelopes load, and those under the source open for their user. */
  predicate Movable(c: Command, row: UserRow) {
    row.secret.Some? && IsEnveloped(row.secret.value) ==>
      && Loads(row.secret.value)
      && (KekId(row.secret.value) == c.source ==> UnwrapDek(c.ring, row.secret.value.ciphertext.fields, row.id).Ok?)
  }

  /** A real run commits exactly when its preflight passes, every row is movable and the database takes the commit. */
  lemma CommitsIffAllMovable(c: Command, rows: seq<UserRow>, accepted: bool)
    requires !c.dryRun
    ensures RunOutcome(c, rows, accepted).Committed?
            <==> Check(c).Passed? && (forall i :: 0 <= i < |rows| ==> Movable(c, rows[i])) && accepted
  {
    TallyZero(c, rows, Failed);
    if Check(c).Passed? {
      forall i | 0 <= i < |rows| ensures KindOf(c, rows[i]).Failed? <==> !Movable(c, rows[i]) {
      }
    }
  }

  /** A dry run never opens a DEK: it succeeds exactly when every envelope loads. */
  lemma DryRunChecksFormatOnly(c: Command, rows: seq<UserRow>, accepted: bool)
    requires c.dryRun && Check(c).Passed?
    ensures RunOutcome(c, rows, accepted).DryRunDone? <==>
            forall i :: 0 <= i < |rows| ==>
              (rows[i].secret.Some? && IsEnveloped(rows[i].secret.value) ==> Loads(rows[i].secret.value))
  {
    TallyZero(c, rows, Failed);
    forall i | 0 <= i < |rows|
      ensures KindOf(c, rows[i]).Failed? <==>
              !(rows[i].secret.Some? && IsEnveloped(rows[i].secret.value) ==> Loads(rows[i].secret.value))
    {
    }
  }

  /**
   So a dry run can succeed where the real run then rolls everything back: one envelope copied to
   another user is enough.
   */
  lemma DryRunCanMislead(ring: Keyring, source: string, target: string, user: nat, other: nat)
    requires source != target && source in ring && target in ring && user != other
    ensures exists rows ::
              && RunOutcome(Command(ring, source, target, true), rows, true) == DryRunDone
              && RunOutcome(Command(ring, source, target, false), rows, true) == RolledBack
  {
    var s := Encrypt(ring, "secret", user, source, Random(0), Random(1), Random(2)).value;
    EncryptedForOneUser(ring, "secret", user, source, Random(0), Random(1), Random(2), user);
    var rows := [UserRow(other, Some(s))];
    var dry, wet := Command(ring, source, target, true), Command(ring, source, target, false);
    assert !Movable(wet, rows[0]);
    CommitsIffAllMovable(wet, rows, true);
    DryRunChecksFormatOnly(dry, rows, true);
  }

  function Without(ring: Keyring, id: string): Keyring {
    ring - {id}
  }

  function Read(ring: Keyring, row: UserRow, reader: nat): Result<string> {
    if row.secret.None? then Err(NotEnveloped) else Decrypt(ring, row.secret.value, reader)
  }

  /**
   After a committed run the source KEK may be dropped from the ring: every row
   then reads, for every reader, exactly as it did before the run with the source
   KEK still there, and no envelope names the source any more.
   */
  lemma SourceKekCanBeDropped(c: Command, rows: seq<UserRow>, nonces: nat -> Bytes, i: nat, reader: nat)
    requires RunOutcome(c, rows, true).Committed? && i < |rows|
    ensures Read(Without(c.ring, c.source), NewRows(c, rows, nonces)[i], reader) == Read(c.ring, rows[i], reader)
    ensures !WrappedUnder(NewRows(c, rows, nonces)[i], c.source)
    ensures NewRows(c, rows, nonces)[i].id == rows[i].id
  {
    TallyZero(c, rows, Failed);
    var row := rows[i];
    var after := NewRow(c, row, nonces(i));
    assert NewRows(c, rows, nonces)[i] == after;
    assert !KindOf(c, row).Failed?;
    if row.secret.Some? {
      if KindOf(c, row).Updated? {
        RewrapKeepsMeaning(c.ring, row.secret.value, row.id, c.target, Some(c.source), nonces(i), reader);
      }
      OtherKeysDoNotMatter(c.ring, Without(c.ring, c.source), after.secret.value, reader);
    }
  }

  predicate WrappedUnder(row: UserRow, id: string) {
    row.secret.Some? && Loads(row.secret.value) && KekId(row.secret.value) == id
  }

  /** Dropping a KEK is harmless exactly when no row its owner can read is wrapped under it. */
  lemma DropHarmlessIffUnused(ring: Keyring, rows: seq<UserRow>, id: string)
    ensures (forall i :: 0 <= i < |rows| && Read(ring, rows[i], rows[i].id).Ok? ==>
               Read(Without(ring, id), rows[i], rows[i].id) == Read(ring, rows[i], rows[i].id)) <==>
            (forall i :: 0 <= i < |rows| && Read(ring, rows[i], rows[i].id).Ok? ==> !WrappedUnder(rows[i], id))
  {
    forall i | 0 <= i < |rows| && Read(ring, rows[i], rows[i].id).Ok?
      ensures Read(Without(ring, id), rows[i], rows[i].id) == Read(ring, rows[i], rows[i].id)
              <==> !WrappedUnder(rows[i], id)
    {
      if !WrappedUnder(rows[i], id) {
        OtherKeysDoNotMatter(ring, Without(ring, id), rows[i].secret.value, rows[i].id);
      }
    }
  }

  // ----- the preflight and the kinds

  /** The preflight passes exactly with two different KEK ids, both in the ring; and which refusal otherwise. */
  lemma PreflightAnswers(c: Command)
    ensures Check(c) == Passed <==> c.source != c.target && c.source in c.ring && c.target in c.ring
    ensures Check(c) == SameKek <==> c.source == c.target
    ensures Check(c) == MissingKeyring <==> c.source != c.target && |c.ring| == 0
    ensures Check(c) == MissingSource <==> c.source != c.target && |c.ring| > 0 && c.source !in c.ring
    ensures Check(c) == MissingTarget <==> c.source != c.target && c.source in c.ring && c.target !in c.ring
  {
  }

  /** How each row is counted. */
  lemma KindAnswers(c: Command, row: UserRow)
    ensures KindOf(c, row) == Unselected <==> row.secret == None
    ensures KindOf(c, row) == Legacy <==>
            row.secret.Some? && (row.secret.value.nonce != Marker || row.secret.value.ciphertext == Empty)
    ensures KindOf(c, row) == OtherKek <==>
            && row.secret.Some? && IsVersion1(row.secret.value)
            && row.secret.value.ciphertext.fields["kek_id"].text != c.source
    ensures KindOf(c, row) == Updated <==>
            && row.secret.Some? && IsVersion1(row.secret.value)
            && row.secret.value.ciphertext.fields["kek_id"].text == c.source
            && (c.dryRun || c.source == c.target
                || (c.target in c.ring && exists dek :: Wraps(c.ring, row.secret.value.ciphertext.fields, row.id, dek)))
  {
    if row.secret.Some? {
      var s := row.secret.value;
      assert Loads(s) <==> IsVersion1(s);
      RewrapAnswers(c.ring, s, row.id, c.target, Some(c.source), Random(0));
    }
  }
}
