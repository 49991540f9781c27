# SITBank service layer: a model and its proofs

SITBank is a bank whose service layer is a set of state machines over database
rows. This project models the parts where money, credentials or approvals depend
on several calls interleaving correctly, and proves what every run keeps.

| part | files |
|---|---|
| ledger engine: transfers, top-ups, welcome credit, limits, statements | `Ledger`, `TransferRules`, `LedgerInvariants`, `Interleaving`, `TransferRuns`, `Outcomes`, `FrozenSender`, `Timestamps`, `LockOrder`, `Statement`, `PastBalances`, `Calendar` |
| top-up approval across devices | `TopUpApproval` |
| maker-checker actions and manual recovery | `MakerChecker`, `ApprovalRules`, `MakerCheckerRuns` |
| TOTP replay, failure counters, account locks | `TotpReplay`, `FailureCounter`, `PlainFailures`, `AccountLocks` |
| idempotency reservations | `Idempotency`, `StoredTimes` |
| staff invite acceptance | `InviteAcceptance`, `InviteRules`, `InviteRace`, `InviteRaceCounts`, `InviteRaceLimits`, `InviteRaceSafety`, `InviteRaceRuns` |
| MFA secret envelopes and bulk rewrap | `MfaEnvelope`, `MfaRewrap` |

`Sums` holds the sums over a log that the ledger proofs share.

Rows are datatypes; where the source assigns fields in place there is a class whose
methods do the same and are proved equal to a function on rows; whole runs are
sequences of events over those functions. Money is integer cents, a pending amount
is in units of 0.00001, and time is an integer that never goes backwards.

## How the ledger argument goes

`Ledger.Settle` says what the locked section of a transfer does when it runs alone.
`LedgerInvariants` proves what serial runs of settled transfers, top-ups, credits and
row changes keep. `Interleaving` splits each transfer into its lock, check, timestamp and
commit steps, lets any number of them and of other writers run in between, and proves that
every run ends in the database of a serial run (`RunsAreSerializable`), so all serial
results hold of all interleavings. `Outcomes` adds that what callers were told stays true.

When a call succeeds, and on whose authority, is said over rows and inputs alone, without
naming the functions that decide it: in `TransferRules` for one transfer and in `TransferRuns`
for every interleaving, in `ApprovalRules` and `InviteRules` for approvals and invites, and in
the `...Answers` lemmas of the other modules.

## What does not hold

These properties are suggested by the code, its comments or its design, and are false of
the code as it stands. For each there is a theorem over all runs that says exactly when it
does hold, and a lemma with a run (for the dry run, with rows) in which it fails.

- A statement's opening and closing figures are the past balances if and only if neither a top-up
  nor the welcome credit came to the user after that point: top-ups are stored with sender equal to
  recipient and signed negative, and the welcome credit is outside the transaction log
  (`Statement.FiguresRightIffNoLaterCredit`, with the size of the error in
  `FiguresOffByLaterCredits` and a run in `PastBalances.LaterTopUpMisstates`).
- The balance that the timestamps give for an instant is not what the database held at that instant,
  because rows and credits are stamped before they commit: they differ by what was stamped before the
  instant and committed after it. They agree in every continuation if and only if nothing of the user's
  was in flight with its timestamp taken (`PastBalances.TrueBalanceInRuns`,
  `HeldForGoodIffNothingStamped`); in `FinishedMonthChanges` the closing figure of a month changes
  after the month has ended.
- Ascending row locks rule out deadlock between transfers, but the audit chain's advisory lock is
  taken after the user rows by a transfer, and before a user row by a top-up and by any call that only
  writes an audit row about a user (its foreign key locks that row): some schedule deadlocks if and only
  if the owner of a top-up or of such a row takes part in a transfer
  (`LockOrder.CircularWaitIffOwnerTransacts`, `SharedOwnerDeadlocks`).
- A frozen sender can pay: the freeze check is made once, before anything is locked. A commit comes
  from a frozen sender if and only if the last change of the sender's row since that check froze it
  (`FrozenSender.PaysThoughFrozenIff`, `FrozenSenderPays`).
- A credited top-up request can end up stored as expired or failed, because some branches write the
  row without its lock. It stays completed in every continuation if and only if no refused credit
  or overdue poll is about to write and the wrong codes in flight cannot add up to the limit
  (`TopUpApproval.StaysCompletedIffSafe`, `CreditedYetExpired`).
- Wrong top-up codes can go uncounted: all are counted if and only if none was written over another
  counted since its own read (`TopUpApproval.AllCountedIffNeverOverwritten`, `WrongCodesCanBeLost`).
- A used authenticator code is accepted again after the active HMAC key is rotated, or after a stall
  between reading the clock and committing the record. Under one key a delay is safe if and only if
  it is at most one step (`TotpReplay.DelaySafeIffAtMostAStep`, `AcceptedIffNewUnderKey`,
  `RotationAllowsReuse`, `StallAllowsReuse`).
- The failure counter is not the plain streak of failures once keys rotate: it misses what other keys
  recorded and keeps what a clear under another key left behind, and equals the streak if and only
  if the two balance (`PlainFailures.StoredAgainstPlain`; `RotationEscapesTheLock` and
  `RotatingBackLocksEarly` are runs that lock too late and too early).
- A staff unfreeze overtaken by an automatic lock, and nothing else, leaves a lock reason on an account
  that is not frozen; such an account cannot act and is in no release queue
  (`AccountLocks.KeptUnlessOvertaken`, `RaceStrandsTheAccount`).
- An action recorded as failed may have had its effect: if and only if it was retried, after a crash
  between the two commits, when its target no longer allowed the step
  (`MakerChecker.FailedYetEffectiveIffRetriedTooLate`; runs in
  `MakerCheckerRuns.CrashedCompletionReportsFailure` and `CrashedApprovalLapses`).
- A completed, denied or cancelled recovery does not keep its stage: it is overwritten with "expired"
  by exactly one event, a root admin's request about it after its expiry
  (`MakerChecker.SettledUnlessAskedAfterExpiry`, `MakerCheckerRuns.CompletedReadsExpired`).
- Two reservations of one idempotency key are a TTL apart at the second commit
  (`Idempotency.GrantsAreATtlApart`), but not by the creation times stored in the rows. Those are a
  TTL apart unless a deletion strands a waiting request, and after a deletion an early time can be
  stored if and only if it stranded one (`StoredTimes.StoredTimesApartUnlessStranded`,
  `EarlyTimeIffStranded`, `StalledRequestStoresEarlyTime`). A renewal is later than the row it renews
  but not than every row before it (`RenewalsFollowExpiry`, `RenewalCanPrecedeOlderExpiry`).
- The guarantees of an invite hold for calls taken whole (`InviteAcceptance`), but encryption's audit
  row commits in the middle of a start and recording a TOTP result commits in the middle of a verify;
  both drop the row lock, and no check is repeated. With that split:
  - all starts and wrong codes are counted if and only if no call was written over another of its kind
    committed since its own read and no failed first start was cleaned up after a commit
    (`InviteRace.CountedIffNotOverwritten`; in a race whose calls all run to their end, if and only if
    no two of a kind were read before either was written,
    `InviteRaceCounts.FinishedRaceCountedIffNeverCrowded`); runs in
    `InviteRaceRuns.OverlappingStartsGoUncounted`, `OverlappingGuessesGoUncounted` and
    `CleanUpForgetsAStart`;
  - in a race whose calls all run to their end, at most three starts commit if and only if none was
    admitted while three were already committed or in flight, and at most five wrong codes are counted if
    and only if none turned out wrong while five were already counted or read
    (`InviteRaceLimits.LimitsHoldIffNeverOver`); in `CountedYetOverLimit` and
    `GuessesCountedYetOverLimit` any number of calls are all counted and all commit;
  - all starts and activations come from the first start's session if and only if no start from another
    session, admitted while no session was bound, was written after that first commit
    (`InviteRaceSafety.OneSessionIffNeverRebound`, `InviteRaceRuns.SecondBrowserActivates`);
  - an activation rests on the secret and the code of the latest start if and only if no start has
    committed since its TOTP was checked (`InviteRaceSafety.ActivationIsLatestIffNoStartSince`,
    `InviteRaceRuns.MixedActivation`);
  - once the invite is locked or accepted nothing more is committed if and only if no call is in flight
    (`InviteRaceSafety.ShutIffNothingInFlight`, `InviteRaceRuns.StartCommitsAfterLock`).
- A dry run of the bulk rewrap does not open any DEK: it succeeds if and only if every envelope loads,
  a real run if and only if those under the source KEK also open
  (`MfaRewrap.DryRunChecksFormatOnly`, `CommitsIffAllMovable`, `DryRunCanMislead`).

## Assumptions

- A locking read returns the committed row (claimed in comments at
  app/banking/services.py:1395-1397 and 1981-1983), and a commit is atomic.
- HMAC, AES-GCM and hashes are symbolic constructors: equal outputs only for equal keys and
  messages, and a sealed text opens only under what it was sealed with. Random values, the
  clock, mail delivery, audit success and TOTP results of other users are inputs.
- A best-effort audit write commits the open transaction, and rolls it back when it fails
  (app/security/audit.py:203-214). The ledger calls take this as the `auditWritten` input.
- Two locks of one account never carry the same timestamp (`AccountLocks.StampFresh`); they may commit
  in any order.
- In `LockOrder` the key-share lock that a foreign key takes is exclusive; jobs that take it hold the
  audit chain, so it is never contended between them.
- In `MakerChecker` every service call is one step, except for the crash between the inner and
  the outer commit; in `InviteAcceptance` every call is one step, and in `InviteRace` it is its
  gate, its second read and its write, while time, HMAC key and token stand still and no TOTP
  secret is drawn twice.

## Model

| member | source | states |
|---|---|---|
| `Ledger.CentsOf` | app/banking/services.py:1203-1224 | a stored amount is accepted exactly when it is a whole number of cents between 0.01 and 50000, and is then that number |
| `Ledger.RiskNeverLaxer` | app/banking/services.py:1628-1698 | for positive amounts, more money or more usage never gets a laxer risk decision |
| `Ledger.Bank.constructor` | app/models.py:129 | the ledger starts with no rows and no money |
| `Ledger.Bank.ExecuteLocalTransfer` | app/banking/services.py:1369-1450 | the field-by-field call equals preflight, `Settle` and audit; every refusal and the rolled-back case included |
| `Ledger.Bank.ExecutePayupTransfer` | app/banking/services.py:1951-2093 | the same for PayUp, with the risk decision and step-up between usage sum and balance check |
| `Ledger.Bank.Post` | app/banking/services.py:1403-1450 | debit, credit, row and token link, and nothing else |
| `Ledger.Bank.CreditAccountTopUp` | app/banking/services.py:1238-1317 | a frozen or locked owner is refused, a failed required audit rolls the credit back; otherwise one credit and one row with sender equal to recipient |
| `Ledger.Bank.ApplyWelcomeCredit` | app/auth/services.py:332-371 | the credit is given once per user |
| `TransferRules.LocalTransferAnswers` | app/banking/services.py:1369-1450 | refused, rolled back, token burned or money moved, each if and only if: sender not frozen or locked; payee the sender's own and past its cooldown; its account known, another's, active or locked; token the sender's, for this payee, unspent and unexpired; audit written; whole cents in range, within balance and day limit |
| `TransferRules.LocalTransferEffect` | app/banking/services.py:1403-1450 | a refused or rolled-back call changes nothing, a burned one only the token; one that moves writes two balances, one row with the stored amount and the payee's account, one token, and nothing else |
| `TransferRules.LocalRefusalReasons` | app/banking/services.py:1114-1200 | which refusal, as the first failing check: freeze, ownership, account, self, status, cooldown, token, expiry |
| `TransferRules.LocalBurnReasons` | app/banking/services.py:1339-1366 | after the token is consumed: bad amount, then balance, then day limit |
| `TransferRules.RiskAnswers` | app/banking/services.py:1628-1698 | the risk decision for any amount and usage: blocked, allowed or step-up with its reasons |
| `TransferRules.PayupTransferAnswers` | app/banking/services.py:1951-2033 | the four answers of PayUp, each if and only if: sender free and with a nickname; token good; whole cents; recipient active, unfrozen, with a phone and not the sender; signals available and stable, session age known and in bounds, no recent sensitive event, PayUp on, MFA enrolled, caps positive, day limit respected; within both quick caps or authorized; balance suffices |
| `TransferRules.PayupTransferEffect` | app/banking/services.py:2034-2093 | what the call leaves behind, and that the row is marked as stepped up exactly when amount or day total was over a quick cap |
| `TransferRules.PayupRefusalReasons` | app/banking/services.py:1829-1870 | which refusal before the token is consumed |
| `TransferRules.PayupBurnReasons` | app/banking/services.py:1979-2033 | which refusal after it: amount, recipient, risk, missing step-up, balance, in that order |
| `TransferRules.TopUpAnswers` | app/banking/services.py:1238-1317 | a top-up credits exactly the amount asked for, if and only if the owner is neither frozen nor locked and the audit row is written |
| `TransferRules.WelcomeAnswers` | app/auth/services.py:332-371 | 100.00 once, and nothing the second time |
| `LedgerInvariants.UsageIsTheDaysTotal` | app/banking/services.py:1614-1625 | if no row of the sender is later than the sum, the sum since SGT midnight is that day's total and later days are empty |
| `LedgerInvariants.CommitWithinDailyLimit` | app/banking/services.py:1350-1366 | at a commit the sender's total for the row's own SGT day is within the sender's limit, even if midnight falls between sum and timestamp |
| `LedgerInvariants.QuickCommitWithinCap` | app/banking/services.py:1979-2017 | a commit without step-up is within the per-transfer cap and keeps the day's quick total within the quick daily cap |
| `LedgerInvariants.ApplyMovesAsLogged` | app/banking/services.py:1403-1450 | an operation changes balances exactly as the row it appends says, or not at all |
| `LedgerInvariants.ApplyKeepsBalances` | app/banking/services.py:1369-1450 | each operation keeps "balance = welcome credit + top-ups + received - sent" for every account |
| `LedgerInvariants.ApplyKeepsSolvency` | app/models.py:129 | no operation makes a balance negative |
| `LedgerInvariants.ApplyConserves` | app/banking/services.py:1238-1317 | each operation keeps "sum of all balances = all credits ever issued" |
| `LedgerInvariants.ApplyKeepsTokens` | app/banking/services.py:1166-1224 | each operation keeps tokens and transfer rows in one-to-one correspondence, with exact amounts |
| `LedgerInvariants.ApplyKeepsDays` | app/banking/services.py:1815-1826 | each operation keeps all daily totals within the largest permitted limit and all quick totals within their caps |
| `LedgerInvariants.ReplayKeepsBalances` | app/banking/services.py:1951-2093 | in every serial run balances match the log, none is negative and money is conserved |
| `LedgerInvariants.ReplayKeepsTokens` | app/banking/services.py:1829-1870 | in every serial run each token backs at most one transfer |
| `LedgerInvariants.ReplayKeepsDays` | app/banking/services.py:1614-1625 | in every serial run daily totals are within the largest permitted limit and quick totals within their caps |
| `LedgerInvariants.ReplayKeepsOwnLimits` | app/banking/services.py:1350-1366 | in every serial run each transfer left the total of its row's SGT day within the limit its own sender had at that commit |
| `LedgerInvariants.LocalCallIsAnOperation` | app/banking/services.py:1369-1450 | a local transfer call leaves the database alone or is one settled operation |
| `LedgerInvariants.PayupCallIsAnOperation` | app/banking/services.py:1951-2093 | so does a PayUp call |
| `LedgerInvariants.CreditCallsAreOperations` | app/banking/services.py:1238-1317 | so do a top-up and the welcome credit |
| `LedgerInvariants.TransferCallsKeepSound` | app/banking/services.py:1369-1450 | every invariant of the ledger survives any transfer call, whatever it answers |
| `Interleaving.Undisturbed` | app/banking/services.py:1395-1403 | rows read under lock, and the check made on them, stay valid whatever others commit |
| `Interleaving.StepIsSerial` | app/banking/services.py:1381-1450 | a step of a transfer is invisible or is exactly one serial operation |
| `Interleaving.NextKeepsOk` | app/banking/services.py:1073-1087 | every event keeps lock exclusion and the guarantees of all sessions in flight |
| `Interleaving.RunsAreSerializable` | app/banking/services.py:1369-1450 | every interleaving ends in the database of the serial run of its commits |
| `Interleaving.LedgerSafety` | app/banking/services.py:1951-2093 | in every interleaving balances match the log, none is negative, money is conserved |
| `Interleaving.TokensSpentOnce` | app/banking/services.py:1829-1870 | in every interleaving each pending transfer backs at most one row, of exactly its stored amount |
| `Interleaving.CapsHold` | app/banking/services.py:1628-1698 | in every interleaving daily totals stay within the largest permitted limit and quick totals within their caps |
| `Interleaving.CommitsRespectTheLimit` | app/banking/services.py:1979-2033 | at each commit of any interleaving the sender's channel total for the SGT day of the row's timestamp is within the limit on the sender's row at that moment |
| `Interleaving.EveryCommitWithinItsLimit` | app/banking/services.py:1350-1406 | in every interleaving each committed transfer of its history left the day's total within the limit its sender had at that commit |
| `Interleaving.OnlyRowsMoveMoney` | app/banking/services.py:1090-1111 | in every run, an event that appends no row changes no balance except by a welcome credit |
| `TransferRuns.BeginsIff` | app/banking/services.py:1381-1386 | a transfer passes its unlocked checks if and only if sender, payee, cooldown and nickname allow it |
| `TransferRuns.ConsumesIff` | app/banking/services.py:1166-1224 | it passes its token if and only if the token is good, the amount whole and the recipient can receive |
| `TransferRuns.ChecksIff` | app/banking/services.py:1339-1366 | it passes its checks if and only if balance, limit and, for PayUp, risk policy and step-up allow it |
| `TransferRuns.ConsumeReasons` | app/banking/services.py:1829-1940 | which refusal a session gets at its token, each if and only if |
| `TransferRuns.CheckReasons` | app/banking/services.py:1979-2033 | which refusal it gets at its checks, each if and only if |
| `TransferRuns.AnsweredForGood` | app/banking/services.py:1369-1450 | in every continuation a call that was answered keeps its answer |
| `TransferRuns.StampsIff` | app/banking/services.py:1249-1270 | a credit goes ahead if and only if the user's row is free and allows it |
| `TransferRuns.LocalRowsRestOnPayees` | app/banking/services.py:1154-1162 | in every interleaving, with payees added and removed at any time, each local row went to the account of a payee its sender owns, stamped no earlier than the cooldown after the payee was added |
| `TransferRuns.PayupRowWasAllowed` | app/banking/services.py:1979-2017 | an operation that appends a PayUp row passed the risk policy and, over a quick cap, was authorized |
| `TransferRuns.OverCapRowsWereAuthorized` | app/banking/services.py:2006-2017 | in every interleaving each PayUp row comes from an operation of the history that passed the risk policy; one over a quick cap, by amount or by the total of its SGT day, comes from an authorized call |
| `Interleaving.AscendingLocks` | app/banking/services.py:1073-1087 | pending row first, then the two user rows in ascending id |
| `Interleaving.NoCircularWait` | app/banking/services.py:1174-1183 | while a transfer is unfinished, some unfinished transfer is not waiting |
| `Interleaving.SchedulesAreBounded` | app/banking/services.py:1974-1979 | no schedule of effective steps is longer than the work in flight |
| `Interleaving.EveryTransferCanFinish` | app/banking/services.py:1387-1392 | from every reachable state all transfers can be driven to an outcome |
| `Timestamps.RunAddsLaterOrInFlight` | app/banking/services.py:1405-1450 | in every run, rows and welcome credits are only added, and each was stamped since a point or was already in flight with its stamp at that point |
| `Outcomes.StepReportsTruly` | app/banking/services.py:1166-1224 | a step that burns or moves found the token unspent and leaves it as reported; any other step changes nothing |
| `Outcomes.ReportsStayTrue` | app/banking/services.py:1403-1450 | in every run a reported transfer stays in the log with its token's exact amount, and a burned token moved nothing |
| `Outcomes.OneSpenderPerToken` | app/banking/services.py:1829-1870 | in every run at most one of the calls that share a token spends it |
| `Outcomes.RefusalsChangeNothing` | app/banking/services.py:1381-1392 | in every run a call refused before consumption, or rolled back, leaves the database as it was |
| `FrozenSender.FrozenIffChangedSince` | app/banking/services.py:555-558 | in every run a session's sender is frozen exactly when the last change of the row since its preflight froze it |
| `FrozenSender.PaysThoughFrozenIff` | app/banking/services.py:1381-1392 | a commit comes from a frozen sender if and only if such a change followed the preflight |
| `FrozenSender.FrozenSenderPays` | app/banking/services.py:1381-1392 | a run in which a frozen sender's transfer commits |
| `LockOrder.SharedOwnerDeadlocks` | app/banking/routes.py:1375-1376 | a transfer and a top-up, or an audit row, of one of its parties reach a circular wait through the audit chain |
| `LockOrder.DisjointOwnersAreSafe` | app/security/audit.py:618-624 | without a shared party no reachable state has a circular wait |
| `LockOrder.CircularWaitIffOwnerTransacts` | app/security/audit.py:189-211 | some schedule deadlocks if and only if the owner of a top-up or of an audit row is in one of the transfers |
| `LockOrder.ActAnswers` | app/security/audit.py:618-624 | a job moves on if and only if no other has taken its next lock; one that has all its locks can only end |
| `Calendar.SgtDayStartUtc` | app/banking/services.py:1517-1525 | the start of the SGT day that holds the instant, as UTC |
| `Calendar.SinceDayStart` | app/banking/services.py:1614-1625 | "since the day start" means "not on an earlier SGT day" |
| `Calendar.AdjacentPeriod` | app/banking/routes.py:1546-1548 | the period that many months away, forward or back |
| `Calendar.SteppingComposes` | app/banking/routes.py:1546-1548 | period steps add up, and stepping back undoes stepping forward |
| `Calendar.AddDaysOrdinal` | app/banking/services.py:1528-1532 | adding n calendar days adds n to the day number, across month, year and leap boundaries |
| `Calendar.FourDaysAfterThe28th` | app/banking/services.py:1528-1532 | day 28 plus four days is in the following month, every year |
| `Calendar.MonthEndsWhereNextBegins` | app/banking/services.py:1528-1532 | a month ends where the next begins and lasts exactly its number of days |
| `Calendar.MonthsTile` | app/banking/services.py:1528-1532 | every instant lies in exactly one SGT month |
| `Calendar.DayStarts` | app/banking/services.py:1517-1525 | SGT days start at 16:00 UTC and last 24 hours |
| `Statement.SignedNetAmount` | app/banking/services.py:1535-1552 | the loop computes the signed sum over the open-ended interval |
| `Statement.PeriodNet` | app/banking/services.py:1579-1603 | the loop computes the signed sum of the completed rows and lists all rows of the period |
| `Statement.StatementForPeriod` | app/banking/services.py:1555-1603 | which error for which period, and otherwise the derived figures |
| `Statement.ListedRows` | app/banking/services.py:1579-1592 | the listed rows are the log's rows at rising positions, exactly those whose sender or recipient is the user and whose time is in the period, completed or not |
| `Statement.FiguresAgreeWithList` | app/banking/services.py:1579-1603 | opening plus the signed completed rows of the list is closing |
| `Statement.WorkedBackBalance` | app/banking/services.py:1579-1603 | working back overshoots the past balance by twice the later top-ups and by a later welcome credit |
| `Statement.FiguresOffByLaterCredits` | app/banking/services.py:1535-1552 | in every run, opening and closing figures are the true balances plus twice the later top-ups plus a later welcome credit |
| `Statement.FiguresRightIffNoLaterCredit` | app/banking/services.py:1298-1299 | each figure is right if and only if neither a top-up nor the welcome credit came to the user from its instant on |
| `PastBalances.LaterTopUpMisstates` | app/banking/services.py:1579-1603 | a run in which a later top-up makes the closing figure wrong |
| `Statement.MonthsChain` | app/banking/services.py:1568-1603 | from one snapshot, each month closes where the next opens |
| `PastBalances.TrueBalanceIsHeldPlusLate` | app/banking/services.py:1405-1450 | the true balance at an instant is what a database then held plus what was stamped before it and added later |
| `PastBalances.TrueBalanceInRuns` | app/banking/services.py:1249-1300 | the same in every run: nothing is held before an account is open, and no credit before it is given |
| `PastBalances.HeldForGoodIffNothingStamped` | app/banking/services.py:1405-1450 | in every run, the true balance of an instant agrees in every continuation with what was held when it passed if and only if nothing of the user's was in flight with its timestamp taken |
| `PastBalances.FinishedMonthChanges` | app/banking/services.py:1249-1317 | a run in which the closing figure of a month changes after its end |
| `Statement.TornReadShift` | app/banking/services.py:1568-1603 | a row committed between reading balance and rows shifts the figures by its own signed amount |
| `TopUpApproval.TopUpRequest.constructor` | app/banking/topup_tokens.py:16-33 | a new request is pending, unfailed, and expires one TTL later |
| `TopUpApproval.TopUpRequest.LazilyExpire` | app/banking/topup_tokens.py:76-79 | exactly an overdue pending request becomes expired |
| `TopUpApproval.TopUpRequest.LoadForApproval` | app/banking/topup_tokens.py:36-59 | found if and only if the verifier matches and the request is pending and not overdue |
| `TopUpApproval.TopUpRequest.RecordWrongCode` | app/banking/routes.py:1351-1356 | counts the wrong code and fails the request at five |
| `TopUpApproval.CreditedAtMostOnce` | app/banking/routes.py:1318-1399 | in every interleaving at most one credit, resting on a locked reload made before expiry |
| `TopUpApproval.SettledForGood` | app/banking/routes.py:1370-1384 | once expired, failed or completed, never pending and never credited again |
| `TopUpApproval.CreditNeedsOwnerAndCode` | app/banking/routes.py:1318-1409 | in every run an attempt that credits had an eligible owner checked under the row's lock and then gave a right code |
| `TopUpApproval.LoadAnswers` | app/banking/topup_tokens.py:36-59 | a locked load, first or second, goes on if and only if the request is pending and not overdue |
| `TopUpApproval.OwnerAnswers` | app/banking/routes.py:1402-1409 | an attempt goes on with an active customer who is neither frozen nor locked, and fails the request otherwise |
| `TopUpApproval.CodeAnswers` | app/banking/routes.py:1340-1358 | what a right and a wrong code make of an attempt, with and without the lock |
| `TopUpApproval.WriteAnswers` | app/banking/routes.py:1351-1386 | who credits, fails or expires the request, and that the fifth wrong code fails it |
| `TopUpApproval.PeekAnswers` | app/banking/topup_tokens.py:62-79 | a poll goes on to write if and only if it saw the request pending and overdue |
| `TopUpApproval.StaysCompletedIffSafe` | app/banking/routes.py:1351-1386 | the stored status stays "completed" in every continuation if and only if nobody is about to mark it failed or expired and the wrong codes in flight cannot add up to five |
| `TopUpApproval.CreditedYetExpired` | app/banking/topup_tokens.py:62-79 | a run in which the request is credited and ends up stored as expired |
| `TopUpApproval.AllCountedIffNeverOverwritten` | app/banking/routes.py:1351-1358 | in every run the stored count is the number of wrong codes counted if and only if none was written over another counted since its own read |
| `TopUpApproval.WrongCodesCanBeLost` | app/banking/routes.py:1351-1358 | a run in which two wrong codes are counted once |
| `MakerChecker.RecoveryRecord.ExpireIfStale` | app/auth/password_reset.py:804-818 | exactly an open, overdue request expires |
| `MakerChecker.RecoveryRecord.TransitionTo` | app/auth/password_reset.py:472-517 | stale, unchanged, forbidden and allowed transitions |
| `MakerChecker.RecoveryRecord.CompleteRequest` | app/auth/password_reset.py:520-592 | completion and the MFA reset happen together, from "approved" only |
| `MakerChecker.ExpireRequests` | app/auth/password_reset.py:595-629 | exactly the stale records that pass the identifier filter, up to the batch limit, expire; the rest are untouched, and the count is theirs |
| `MakerChecker.ResetNeedsReviewAndTwoPairs` | app/admin/services.py:2962-3054 | in every run a reset happened once, after a review, an approval by two people and a completion by two people, in order and before expiry |
| `MakerChecker.ExecutedActionsAreSound` | app/admin/services.py:3085-3154 | an action becomes executed only by its approval from a different, active root admin with a right code, with an active root requester, unexpired and unchanged since creation |
| `ApprovalRules.ApproveAnswers` | app/admin/services.py:3085-3154 | an approval times out, executes or fails the action, each if and only if said over status, expiry, seal, both admins, the code and the target's stage |
| `ApprovalRules.RejectAnswers` | app/admin/services.py:3157-3206 | a rejection takes effect if and only if by another active root admin than the requester, with a right code, in time and on an unchanged row |
| `ApprovalRules.WithdrawAnswers` | app/admin/services.py:3209-3256 | a withdrawal if and only if by the requester, with a right code, in time and on an unchanged row |
| `ApprovalRules.SweepAnswers` | app/admin/services.py:3586-3644 | exactly pending actions past their expiry time out |
| `ApprovalRules.SweepRecoveryAnswers` | app/auth/password_reset.py:804-818 | exactly open requests past their expiry expire |
| `ApprovalRules.SweptIff` | app/auth/password_reset.py:595-629 | the batch sweep takes a record if and only if it is open, overdue, of the wanted identifier, and fewer such records precede it than the limit, which is at least one |
| `ApprovalRules.CrashAnswers` | app/admin/services.py:3391-3456 | a crash between the commits leaves the request as the finished call would and the action as if not approved |
| `ApprovalRules.AskAnswers` | app/admin/services.py:3344-3390 | an action is created if and only if by an active root admin with a right code, separate from the customer, about an open request in the right stage; it is sealed and expires a day later |
| `ApprovalRules.ReviewAnswers` | app/admin/services.py:2962-3054 | a review starts if and only if by a root admin with a right code, separate from the customer, on a submitted request in time |
| `ApprovalRules.TransitionAnswers` | app/auth/password_reset.py:98-122 | a stage changes if and only if the request is open and not overdue and moves onward, expires, is cancelled, or is denied before approval |
| `ApprovalRules.StepEffect` | app/admin/services.py:3391-3456 | what a successful step leaves on the request: stage, one reset exactly for a completion, and who decided |
| `ApprovalRules.DecisionsCarryACode` | app/admin/services.py:3085-3256 | in every run an action changes status only by time-out or by an active root admin's decision on it with a right code |
| `ApprovalRules.DecisionBehind` | app/admin/services.py:3085-3256 | in every run each executed, failed, rejected or withdrawn action was so decided by one event of the run: an active root admin's with a right code, on an unchanged row, by the requester exactly if withdrawn |
| `ApprovalRules.StageChangesCarryACode` | app/admin/services.py:2962-3054 | in every run a recovery changes only by the sweep after its expiry or by a root admin's call with a right code |
| `MakerChecker.RunKeepsSeals` | app/admin/services.py:3647-3674 | in every run a seal found on a row was issued over what the row it names was created with |
| `MakerChecker.SettledActionsStay` | app/admin/services.py:3561-3644 | all five non-pending states are absorbing |
| `MakerChecker.EffectAtMostOnce` | app/admin/services.py:3391-3456 | in every run an action has its effect at most once, across crashes and retries |
| `MakerChecker.FailedYetEffectiveIffRetriedTooLate` | app/admin/services.py:3537-3558 | in every run an action is recorded as failed although it had its effect if and only if it was retried, after a crash, when its target no longer allowed the step |
| `MakerCheckerRuns.CrashedCompletionReportsFailure` | app/admin/services.py:3436-3456 | a run with a completion that resets, crashes and is then recorded as failed |
| `MakerCheckerRuns.CrashedApprovalLapses` | app/admin/services.py:3411-3433 | a run with an approval that crashes, whose request lapses before the retry |
| `MakerChecker.SettledUnlessAskedAfterExpiry` | app/admin/services.py:4482-4545 | in every run the only event that changes the stage of a completed, denied or cancelled recovery is a request about it after its expiry, by a root admin who is not the customer in person, which makes it expired |
| `MakerCheckerRuns.CompletedReadsExpired` | app/admin/services.py:4482-4505 | a run in which a completed recovery reads as expired |
| `TotpReplay.Search` | app/auth/services.py:1719-1729 | the first non-negative step of the window whose code matches, or none matches |
| `TotpReplay.AcceptedTotpStep` | app/auth/services.py:1719-1729 | the loop over offsets finds that step |
| `TotpReplay.SharedScopeSharedWindow` | app/auth/services.py:1704-1716 | all scopes that share a replay scope have the same window |
| `TotpReplay.ScopesShared` | app/auth/services.py:1704-1716 | two scopes share replays if and only if they are equal or both high-risk |
| `TotpReplay.NoMatchAnswers` | app/auth/services.py:1659-1669 | a code that matches no step of the window is refused and stores nothing |
| `TotpReplay.MatchAnswers` | app/auth/services.py:1670-1701 | a matching code is accepted and stored, or refused as replayed, exactly by whether its key is in the table |
| `TotpReplay.FoundInTime` | app/auth/services.py:1680-1687 | a record made for a code outlasts every instant at which that code can be found |
| `TotpReplay.AcceptedIffNewUnderKey` | app/auth/services.py:1650-1701 | a matching code is accepted if and only if it was not already accepted in this scope under the active key |
| `TotpReplay.NoReplayWithoutRotation` | app/models.py:436-444 | in every run whose records are committed within one step of reading the clock, with expired records deleted at any time, two acceptances of one code in one scope are under different keys |
| `TotpReplay.DelaySafeIffAtMostAStep` | app/auth/services.py:1670-1695 | for every configuration, a delay between reading the clock and committing rules out replays under one key if and only if it is at most one step |
| `TotpReplay.RotationAllowsReuse` | app/auth/services.py:1675-1679 | a run in which a rotation lets a used code in again |
| `TotpReplay.StallAllowsReuse` | app/auth/services.py:1670-1695 | for every window, a run in which a stall of 31 s does |
| `FailureCounter.CounterRow.RecordFailure` | app/auth/services.py:1490-1523 | a new or lapsed window counts from one; otherwise the count grows and the window moves |
| `FailureCounter.CounterRow.ClearFailures` | app/auth/services.py:1526-1537 | the row is gone |
| `FailureCounter.FailureAnswers` | app/auth/services.py:1490-1523 | a failure counts from one in a new or lapsed window of 900 s and one more otherwise |
| `FailureCounter.LockThreshold` | app/auth/services.py:1559-1576 | three for a customer's password, two for a privileged one, ten for password changes; for MFA at least ten and above the wrong-code limit by more than one |
| `FailureCounter.StreakIsLongest` | app/auth/services.py:1490-1523 | the streak is the length of the longest suffix of failures with gaps under 900 s |
| `FailureCounter.RunRefines` | app/auth/services.py:1490-1537 | in every run the row stored under a key says exactly what the failures recorded under that key say; a deleted row stands for a streak that is over |
| `FailureCounter.FailureCountsTheStreak` | app/auth/services.py:1490-1523 | in every run a failure stores the streak of its key and locks exactly when that reaches the threshold |
| `PlainFailures.StoredAgainstPlain` | app/auth/services.py:1490-1537 | in every run the stored count is the plain streak less what other keys recorded of it plus what a clear under another key left behind; equal if and only if these balance, and locking follows |
| `PlainFailures.RowHistory` | app/auth/services.py:1526-1537 | a key's row stands for what clears under other keys left behind followed by its own share of the recent failures |
| `PlainFailures.RotationEscapesTheLock` | app/auth/services.py:1490-1523 | for every threshold, a run whose plain streak reaches it without a lock |
| `PlainFailures.RotatingBackLocksEarly` | app/auth/services.py:1526-1537 | for every threshold, a run that locks at a plain streak of one |
| `AccountLocks.CustomerAccount.LockUserAccount` | app/auth/services.py:1540-1556 | freeze, lock time and reason are set together |
| `AccountLocks.CustomerAccount.FreezeOwnAccount` | app/auth/services.py:777-800 | only an account that can act is frozen, and it then is in the staff queue |
| `AccountLocks.CustomerAccount.FreezeAsStaff` | app/admin/services.py:1394-1506 | only an unfrozen, active customer account is locked, and it then is in the root-admin queue |
| `AccountLocks.CustomerAccount.UnfreezeAsStaff` | app/admin/services.py:1306-1357 | exactly a freeze without a reason is released, and the account can act |
| `AccountLocks.CustomerAccount.ExecuteSecurityUnlock` | app/admin/services.py:3459-3534 | releases exactly the lock with the expected reason and time |
| `AccountLocks.CheckAnswers` | app/admin/services.py:1394-1506 | which checks admit a freeze or a release to be written later |
| `AccountLocks.UnlockAnswers` | app/admin/services.py:3459-3510 | an unlock takes effect if and only if reason and time are those requested |
| `AccountLocks.RunKeepsInv` | app/auth/services.py:1540-1556 | in every run lock time and reason are both set or both empty, and the lock time is that of the last lock committed |
| `AccountLocks.UnlockClearsItsOwnLock` | app/admin/services.py:3463-3510 | in every run an executed unlock clears the lock it was requested for and leaves an account that can act |
| `AccountLocks.KeptUnlessOvertaken` | app/admin/services.py:1306-1339 | "a reason means frozen" is broken exactly by a staff unfreeze that a lock has overtaken |
| `AccountLocks.KeptInRunsWithoutRace` | app/admin/services.py:1297-1339 | in runs without that race it always holds |
| `AccountLocks.RaceStrandsTheAccount` | app/admin/services.py:1306-1339 | a run that ends with an account that cannot act and is in no queue |
| `AccountLocks.QueuesPartitionBlockedAccounts` | app/admin/services.py:139-143 | in every run the two release queues are disjoint, and a blocked account is in neither exactly when locked for failed password changes or left unfrozen by an overtaken release |
| `AccountLocks.UnfreezeReleases` | app/admin/services.py:1297-1339 | a staff release that no lock has overtaken leaves an account that can act |
| `Idempotency.Reservations.ReserveKey` | app/banking/services.py:829-1001 | succeeds if and only if configuration, audit and expiry allow it; the table changes only then; which refusal a live row gives |
| `Idempotency.SelectAnswers` | app/banking/services.py:932-1001 | what a select makes of a request: absent, waiting, renewed, or which refusal |
| `Idempotency.InsertAnswers` | app/banking/services.py:870-929 | an insert clashes, is refused or holds its row |
| `Idempotency.CommitAnswers` | app/banking/services.py:905-929 | a grant if and only if the request holds a row, and then exactly that row |
| `Idempotency.CleanupAnswers` | app/security/state_cleanup.py:92-97 | exactly an expired row that nobody holds is deleted |
| `Idempotency.RunKeepsInv` | app/banking/services.py:829-929 | in every run each ticket has at most one holder and every live grant has its row |
| `Idempotency.GrantsAreATtlApart` | app/banking/services.py:932-965 | in every run, with rotations, removed keys, racing inserts and deletions, a second grant commits no earlier than the first one's expiry |
| `Idempotency.GrantStaysUntilExpiry` | app/banking/services.py:803-809 | success means a committed reservation that stays in the table until it expires |
| `Idempotency.LiveReservationRefuses` | app/banking/services.py:966-1001 | a request that meets a live reservation, at its first select or after a lost insert, is refused; as a conflict exactly when the payload differs and the key is still there |
| `StoredTimes.StoredTimesApartUnlessStranded` | app/banking/services.py:848-929 | in every run without a stranding deletion the stored creation times are a TTL apart too |
| `StoredTimes.EarlyTimeIffStranded` | app/security/state_cleanup.py:92-97 | after a deletion some continuation stores a time before the deleted row's expiry if and only if the deletion stranded a waiting request |
| `StoredTimes.RenewalsFollowExpiry` | app/banking/services.py:943-957 | in every run a renewal stores a time no earlier than the expiry of the row it renews |
| `StoredTimes.RenewalCanPrecedeOlderExpiry` | app/banking/services.py:943-957 | a run in which a renewal stores a time before an older reservation expired |
| `StoredTimes.StalledRequestStoresEarlyTime` | app/banking/services.py:848-905 | a run in which the stored creation times are closer than a TTL |
| `InviteAcceptance.Invite.StartAcceptance` | app/admin/services.py:3812-3918 | the call in place equals the start step, with refusals, restart limit, mail failure and clean-up |
| `InviteAcceptance.Invite.VerifyAcceptance` | app/admin/services.py:3921-3995 | the call in place equals the verify step, with lapsed setup, replay, wrong codes and activation |
| `InviteAcceptance.Invite.RecordVerifyFailure` | app/admin/services.py:4103-4117 | counts the wrong code and locks at five; uncounted if its audit row cannot be written |
| `InviteAcceptance.Invite.ClearAcceptanceState` | app/admin/services.py:4120-4131 | session, counters, locks and code are cleared, the rest is kept |
| `InviteRules.StartAnswers` | app/admin/services.py:3812-3918 | a start commits if and only if token, expiry, status, locks, session, count, details and user allow it and the mail goes out; and the row it then stores |
| `InviteRules.FailedStartAnswers` | app/admin/services.py:3902-3918 | what every other start leaves behind |
| `InviteRules.VerifyAnswers` | app/admin/services.py:3921-3995 | an activation if and only if the invite is open and unlocked, the session bound, the setup of the latest start young enough and of this key, the TOTP right, the mailed code right and unexpired; a wrong code is counted if and only if only the codes fail; and the row each leaves |
| `InviteRules.QuietVerifyAnswers` | app/admin/services.py:3938-3955 | what a verify without an entry leaves: a lapsed setup is discarded |
| `InviteRules.ResetAnswers` | app/admin/services.py:2807-2914 | a root action resets or reissues exactly an open invite whose account is not active |
| `InviteRules.ActivationIsInTime` | app/admin/services.py:4431-4448 | in every run of calls taken whole an activation happens before the last issue plus the invite's lifetime, before the latest start plus the code's, within the setup's age of that start, and under the keys of both |
| `InviteRules.EveryActivationWasInTime` | app/admin/services.py:3956-3991 | every activation in the log of such a run was made by a verify of the run, in that time |
| `InviteAcceptance.NextKeepsCounters` | app/admin/services.py:4134-4147 | every call keeps the counters equal to the log since the last reset; no setup user means zero counters |
| `InviteAcceptance.NextKeepsBinding` | app/admin/services.py:4086-4100 | every call keeps the bound session that of the first start, and secret and code those of the latest |
| `InviteAcceptance.AttemptsBetweenResets` | app/admin/services.py:177-178 | in every run of calls taken whole, between two resets at most three committed starts and five counted wrong codes |
| `InviteAcceptance.ActivationIsBound` | app/admin/services.py:3930-3991 | in every run of calls taken whole, an activation comes from the session of the first start, with secret and code of the latest |
| `InviteAcceptance.LockedUntilReset` | app/admin/services.py:4046-4083 | for calls taken whole, once locked nothing is committed until a root reset; once used, nothing ever |
| `InviteRaceCounts.LimitsHoldWithoutOverlap` | app/admin/services.py:4065-4117 | in every race in which calls of a family do not overlap, abandoned and cleaned-up ones included, starts and wrong codes are counted and stay within three and five |
| `InviteRaceLimits.LimitsHoldIffNeverOver` | app/admin/services.py:4065-4117 | in every race that runs to its end the limits hold if and only if no call passed while committed and in-flight ones had reached the limit |
| `InviteRaceLimits.CountedYetOverLimit` | app/admin/services.py:3875-3901 | for every n, a race in which n starts are all counted and all commit |
| `InviteRaceLimits.GuessesCountedYetOverLimit` | app/admin/services.py:4103-4117 | for every n, a race in which n wrong codes are all counted |
| `InviteRaceRuns.OverlappingStartsGoUncounted` | app/admin/services.py:3875-3901 | for every n, a race in which n starts commit and are counted as one |
| `InviteRaceRuns.OverlappingGuessesGoUncounted` | app/security/rate_limits.py:95-106 | for every n, a race in which n wrong codes are tried and counted as one |
| `InviteRace.UndividedStart` | app/admin/services.py:3812-3901 | a start that nothing overlaps is the service call |
| `InviteRace.UndividedVerify` | app/admin/services.py:3921-3991 | so is a verify |
| `InviteRace.FailAnswers` | app/admin/services.py:4134-4147 | the clean-up of a failed first start leaves a blank pending invite and ends the other calls unless the invite was accepted |
| `InviteRace.CountedIffNotOverwritten` | app/admin/services.py:3882-3887 | in every race the stored counts are the committed starts and wrong codes if and only if no call was written over another of its kind committed since its own read and no start was cleaned up after a commit |
| `InviteRaceCounts.FinishedRaceCountedIffNeverCrowded` | app/admin/services.py:4103-4117 | in every race that runs to its end, if and only if no call was read while another of its kind was read and unwritten |
| `InviteRaceSafety.OneSessionIffNeverRebound` | app/admin/services.py:3875-3885 | in every race all starts and activations come from the first start's session if and only if no start from another session, admitted while no session was bound, was written after that first commit |
| `InviteRaceSafety.ActivationIsLatestIffNoStartSince` | app/admin/services.py:3956-3991 | in every race an activation is written with secret and code of the latest start if and only if no start has committed since its TOTP was checked |
| `InviteRaceSafety.ShutIffNothingInFlight` | app/admin/services.py:3930-3937 | in every race, once locked or accepted, nothing is committed in any continuation if and only if no call is in flight |
| `InviteRaceRuns.SecondBrowserActivates` | app/admin/services.py:3875-3885 | a race in which a session other than the first start's activates the account |
| `InviteRaceRuns.MixedActivation` | app/admin/services.py:3956-3991 | a race in which an activation uses the first start's secret and the second one's code |
| `InviteRaceRuns.StartCommitsAfterLock` | app/admin/services.py:4103-4117 | a race in which a start commits after the lock |
| `InviteRaceRuns.CleanUpForgetsAStart` | app/admin/services.py:4134-4147 | a race in which the clean-up of a failed first start forgets a start that committed meanwhile |
| `MfaEnvelope.RewrapMfaDek` | app/security/crypto.py:114-147 | refused in exactly the listed cases; otherwise only three entries of the envelope change |
| `MfaEnvelope.DecryptAnswers` | app/security/crypto.py:107-112 | a secret comes out if and only if the envelope is a version 1 one whose two layers are sealed for this user, the outer under the KEK it names |
| `MfaEnvelope.RewrapAnswers` | app/security/crypto.py:114-147 | a rewrap succeeds if and only if the envelope is a version 1 one under the source, if named, and its DEK opens for the user |
| `MfaEnvelope.RewrapEffect` | app/security/crypto.py:114-147 | the new envelope names the target and holds the same DEK sealed under it |
| `MfaEnvelope.EncryptedForOneUser` | app/security/crypto.py:73-111 | what is stored decrypts to the secret for its user and fails for every other |
| `MfaEnvelope.RewrapKeepsMeaning` | app/security/crypto.py:114-175 | a rewrap changes no reader's result, and leaves the sealed secret bytes untouched |
| `MfaEnvelope.ChainKeepsMeaning` | app/security/crypto.py:23-32 | the same for every chain of rewraps across keyrings that gain and lose keys |
| `MfaEnvelope.OtherKeysDoNotMatter` | app/security/crypto.py:48-54 | decryption depends on the one key the envelope names |
| `MfaRewrap.RewrapOne` | app/ops/commands.py:592-620 | one turn of the loop: every row falls in one kind, and any error leaves it alone |
| `MfaRewrap.PreflightAnswers` | app/ops/commands.py:790-817 | passes if and only if the two ids differ and both are in the ring; which refusal otherwise |
| `MfaRewrap.KindAnswers` | app/ops/commands.py:588-616 | how each row is counted, over its fields |
| `MfaRewrap.Session.RewrapMfaDeks` | app/ops/commands.py:570-641 | counters add up to the rows scanned; rows change only in a committed run and then all at once; a dry run writes nothing |
| `MfaRewrap.CommitsIffAllMovable` | app/ops/commands.py:621-628 | a real run commits if and only if the preflight passes, every envelope loads and, under the source KEK, opens, and the database takes the commit |
| `MfaRewrap.DryRunChecksFormatOnly` | app/ops/commands.py:608-616 | a dry run succeeds if and only if every envelope loads |
| `MfaRewrap.DryRunCanMislead` | app/ops/commands.py:608-628 | rows on which the dry run succeeds and the real run rolls back |
| `MfaRewrap.SourceKekCanBeDropped` | app/ops/commands.py:788-817 | after a committed run, without the old KEK, every row reads for everybody as it did before with it |
| `MfaRewrap.DropHarmlessIffUnused` | app/ops/commands.py:803-810 | dropping a KEK is harmless if and only if no readable row is wrapped under it |

## Left out

- HTTP routes, forms, templates, e-mails, QR images, audit search and display: plumbing.
- Configuration parsing, database privileges, migrations: settled by reading one branch.
- Session store, rate limiters, audit hash chain, transaction signing, password policy: opaque
  results.
- Overflow of the Numeric(12,2) balance column: a database error that aborts the step.
- Disputes, support tickets, recovery codes, registration codes, root-admin bootstrap, limit-choice
  parsing: smaller state machines of the same kind.
- Lengths of keys and nonces in envelopes, and nonce reuse: AES-GCM is symbolic.
- Rows of payees are added once and removed only without a pending transfer, as the foreign key
  demands (app/models.py:1084); the routes that add and remove them are plumbing.
- Staff-account operations behind the generic admin action: only that they succeed or fail.
- The window between TOTP and recording in a customer unlock request: the request records the lock
  it finds, in one step.
- Root resets in `InviteRace`: a reset deletes the setup user, so the calls in flight fail when they
  write; a first start among them still runs its clean-up, which clears the counters and the session
  of whatever start has followed.
- Invite info and probe limits: read-only or opaque.
- Interleaving.NoCircularWait: pending and user rows only; the audit chain's lock is in `LockOrder`.
- LedgerInvariants.ApplyKeepsDays: states the largest permitted limit for all days, because a sender
  may lower the limit after spending; `LedgerInvariants.CommitWithinDailyLimit` has the sender's own.
- LedgerInvariants.ReplayKeepsDays: the same; the sender's own limit is in `ReplayKeepsOwnLimits`.
- Interleaving.CapsHold: the same; the sender's own limit is in `CommitsRespectTheLimit` and
  `EveryCommitWithinItsLimit`.
- InviteRaceCounts.LimitsHoldWithoutOverlap: a sufficient condition that also covers abandoned calls; the
  exact one, for races that run to their end, is `InviteRaceLimits.LimitsHoldIffNeverOver`.
- TotpReplay.NoReplayWithoutRotation: records committed within one step of reading the clock;
  `DelaySafeIffAtMostAStep` shows that this is the exact bound.
- FailureCounter.RunRefines: the history of one key; the history without keys is in `PlainFailures`.
- FailureCounter.FailureCountsTheStreak: the same.
- InviteAcceptance.AttemptsBetweenResets: calls taken whole; overlapping calls are in `InviteRace`.
- InviteAcceptance.ActivationIsBound: calls taken whole; overlapping calls are in `InviteRaceSafety`.
- InviteAcceptance.LockedUntilReset: calls taken whole; overlapping calls are in `InviteRaceSafety`.
