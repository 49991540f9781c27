/**
 The durable failure counter of one user and scope. The stored row keeps only a
 count and a window end and is looked up by an HMAC of the user under the active
 key; the plain history it stands for is the list of failures since the last
 clear.
 */
module FailureCounter {
  import opened Sums

  const WINDOW := 900
  const AUTH_LOCK_THRESHOLD := 10

  type Key = nat

  datatype Counter = Counter(count: nat, windowEnds: int)

  // ----- the stored row

  function Bumped(stored: Option<Counter>, now: int): Counter {
    if stored.None? || stored.value.windowEnds <= now then Counter(1, now + WINDOW)
    else Counter(stored.value.count + 1, now + WINDOW)
  }

  class CounterRow {
    var stored: Option<Counter>

    constructor ()
      ensures stored == None
    {
      stored := None;
    }

    method RecordFailure(now: int) returns (attempts: nat)
      modifies this
      ensures stored == Some(Bumped(old(stored), now)) && attempts == stored.value.count
    {
      if stored.None? || stored.value.windowEnds <= now {
        stored := Some(Counter(0, now + WINDOW));
      }
      stored := Some(stored.value.(count := stored.value.count + 1, windowEnds := now + WINDOW));
      attempts := stored.value.count;
    }

    method ClearFailures()
      modifies this
      ensures stored == None
    {
      stored := None;
    }
  }

  datatype AccountType = Customer | Staff | Admin | RootAdmin
  datatype Scope = Password | Mfa | PasswordChange

  function LockThreshold(account: AccountType, scope: Scope, wrongCodeLimit: int): (t: int)
    ensures scope == Mfa ==> t > wrongCodeLimit + 1 && t >= 10
    ensures scope == Mfa ==> t == 10 || t == wrongCodeLimit + 2
    ensures scope == PasswordChange ==> t == 10
    ensures scope == Password ==> (account == Customer <==> t == 3) && (account != Customer <==> t == 2)
  {
    match scope
    case Password => if account == Customer then 3 else 2
    case Mfa => if AUTH_LOCK_THRESHOLD > wrongCodeLimit + 2 then AUTH_LOCK_THRESHOLD else wrongCodeLimit + 2
    case PasswordChange => AUTH_LOCK_THRESHOLD
  }

  // ----- the plain history

  datatype Failure = Failure(key: Key, at: int)

  datatype Fact = Failed(key: Key, at: int) | Cleared(key: Key) | ClearedAll

  function Extend(fs: seq<Failure>, f: Fact, key: Key): seq<Failure> {
    if f.Failed? && f.key == key then fs + [Failure(f.key, f.at)]
    else if f.ClearedAll? || (f.Cleared? && f.key == key) then []
    else fs
  }

  /** The failures recorded under a key since it was last cleared. */
  function FailuresSince(history: seq<Fact>, key: Key): seq<Failure> {
    if history == [] then []
    else Extend(FailuresSince(history[..|history| - 1], key), history[|history| - 1], key)
  }

  /** A suffix of k failures in which each follows the one before within the window. */
  predicate CloseSuffix(fs: seq<Failure>, k: nat) {
    k <= |fs| && forall i :: |fs| - k < i < |fs| ==> fs[i].at - fs[i - 1].at < WINDOW
  }

  function Streak(fs: seq<Failure>): nat {
    if |fs| <= 1 then |fs|
    else if fs[|fs| - 1].at - fs[|fs| - 2].at < WINDOW then Streak(fs[..|fs| - 1]) + 1
    else 1
  }

  /** The streak is the length of the longest close suffix. */
  lemma {:induction false} StreakIsLongest(fs: seq<Failure>)
    ensures CloseSuffix(fs, Streak(fs))
    ensures forall k: nat :: CloseSuffix(fs, k) ==> k <= Streak(fs)
  {
    if |fs| > 1 {
      var rest := fs[..|fs| - 1];
      StreakIsLongest(rest);
      forall k: nat | CloseSuffix(fs, k) ensures k <= Streak(fs) {
        if k > 1 {
          assert fs[|fs| - 1].at - fs[|fs| - 2].at < WINDOW;
          assert CloseSuffix(rest, k - 1);
        }
      }
    }
  }

  // ----- runs

  datatype State = State(rows: map<Key, Counter>, activeKey: Key, clock: int, history: seq<Fact>, locks: nat)

  datatype Event = Tick(elapsed: nat) | Fail | Clear | Unlock | Cleanup(key: Key) | Rotate(key: Key)

  function Lookup(s: State): Option<Counter> {
    if s.activeKey in s.rows then Some(s.rows[s.activeKey]) else None
  }

  /** Unlock is the approved release; it deletes password and MFA counters whatever key they were stored under. */
  function Next(threshold: int, s: State, e: Event): State {
    match e
    case Tick(elapsed) => s.(clock := s.clock + elapsed)
    case Fail =>
      var row := Bumped(Lookup(s), s.clock);
      s.(rows := s.rows[s.activeKey := row], history := s.history + [Failed(s.activeKey, s.clock)],
         locks := if row.count >= threshold then s.locks + 1 else s.locks)
    case Clear => s.(rows := s.rows - {s.activeKey}, history := s.history + [Cleared(s.activeKey)])
    case Unlock => s.(rows := map[], history := s.history + [ClearedAll])
    case Cleanup(key) =>
      if key in s.rows && s.rows[key].windowEnds <= s.clock then s.(rows := s.rows - {key}) else s
    case Rotate(key) => s.(activeKey := key)
  }

  function Run(threshold: int, events: seq<Event>): State {
    if events == [] then State(map[], 0, 0, [], 0)
    else Next(threshold, Run(threshold, events[..|events| - 1]), events[|events| - 1])
  }

  /** What a key's row says about that key's history; a missing row stands for a streak that is over. */
  ghost predicate Refines(s: State, key: Key) {
    var fs := FailuresSince(s.history, key);
    && (fs != [] ==> fs[|fs| - 1].at <= s.clock)
    && (key in s.rows ==> fs != [] && s.rows[key] == Counter(Streak(fs), fs[|fs| - 1].at + WINDOW))
    && (key !in s.rows ==> fs == [] || fs[|fs| - 1].at + WINDOW <= s.clock)
  }

  lemma HistoryPush(history: seq<Fact>, f: Fact, key: Key)
    ensures FailuresSince(history + [f], key) == Extend(FailuresSince(history, key), f, key)
  {
    assert (history + [f])[..|history|] == history;
  }

  lemma StreakPush(fs: seq<Failure>, f: Failure)
    ensures Streak(fs + [f]) == if fs != [] && f.at - fs[|fs| - 1].at < WINDOW then Streak(fs) + 1 else 1
  {
    assert (fs + [f])[..|fs|] == fs;
  }

  lemma FailKeepsRefinement(threshold: int, s: State, key: Key)
    requires Refines(s, key)
    ensures Refines(Next(threshold, s, Fail), key)
  {
    HistoryPush(s.history, Failed(s.activeKey, s.clock), key);
    StreakPush(FailuresSince(s.history, key), Failure(key, s.clock));
  }

  lemma ClearKeepsRefinement(threshold: int, s: State, key: Key)
    requires Refines(s, key)
    ensures Refines(Next(threshold, s, Clear), key)
  {
    HistoryPush(s.history, Cleared(s.activeKey), key);
  }

  /** A row may go once its window has passed: the next failure would start again anyway. */
  lemma CleanupKeepsRefinement(threshold: int, s: State, gone: Key, key: Key)
    requires Refines(s, key)
    ensures Refines(Next(threshold, s, Cleanup(gone)), key)
  {
    var after := Next(threshold, s, Cleanup(gone));
    assert after.history == s.history && after.clock == s.clock;
  }

  lemma NextKeepsRefinement(threshold: int, s: State, e: Event, key: Key)
    requires Refines(s, key)
    ensures Refines(Next(threshold, s, e), key)
  {
    match e
    case Fail => FailKeepsRefinement(threshold, s, key);
    case Clear => ClearKeepsRefinement(threshold, s, key);
    case Unlock => HistoryPush(s.history, ClearedAll, key);
    case Cleanup(gone) => CleanupKeepsRefinement(threshold, s, gone, key);
    case _ =>
  }

  lemma {:induction false} RunRefines(threshold: int, events: seq<Event>, key: Key)
    ensures Refines(Run(threshold, events), key)
  {
    if events != [] {
      RunRefines(threshold, events[..|events| - 1], key);
      NextKeepsRefinement(threshold, Run(threshold, events[..|events| - 1]), events[|events| - 1], key);
    }
  }

  /**
   In every run, a failure stores as its count the length of the longest close
   suffix of failures since the last clear, and locks the account exactly when
   that length reaches the threshold.
   */
  lemma FailureCountsTheStreak(threshold: int, events: seq<Event>)
    ensures var s := Run(threshold, events);
            var after := Next(threshold, s, Fail);
            var streak := Streak(FailuresSince(after.history, s.activeKey));
            && s.activeKey in after.rows && after.rows[s.activeKey].count == streak
            && (after.locks == s.locks + 1 <==> streak >= threshold)
  {
    var s := Run(threshold, events);
    RunRefines(threshold, events, s.activeKey);
    NextKeepsRefinement(threshold, s, Fail, s.activeKey);
  }

  // ----- the numbers

  /** A failure within 900 s of the last one adds to the count; a later one starts again; each opens 900 s more. */
  lemma FailureAnswers(count: nat, last: int, now: int)
    ensures Bumped(None, now) == Counter(1, now + 900)
    ensures Bumped(Some(Counter(count, last + 900)), now) ==
            Counter(if now - last < 900 then count + 1 else 1, now + 900)
  {
  }

  lemma StreakOfTwo(first: Failure, second: Failure)
    ensures Streak([first, second]) == if second.at - first.at < 900 then 2 else 1
  {
    assert [first, second][..1] == [first];
  }

  /** What each event does to the row of the active key. */
  lemma EventAnswers(threshold: int, s: State, key: Key)
    ensures var after := Next(threshold, s, Fail);
            && after.rows == s.rows[s.activeKey :=
                 Bumped(if s.activeKey in s.rows then Some(s.rows[s.activeKey]) else None, s.clock)]
            && (after.locks == s.locks + 1 <==> after.rows[s.activeKey].count >= threshold)
    ensures Next(threshold, s, Clear).rows == s.rows - {s.activeKey}
    ensures Next(threshold, s, Unlock).rows == map[]
    ensures Next(threshold, s, Cleanup(key)).rows ==
            if key in s.rows && s.rows[key].windowEnds <= s.clock then s.rows - {key} else s.rows
  {
  }
}
