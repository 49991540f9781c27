/**
 The failure counter against the plain history, in which failures and clears
 count whatever key was active. The row of a key misses failures recorded under
 other keys, and keeps failures that a clear under another key left behind.
 */
module PlainFailures {
  import opened FailureCounter

  function Widen(fs: seq<Failure>, f: Fact): seq<Failure> {
    if f.Failed? then fs + [Failure(f.key, f.at)] else []
  }

  /** All failures since the last clear. */
  function Recent(history: seq<Fact>): seq<Failure> {
    if history == [] then [] else Widen(Recent(history[..|history| - 1]), history[|history| - 1])
  }

  /** Failures on a key's row from before the last clear: it was made under another key and missed them. */
  function LeftBehind(history: seq<Fact>, key: Key): seq<Failure> {
    if history == [] then []
    else if history[|history| - 1].Failed? then LeftBehind(history[..|history| - 1], key)
    else Extend(FailuresSince(history[..|history| - 1], key), history[|history| - 1], key)
  }

  function Own(fs: seq<Failure>, key: Key): seq<Failure> {
    if fs == [] then []
    else if fs[|fs| - 1].key == key then Own(fs[..|fs| - 1], key) + [fs[|fs| - 1]]
    else Own(fs[..|fs| - 1], key)
  }

  predicate InOrder(fs: seq<Failure>) {
    forall i, j :: 0 <= i <= j < |fs| ==> fs[i].at <= fs[j].at
  }

  predicate AllUnder(fs: seq<Failure>, key: Key) {
    forall i :: 0 <= i < |fs| ==> fs[i].key == key
  }

  /** The plain streak: the longest close suffix of all recent failures. */
  function PlainStreak(history: seq<Fact>): seq<Failure> {
    CloseTail(Recent(history))
  }

  function CloseTail(fs: seq<Failure>): (tail: seq<Failure>)
    ensures |tail| == Streak(fs) <= |fs|
  {
    StreakFits(fs);
    fs[|fs| - Streak(fs)..]
  }

  /** Failures of the plain streak that the key's row does not count. */
  function Missed(history: seq<Fact>, key: Key): int {
    |PlainStreak(history)| - Streak(Own(PlainStreak(history), key))
  }

  /** The failures left behind join the row's streak: its recent ones are all close and follow on them. */
  predicate Joins(left: seq<Failure>, own: seq<Failure>) {
    left != [] && own != [] && Streak(own) == |own| && own[0].at - left[|left| - 1].at < WINDOW
  }

  /** Failures that the key's row counts although they were cleared. */
  function Carried(history: seq<Fact>, key: Key): int {
    if Joins(LeftBehind(history, key), Own(Recent(history), key)) then Streak(LeftBehind(history, key)) else 0
  }

  // ----- streaks of parts

  lemma {:induction false} StreakFits(fs: seq<Failure>)
    ensures Streak(fs) <= |fs| && (fs != [] ==> Streak(fs) > 0)
  {
    if |fs| > 1 {
      StreakFits(fs[..|fs| - 1]);
    }
  }

  /** How far the streak of a concatenation reaches. */
  lemma {:induction false} StreakAcross(left: seq<Failure>, right: seq<Failure>)
    requires right != []
    ensures Streak(left + right) == if Joins(left, right) then |right| + Streak(left) else Streak(right)
  {
    var rest, last := right[..|right| - 1], right[|right| - 1];
    assert left + right == (left + rest) + [last] && right == rest + [last];
    StreakPush(left + rest, last);
    StreakPush(rest, last);
    if rest == [] {
      assert left + rest == left;
    } else {
      StreakFits(rest);
      StreakAcross(left, rest);
    }
  }

  /** The streak begins after a gap. */
  lemma {:induction false} StreakAfterGap(fs: seq<Failure>)
    requires Streak(fs) < |fs|
    ensures fs[|fs| - Streak(fs)].at - fs[|fs| - Streak(fs) - 1].at >= WINDOW
  {
    if Streak(fs) > 1 {
      StreakAfterGap(fs[..|fs| - 1]);
    }
  }

  lemma TailIsOneStreak(fs: seq<Failure>)
    ensures Streak(CloseTail(fs)) == |CloseTail(fs)|
  {
    var tail := CloseTail(fs);
    StreakIsLongest(fs);
    StreakIsLongest(tail);
    assert CloseSuffix(tail, |tail|);
  }

  /** A list is what comes before a gap and its close tail. */
  lemma TailSplit(fs: seq<Failure>, a: seq<Failure>, b: seq<Failure>)
    requires fs != [] && b == CloseTail(fs) && a == fs[..|fs| - |b|]
    ensures fs == a + b && b != [] && b[|b| - 1] == fs[|fs| - 1] && Streak(b) == |b|
    ensures a != [] ==> b[0].at - a[|a| - 1].at >= WINDOW
  {
    StreakFits(fs);
    TailIsOneStreak(fs);
    if a != [] {
      StreakAfterGap(fs);
    }
  }

  // ----- the own share of a list

  lemma {:induction false} OwnConcat(a: seq<Failure>, b: seq<Failure>, key: Key)
    ensures Own(a + b, key) == Own(a, key) + Own(b, key)
  {
    if b == [] {
      assert a + b == a;
    } else {
      OwnConcat(a, b[..|b| - 1], key);
      assert (a + b)[..|a + b| - 1] == a + b[..|b| - 1];
    }
  }

  lemma {:induction false} OwnSize(fs: seq<Failure>, key: Key)
    ensures |Own(fs, key)| <= |fs| && (|Own(fs, key)| == |fs| <==> AllUnder(fs, key))
    ensures AllUnder(fs, key) ==> Own(fs, key) == fs
  {
    if fs != [] {
      OwnSize(fs[..|fs| - 1], key);
      assert fs == fs[..|fs| - 1] + [fs[|fs| - 1]];
    }
  }

  lemma {:induction false} OwnMembers(fs: seq<Failure>, key: Key, i: nat)
    requires i < |Own(fs, key)|
    ensures Own(fs, key)[i] in fs
  {
    if i < |Own(fs[..|fs| - 1], key)| {
      OwnMembers(fs[..|fs| - 1], key, i);
    }
  }

  /** A gap between all failures is a gap between the own ones. */
  lemma OwnStreakStopsAtGap(a: seq<Failure>, b: seq<Failure>, key: Key)
    requires InOrder(a) && InOrder(b) && b != [] && b[|b| - 1].key == key
    requires a != [] ==> b[0].at - a[|a| - 1].at >= WINDOW
    ensures Streak(Own(a + b, key)) == Streak(Own(b, key))
  {
    OwnConcat(a, b, key);
    StreakAcross(Own(a, key), Own(b, key));
    if Own(a, key) != [] {
      OwnMembers(a, key, |Own(a, key)| - 1);
      OwnMembers(b, key, 0);
    }
  }

  lemma OwnStreakOfCloseRun(b: seq<Failure>, key: Key)
    requires Streak(b) == |b|
    ensures Streak(Own(b, key)) <= |b| && (Streak(Own(b, key)) == |b| <==> AllUnder(b, key))
  {
    OwnSize(b, key);
    StreakFits(Own(b, key));
  }

  lemma PartsInOrder(a: seq<Failure>, b: seq<Failure>)
    requires InOrder(a + b)
    ensures InOrder(a) && InOrder(b)
  {
    assert forall i :: 0 <= i < |a| ==> a[i] == (a + b)[i];
    assert forall i :: 0 <= i < |b| ==> b[i] == (a + b)[|a| + i];
  }

  lemma OwnStreakOfTail(fs: seq<Failure>, key: Key)
    requires InOrder(fs) && fs != [] && fs[|fs| - 1].key == key
    ensures Streak(Own(fs, key)) == Streak(Own(CloseTail(fs), key)) && Streak(CloseTail(fs)) == |CloseTail(fs)|
  {
    var b := CloseTail(fs);
    var a := fs[..|fs| - |b|];
    TailSplit(fs, a, b);
    PartsInOrder(a, b);
    OwnStreakStopsAtGap(a, b, key);
  }

  /** Only the close tail's own failures can be in the own streak. */
  lemma OwnStreakWithinTail(fs: seq<Failure>, key: Key)
    requires InOrder(fs) && fs != [] && fs[|fs| - 1].key == key
    ensures Streak(Own(fs, key)) == Streak(Own(CloseTail(fs), key)) <= |CloseTail(fs)|
    ensures Streak(Own(CloseTail(fs), key)) == |CloseTail(fs)| <==> AllUnder(CloseTail(fs), key)
  {
    OwnStreakOfTail(fs, key);
    OwnStreakOfCloseRun(CloseTail(fs), key);
  }

  // ----- a row against the plain history

  /** A key's row stands for what a clear left behind, followed by its own share of the recent failures. */
  lemma {:induction false} RowHistory(history: seq<Fact>, key: Key)
    ensures FailuresSince(history, key) == LeftBehind(history, key) + Own(Recent(history), key)
  {
    if history != [] {
      var before := history[..|history| - 1];
      RowHistory(before, key);
      if history[|history| - 1].Failed? {
        assert Recent(history)[..|Recent(before)|] == Recent(before);
      }
    }
  }

  /** For any history that ends with a failure under the key. */
  lemma RowAgainstPlain(history: seq<Fact>, key: Key)
    requires var r := Recent(history); InOrder(r) && r != [] && r[|r| - 1].key == key
    ensures Streak(FailuresSince(history, key)) == |PlainStreak(history)| - Missed(history, key) + Carried(history, key)
    ensures Missed(history, key) >= 0 && (Missed(history, key) == 0 <==> AllUnder(PlainStreak(history), key))
    ensures Carried(history, key) == 0 <==> !Joins(LeftBehind(history, key), Own(Recent(history), key))
  {
    var left, own := LeftBehind(history, key), Own(Recent(history), key);
    OwnStreakWithinTail(Recent(history), key);
    RowHistory(history, key);
    StreakAcross(left, own);
    StreakFits(left);
  }

  lemma RecentPush(history: seq<Fact>, f: Fact)
    ensures Recent(history + [f]) == Widen(Recent(history), f)
  {
    assert (history + [f])[..|history|] == history;
  }

  lemma OrderKept(fs: seq<Failure>, f: Failure)
    requires InOrder(fs) && (fs != [] ==> fs[|fs| - 1].at <= f.at)
    ensures InOrder(fs + [f])
  {
  }

  predicate Dated(fs: seq<Failure>, now: int) {
    InOrder(fs) && (fs != [] ==> fs[|fs| - 1].at <= now)
  }

  lemma NextKeepsDated(threshold: int, s: State, e: Event)
    requires Dated(Recent(s.history), s.clock)
    ensures Dated(Recent(Next(threshold, s, e).history), Next(threshold, s, e).clock)
  {
    match e
    case Fail =>
      RecentPush(s.history, Failed(s.activeKey, s.clock));
      OrderKept(Recent(s.history), Failure(s.activeKey, s.clock));
    case Clear => RecentPush(s.history, Cleared(s.activeKey));
    case Unlock => RecentPush(s.history, ClearedAll);
    case _ =>
  }

  lemma {:induction false} RunKeepsDated(threshold: int, events: seq<Event>)
    ensures Dated(Recent(Run(threshold, events).history), Run(threshold, events).clock)
  {
    if events != [] {
      RunKeepsDated(threshold, events[..|events| - 1]);
      NextKeepsDated(threshold, Run(threshold, events[..|events| - 1]), events[|events| - 1]);
    }
  }

  /**
   In every run a failure stores the plain streak, less what other keys recorded
   of it, plus what a clear under another key left behind. The stored count is
   the plain streak if and only if the two balance; nothing is missed exactly when
   every failure of the plain streak was recorded under the active key, and nothing
   is carried over exactly when the failures left behind do not join the row's streak.
   */
  lemma StoredAgainstPlain(threshold: int, events: seq<Event>)
    ensures var s := Run(threshold, events);
            var after := Next(threshold, s, Fail);
            var h, key := after.history, s.activeKey;
            && key in after.rows
            && after.rows[key].count == |PlainStreak(h)| - Missed(h, key) + Carried(h, key)
            && (after.rows[key].count == |PlainStreak(h)| <==> Missed(h, key) == Carried(h, key))
            && Missed(h, key) >= 0 && (Missed(h, key) == 0 <==> AllUnder(PlainStreak(h), key))
            && (Carried(h, key) == 0 <==> !Joins(LeftBehind(h, key), Own(Recent(h), key)))
            && (after.locks == s.locks + 1 <==> |PlainStreak(h)| - Missed(h, key) + Carried(h, key) >= threshold)
  {
    var s := Run(threshold, events);
    FailureCountsTheStreak(threshold, events);
    RunKeepsDated(threshold, events);
    PlainAfterFailure(s.history, s.activeKey, s.clock);
  }

  lemma PlainAfterFailure(history: seq<Fact>, key: Key, now: int)
    requires Dated(Recent(history), now)
    ensures var h := history + [Failed(key, now)];
            && Streak(FailuresSince(h, key)) == |PlainStreak(h)| - Missed(h, key) + Carried(h, key)
            && Missed(h, key) >= 0 && (Missed(h, key) == 0 <==> AllUnder(PlainStreak(h), key))
            && (Carried(h, key) == 0 <==> !Joins(LeftBehind(h, key), Own(Recent(h), key)))
  {
    var h := history + [Failed(key, now)];
    RecentPush(history, Failed(key, now));
    OrderKept(Recent(history), Failure(key, now));
    RowAgainstPlain(h, key);
  }

  // ----- two runs that differ from the plain history

  function Repeat(n: nat): seq<Event> { seq(n, _ => Fail) }

  lemma RunStep(threshold: int, events: seq<Event>, e: Event)
    ensures Run(threshold, events + [e]) == Next(threshold, Run(threshold, events), e)
  {
    assert (events + [e])[..|events|] == events;
  }

  /** Failures at one instant under the first key, short of the threshold. */
  lemma {:induction false} FailNTimes(threshold: int, n: nat)
    requires n < threshold
    ensures var s := Run(threshold, Repeat(n));
            && s.activeKey == 0 && s.clock == 0 && s.locks == 0
            && s.rows == if n == 0 then map[] else map[0 := Counter(n, WINDOW)]
  {
    if n > 0 {
      FailNTimes(threshold, n - 1);
      assert Repeat(n) == Repeat(n - 1) + [Fail];
      RunStep(threshold, Repeat(n - 1), Fail);
    }
  }

  lemma OneMoreFact(threshold: int, n: nat)
    requires 0 < n < threshold
    ensures Run(threshold, Repeat(n)).history == Run(threshold, Repeat(n - 1)).history + [Failed(0, 0)]
  {
    FailNTimes(threshold, n - 1);
    assert Repeat(n) == Repeat(n - 1) + [Fail];
    RunStep(threshold, Repeat(n - 1), Fail);
  }

  /** There are n recent failures, close together, the last at instant 0. */
  predicate AllClose(history: seq<Fact>, n: nat) {
    var fs := Recent(history);
    |fs| == Streak(fs) == n && (fs != [] ==> fs[|fs| - 1].at == 0)
  }

  lemma AllCloseGrows(history: seq<Fact>, n: nat)
    requires AllClose(history, n)
    ensures AllClose(history + [Failed(0, 0)], n + 1)
  {
    RecentPush(history, Failed(0, 0));
    StreakPush(Recent(history), Failure(0, 0));
  }

  lemma {:induction false} PlainNTimes(threshold: int, n: nat)
    requires n < threshold
    ensures AllClose(Run(threshold, Repeat(n)).history, n)
  {
    if n > 0 {
      PlainNTimes(threshold, n - 1);
      OneMoreFact(threshold, n);
      AllCloseGrows(Run(threshold, Repeat(n - 1)).history, n - 1);
    }
  }

  lemma FreshKeyDoesNotLock(threshold: int, s: State)
    requires threshold > 1 && s.clock == 0 && s.locks == 0 && 1 !in s.rows
    ensures var t := Next(threshold, Next(threshold, s, Rotate(1)), Fail);
            t.locks == 0 && t.history == s.history + [Failed(1, 0)]
  {
  }

  /** One short of the threshold, a rotation, and the failure that should lock does not. */
  lemma RotationEscapesTheLock(threshold: int)
    requires threshold > 1
    ensures var s := Run(threshold, Repeat(threshold - 1) + [Rotate(1)] + [Fail]);
            |PlainStreak(s.history)| == threshold && s.locks == 0
  {
    var before := Repeat(threshold - 1);
    FailNTimes(threshold, threshold - 1);
    PlainNTimes(threshold, threshold - 1);
    RunStep(threshold, before, Rotate(1));
    RunStep(threshold, before + [Rotate(1)], Fail);
    FreshKeyDoesNotLock(threshold, Run(threshold, before));
    PlainGrows(Run(threshold, before).history, 1);
  }

  lemma PlainGrows(history: seq<Fact>, key: Key)
    requires var fs := Recent(history); fs != [] && fs[|fs| - 1].at == 0
    ensures |PlainStreak(history + [Failed(key, 0)])| == Streak(Recent(history)) + 1
  {
    RecentPush(history, Failed(key, 0));
    StreakPush(Recent(history), Failure(key, 0));
  }

  /** A clear under another key misses the row; back under the old key one failure locks. */
  lemma RotatingBackLocksEarly(threshold: int)
    requires threshold > 1
    ensures var s := Run(threshold, Repeat(threshold - 1) + [Rotate(1)] + [Clear] + [Rotate(0)] + [Fail]);
            |PlainStreak(s.history)| == 1 && s.locks == 1
  {
    var before := Repeat(threshold - 1);
    FailNTimes(threshold, threshold - 1);
    var s := Run(threshold, before);
    RunStep(threshold, before, Rotate(1));
    RunStep(threshold, before + [Rotate(1)], Clear);
    RunStep(threshold, before + [Rotate(1)] + [Clear], Rotate(0));
    RunStep(threshold, before + [Rotate(1)] + [Clear] + [Rotate(0)], Fail);
    PlainAfterClear(s.history);
  }

  lemma PlainAfterClear(history: seq<Fact>)
    ensures |PlainStreak(history + [Cleared(1)] + [Failed(0, 0)])| == 1
  {
    RecentPush(history, Cleared(1));
    RecentPush(history + [Cleared(1)], Failed(0, 0));
  }
}
