/** The contract of a cron schedule and the planner's catch-up window.

    A schedule is known only through its successor function: the least occurrence strictly
    after an instant, or nothing when the bounded search of the cron library gives up. */
module Schedules {
  import opened Wrappers

  /** How far the search for the next occurrence looks before it answers "never": five years. */
  const SEARCH_HORIZON: Time := 5 * 365 * 24 * 3600 * 1_000_000_000

  ghost predicate LeastSuccessor(next: Time -> Option<Time>) {
    && (forall t :: next(t).Some? ==> t < next(t).value)
    && (forall t, u :: next(t).Some? && t <= u < next(t).value ==> next(u) == next(t))
    && (forall t, u :: next(t).None? && t <= u <= t + SEARCH_HORIZON && next(u).Some?
          ==> t + SEARCH_HORIZON < next(u).value)
  }

  type Cron = next: Time -> Option<Time> | LeastSuccessor(next) witness (t: Time) => None

  /** An instant is an occurrence when it is the successor of the instant just before it. */
  predicate Occurs(cron: Cron, t: Time) {
    cron(t - 1) == Some(t)
  }

  lemma SuccessorIsLeastOccurrence(cron: Cron, t: Time)
    ensures cron(t).Some? ==>
              && Occurs(cron, cron(t).value)
              && forall u :: t < u < cron(t).value ==> !Occurs(cron, u)
    ensures cron(t).None? ==> forall u :: t < u <= t + SEARCH_HORIZON ==> !Occurs(cron, u)
  {
    if cron(t).Some? {
      assert cron(cron(t).value - 1) == cron(t);
    }
  }

  /** The occurrences reached from `from` by repeated `next`, up to and including `now`. */
  function Chain(cron: Cron, from: Option<Time>, now: Time): seq<Time>
    decreases if from.Some? && from.value <= now then now - from.value + 1 else 0
  {
    if from.None? || now < from.value then [] else [from.value] + Chain(cron, cron(from.value), now)
  }

  /** What the walk of `Chain` stops at: the first instant past `now`, or nothing. */
  function Beyond(cron: Cron, from: Option<Time>, now: Time): Option<Time>
    decreases if from.Some? && from.value <= now then now - from.value + 1 else 0
  {
    if from.None? || now < from.value then from else Beyond(cron, cron(from.value), now)
  }

  ghost predicate StrictlyIncreasing(times: seq<Time>) {
    forall i, j :: 0 <= i < j < |times| ==> times[i] < times[j]
  }

  /** `times` lists, in order and once each, the occurrences of `cron` between `lo` and `hi`. */
  ghost predicate Enumerates(cron: Cron, times: seq<Time>, lo: Time, hi: Time) {
    && StrictlyIncreasing(times)
    && forall t :: t in times <==> lo <= t <= hi && Occurs(cron, t)
  }

  lemma {:induction false} ChainEnumerates(cron: Cron, from: Time, now: Time)
    requires Occurs(cron, from)
    requires now - from < SEARCH_HORIZON
    ensures Enumerates(cron, Chain(cron, Some(from), now), from, now)
    decreases now - from + 1
  {
    if from <= now {
      SuccessorIsLeastOccurrence(cron, from);
      var next := cron(from);
      var rest := Chain(cron, next, now);
      if next.Some? && next.value <= now {
        ChainEnumerates(cron, next.value, now);
      } else {
        assert rest == [];
      }
      assert Chain(cron, Some(from), now) == [from] + rest;
      PrependEarlier(cron, from, rest, now);
    }
  }

  /** An occurrence goes in front of all those after it. */
  lemma PrependEarlier(cron: Cron, from: Time, rest: seq<Time>, hi: Time)
    requires Occurs(cron, from) && from <= hi
    requires StrictlyIncreasing(rest)
    requires forall t :: t in rest <==> from < t <= hi && Occurs(cron, t)
    ensures Enumerates(cron, [from] + rest, from, hi)
  {
    var chain := [from] + rest;
    forall i, j | 0 <= i < j < |chain| ensures chain[i] < chain[j] {
      assert chain[j] == rest[j - 1] && chain[j] in rest;
      if i > 0 { assert chain[i] == rest[i - 1]; }
    }
  }

  /** Where the walk stops is the successor of `now`, unless the search gave up on the way. */
  lemma {:induction false} BeyondIsNext(cron: Cron, from: Time, now: Time)
    requires from <= now
    ensures var b := Beyond(cron, Some(from), now);
            b.Some? ==> now < b.value && b == cron(now) && Occurs(cron, b.value)
    decreases now - from
  {
    var next := cron(from);
    SuccessorIsLeastOccurrence(cron, from);
    if next.Some? && next.value <= now {
      BeyondIsNext(cron, next.value, now);
    }
  }

  /** Where the walk starts: the cursor, or the first occurrence of the window when the
      cursor fell out of it. */
  function WindowStart(cron: Cron, cursor: Time, now: Time, window: Time): Option<Time> {
    if cursor < now - window then cron(now - window - 1) else Some(cursor)
  }

  function Due(cron: Cron, cursor: Time, now: Time, window: Time): seq<Time> {
    Chain(cron, WindowStart(cron, cursor, now, window), now)
  }

  function Last<T>(s: seq<T>, n: nat): seq<T> {
    if |s| <= n then s else s[|s| - n..]
  }

  function NextCursor(cron: Cron, cursor: Time, now: Time, window: Time): Option<Time> {
    Beyond(cron, WindowStart(cron, cursor, now, window), now)
  }

  function Max(a: int, b: int): int {
    if a < b then b else a
  }

  /** The walk visits exactly the occurrences between the cursor (or the cutoff) and now. */
  lemma DueIsTheWindow(cron: Cron, cursor: Time, now: Time, window: Time)
    requires Occurs(cron, cursor) && cursor <= now && 0 < window < SEARCH_HORIZON
    ensures Enumerates(cron, Due(cron, cursor, now, window), Max(cursor, now - window), now)
  {
    if cursor < now - window {
      var cutoff := now - window;
      SuccessorIsLeastOccurrence(cron, cutoff - 1);
      var start := cron(cutoff - 1);
      if start.Some? && start.value <= now {
        ChainEnumerates(cron, start.value, now);
      }
    } else {
      ChainEnumerates(cron, cursor, now);
    }
  }

  /** The cursor left behind is NULL or the first occurrence strictly after now. */
  lemma NextCursorIsPastNow(cron: Cron, cursor: Time, now: Time, window: Time)
    requires cursor <= now && 0 < window
    ensures var next := NextCursor(cron, cursor, now, window);
            next.Some? ==> now < next.value && next == cron(now) && Occurs(cron, next.value)
  {
    var start := WindowStart(cron, cursor, now, window);
    if start.Some? && start.value <= now {
      BeyondIsNext(cron, start.value, now);
    } else if start.Some? {
      SuccessorIsLeastOccurrence(cron, now - window - 1);
    }
  }

  lemma {:induction false} BeyondEndsInSilence(cron: Cron, from: Time, now: Time, u: Time)
    requires from <= now && Beyond(cron, Some(from), now).None?
    requires now < u <= from + SEARCH_HORIZON
    ensures !Occurs(cron, u)
    decreases now - from
  {
    SuccessorIsLeastOccurrence(cron, from);
    var next := cron(from);
    if next.Some? {
      assert next.value <= now;
      BeyondEndsInSilence(cron, next.value, now, u);
    }
  }

  /** The cursor is left NULL only when nothing occurs for the rest of the search horizon, counted
      from the start of the window; otherwise it is the first occurrence after now. */
  lemma NextCursorIsNullOnlyInSilence(cron: Cron, cursor: Time, now: Time, window: Time, u: Time)
    requires cursor <= now && 0 < window
    requires now < u < now - window + SEARCH_HORIZON && Occurs(cron, u)
    ensures var next := NextCursor(cron, cursor, now, window);
            && next.Some? && next == cron(now) && now < next.value <= u && Occurs(cron, next.value)
            && forall v :: now < v < next.value ==> !Occurs(cron, v)
  {
    var start := WindowStart(cron, cursor, now, window);
    if cursor < now - window { SuccessorIsLeastOccurrence(cron, now - window - 1); }
    if start.Some? && start.value <= now && NextCursor(cron, cursor, now, window).None? {
      BeyondEndsInSilence(cron, start.value, now, u);
    }
    NextCursorIsPastNow(cron, cursor, now, window);
    SuccessorIsLeastOccurrence(cron, now);
  }

  lemma LastSnoc<T>(s: seq<T>, x: T, n: nat)
    requires 0 < n
    ensures |s| < n ==> Last(s + [x], n) == Last(s, n) + [x]
    ensures n <= |s| ==> Last(s + [x], n) == Last(s, n)[1..] + [x]
  {
  }

  /** Appends `x` to the first `len` entries of the buffer, dropping the oldest when it is full. */
  method Push(buffer: array<Time>, len: nat, x: Time, ghost pushed: seq<Time>)
    returns (newLen: nat, dropped: nat)
    requires 0 < buffer.Length && len <= buffer.Length
    requires buffer[..len] == Last(pushed, buffer.Length)
    modifies buffer
    ensures newLen <= buffer.Length && len + 1 == newLen + dropped
    ensures buffer[..newLen] == Last(pushed + [x], buffer.Length)
  {
    LastSnoc(pushed, x, buffer.Length);
    if len == buffer.Length {
      for i := 0 to len - 1
        invariant forall j :: 0 <= j < i ==> buffer[j] == old(buffer[j + 1])
        invariant forall j :: i <= j < len ==> buffer[j] == old(buffer[j])
      {
        buffer[i] := buffer[i + 1];
      }
      buffer[len - 1] := x;
      assert buffer[..len] == old(buffer[..len])[1..] + [x];
      return len, 1;
    } else {
      buffer[len] := x;
      assert buffer[..len + 1] == old(buffer[..len]) + [x];
      return len + 1, 0;
    }
  }

  lemma ChainStep(cron: Cron, passed: seq<Time>, from: Time, now: Time)
    requires from <= now
    ensures passed + Chain(cron, Some(from), now) == (passed + [from]) + Chain(cron, cron(from), now)
  {
    var rest := Chain(cron, cron(from), now);
    assert passed + ([from] + rest) == (passed + [from]) + rest;
  }

  /** The planner's loop: walks the occurrences up to now through a buffer of at most
      `maxOccurrences` instants, counting the entries it drops. */
  method CatchUp(cron: Cron, cursor: Time, now: Time, window: Time, maxOccurrences: nat)
    returns (kept: seq<Time>, skipped: nat, next: Option<Time>)
    requires 0 < maxOccurrences
    ensures kept == Last(Due(cron, cursor, now, window), maxOccurrences)
    ensures next == NextCursor(cron, cursor, now, window)
    ensures skipped == |Due(cron, cursor, now, window)| - |kept| + if cursor < now - window then 1 else 0
  {
    skipped := 0;
    var occurrence := Some(cursor);
    if cursor < now - window {
      skipped := 1;
      occurrence := cron(now - window - 1);
    }
    ghost var start, base, passed := occurrence, skipped, [];
    var buffer := new Time[maxOccurrences];
    var len := 0;
    while occurrence.Some? && occurrence.value <= now
      invariant 0 <= len <= buffer.Length == maxOccurrences
      invariant Chain(cron, start, now) == passed + Chain(cron, occurrence, now)
      invariant Beyond(cron, start, now) == Beyond(cron, occurrence, now)
      invariant buffer[..len] == Last(passed, maxOccurrences)
      invariant skipped == base + |passed| - len
      decreases if occurrence.Some? then now - occurrence.value + 1 else 0
    {
      var dropped;
      ChainStep(cron, passed, occurrence.value, now);
      len, dropped := Push(buffer, len, occurrence.value, passed);
      skipped := skipped + dropped;
      passed := passed + [occurrence.value];
      occurrence := cron(occurrence.value);
    }
    assert passed + [] == passed;
    kept := buffer[..len];
    next := occurrence;
  }

  /** What the loop computes, said without it: with n occurrences between the cursor (or the
      cutoff) and now, it keeps the last min(n, maxOccurrences) in order, counts the others as
      skipped, plus one when the cursor had fallen out of the window, and leaves a cursor past now. */
  lemma CatchUpKeepsTheLatest(cron: Cron, cursor: Time, now: Time, window: Time, maxOccurrences: nat)
    returns (occurrences: seq<Time>)
    requires Occurs(cron, cursor) && cursor <= now && 0 < window < SEARCH_HORIZON && 0 < maxOccurrences
    ensures Enumerates(cron, occurrences, Max(cursor, now - window), now)
    ensures var kept := Last(Due(cron, cursor, now, window), maxOccurrences);
            && StrictlyIncreasing(kept)
            && |kept| == (if |occurrences| < maxOccurrences then |occurrences| else maxOccurrences)
            && kept == occurrences[|occurrences| - |kept|..]
    ensures var next := NextCursor(cron, cursor, now, window);
            next.Some? ==> now < next.value && Occurs(cron, next.value) && next == cron(now)
  {
    occurrences := Due(cron, cursor, now, window);
    DueIsTheWindow(cron, cursor, now, window);
    NextCursorIsPastNow(cron, cursor, now, window);
  }
}
