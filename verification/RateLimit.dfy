/**
 The fixed-window limiter of pairing attempts (apps/server/src/claim-rate-limit.ts:31-47) and
 the bound it gives on any sliding window.
 */
module RateLimit {
  import opened Common

  type Source = string

  datatype Limit = Limit(capacity: int, windowMs: int)
  datatype Window = Window(count: nat, start: int)

  /** One attempt of one source: its window afterwards, and whether it is allowed. */
  function Consume(l: Limit, w: Option<Window>, now: int): (Window, bool) {
    if w.None? || now - w.value.start >= l.windowMs then (Window(1, now), true)
    else if w.value.count >= l.capacity then (w.value, false)
    else (w.value.(count := w.value.count + 1), true)
  }

  /** The decisions on a source's attempts, in order. */
  function Decisions(l: Limit, w: Option<Window>, times: seq<int>): (r: seq<bool>)
    ensures |r| == |times|
    decreases |times|
  {
    if times == [] then []
    else var (v, ok) := Consume(l, w, times[0]); [ok] + Decisions(l, Some(v), times[1..])
  }

  /** How many attempts were allowed at times in [from, from + windowMs). */
  function AllowedIn(l: Limit, from: int, times: seq<int>, decisions: seq<bool>): nat
    requires |times| == |decisions|
    decreases |times|
  {
    if times == [] then 0 else
    (if decisions[0] && from <= times[0] < from + l.windowMs then 1 else 0)
    + AllowedIn(l, from, times[1..], decisions[1..])
  }

  predicate Nondecreasing(times: seq<int>) {
    forall i, j | 0 <= i < j < |times| :: times[i] <= times[j]
  }

  /** The first attempt of a window is allowed even with capacity 0. */
  function Cap(l: Limit): int {
    if l.capacity < 1 then 1 else l.capacity
  }

  // ---------------------------------------------------------------- the sliding bound

  /** What `n` allowed attempts in [from, from + windowMs) mean for the current window; `last` is the latest attempt. */
  ghost predicate Bounded(l: Limit, w: Option<Window>, last: int, from: int, n: int) {
    && (last < from ==> n == 0)
    && match w
       case None => n == 0
       case Some(v) =>
         && 1 <= v.count <= Cap(l) && v.start <= last
         && (if v.start < from then n <= v.count - 1
             else if v.start < from + l.windowMs then n <= Cap(l) - 1 + v.count
             else n <= 2 * Cap(l) - 1)
  }

  lemma StepStaysBounded(l: Limit, w: Option<Window>, last: int, from: int, n: int, now: int)
    requires Bounded(l, w, last, from, n) && (w.Some? ==> last <= now) && (w.None? ==> n == 0)
    ensures var (v, ok) := Consume(l, w, now);
            Bounded(l, Some(v), now, from, n + if ok && from <= now < from + l.windowMs then 1 else 0)
  {}

  lemma {:induction false} RunStaysBounded(l: Limit, w: Option<Window>, last: int, from: int, n: int, times: seq<int>)
    requires Bounded(l, w, last, from, n) && Nondecreasing(times)
    requires times != [] && w.Some? ==> last <= times[0]
    ensures n + AllowedIn(l, from, times, Decisions(l, w, times)) <= 2 * Cap(l) - 1
    decreases |times|
  {
    if times != [] {
      var (v, ok) := Consume(l, w, times[0]);
      StepStaysBounded(l, w, last, from, n, times[0]);
      assert Decisions(l, w, times)[1..] == Decisions(l, Some(v), times[1..]);
      RunStaysBounded(l, Some(v), times[0], from, n + (if ok && from <= times[0] < from + l.windowMs then 1 else 0),
          times[1..]);
    }
  }

  /**
   With a nondecreasing clock any half-open interval of one window length allows at most 2 * capacity - 1
   attempts.
   */
  lemma SlidingBound(l: Limit, from: int, times: seq<int>)
    requires Nondecreasing(times)
    ensures AllowedIn(l, from, times, Decisions(l, None, times)) <= 2 * Cap(l) - 1
  {
    RunStaysBounded(l, None, from - 1, from, 0, times);
  }

  // ---------------------------------------------------------------- the bound is attained

  function Repeat(t: int, k: nat): (r: seq<int>)
    ensures |r| == k && forall i | 0 <= i < k :: r[i] == t
  {
    seq(k, _ => t)
  }

  /** Attempts within capacity at one moment of the current window are all allowed. */
  lemma {:induction false} BurstIsAllowed(l: Limit, count: nat, start: int, t: int, k: nat, rest: seq<int>, from: int)
    requires start <= t < start + l.windowMs && (k == 0 || count + k <= l.capacity)
    requires from <= t < from + l.windowMs
    ensures var times := Repeat(t, k) + rest;
            var w, v := Some(Window(count, start)), Some(Window(count + k, start));
            AllowedIn(l, from, times, Decisions(l, w, times)) == k + AllowedIn(l, from, rest, Decisions(l, v, rest))
    decreases k
  {
    var times := Repeat(t, k) + rest;
    if k == 0 {
      assert times == rest;
    } else {
      assert times[1..] == Repeat(t, k - 1) + rest;
      var w := Some(Window(count, start));
      assert Decisions(l, w, times)[1..] == Decisions(l, Some(Window(count + 1, start)), times[1..]);
      BurstIsAllowed(l, count + 1, start, t, k - 1, rest, from);
    }
  }

  /** One attempt, the rest of the capacity just before the window rolls over, and a full window right after. */
  function Burst(l: Limit): seq<int> {
    [0] + (Repeat(l.windowMs - 1, Cap(l) - 1) + ([l.windowMs] + (Repeat(l.windowMs, Cap(l) - 1) + [])))
  }

  lemma FirstAttempt(l: Limit, w: Option<Window>, t: int, rest: seq<int>, from: int)
    ensures var (v, ok) := Consume(l, w, t);
            AllowedIn(l, from, [t] + rest, Decisions(l, w, [t] + rest)) ==
            (if ok && from <= t < from + l.windowMs then 1 else 0)
                + AllowedIn(l, from, rest, Decisions(l, Some(v), rest))
  {
    assert ([t] + rest)[1..] == rest;
    var (v, ok) := Consume(l, w, t);
    assert Decisions(l, w, [t] + rest)[1..] == Decisions(l, Some(v), rest);
  }

  lemma BurstIsOrdered(l: Limit)
    requires l.windowMs >= 1
    ensures Nondecreasing(Burst(l))
  {
    var w, c := l.windowMs, Cap(l);
    assert forall i | 0 <= i < |Burst(l)| ::
        Burst(l)[i] == if i == 0 then 0 else if i < c then w - 1 else w;
  }

  /** A burst around a roll-over attains the bound, for every capacity, even below 1, once a window has two instants. */
  lemma BoundIsTight(l: Limit)
    requires l.windowMs >= 2
    ensures Nondecreasing(Burst(l))
    ensures AllowedIn(l, l.windowMs - 1, Burst(l), Decisions(l, None, Burst(l))) == 2 * Cap(l) - 1
  {
    var w, c := l.windowMs, Cap(l);
    var last := Repeat(w, c - 1) + [];
    BurstIsOrdered(l);
    FirstAttempt(l, None, 0, Repeat(w - 1, c - 1) + ([w] + last), w - 1);
    BurstIsAllowed(l, 1, 0, w - 1, c - 1, [w] + last, w - 1);
    FirstAttempt(l, Some(Window(c, 0)), w, last, w - 1);
    BurstIsAllowed(l, 1, w, w, c - 1, [], w - 1);
  }

  // ---------------------------------------------------------------- several sources

  datatype Call = Call(source: Source, now: int)

  function WindowOf(windows: map<Source, Window>, source: Source): Option<Window> {
    if source in windows then Some(windows[source]) else None
  }

  function TryConsume(l: Limit, windows: map<Source, Window>, c: Call): (map<Source, Window>, bool) {
    var (v, ok) := Consume(l, WindowOf(windows, c.source), c.now);
    (windows[c.source := v], ok)
  }

  /** The decisions one source gets among everybody's calls. */
  function DecisionsFor(l: Limit, windows: map<Source, Window>, calls: seq<Call>, source: Source): seq<bool>
    decreases |calls|
  {
    if calls == [] then [] else
    var (next, ok) := TryConsume(l, windows, calls[0]);
    (if calls[0].source == source then [ok] else []) + DecisionsFor(l, next, calls[1..], source)
  }

  function TimesOf(calls: seq<Call>, source: Source): seq<int>
    decreases |calls|
  {
    if calls == [] then []
    else (if calls[0].source == source then [calls[0].now] else []) + TimesOf(calls[1..], source)
  }

  /** They are the decisions on that source's own calls alone. */
  lemma {:induction false} SourcesAreIndependent(l: Limit, windows: map<Source, Window>, calls: seq<Call>,
      source: Source)
    ensures DecisionsFor(l, windows, calls, source) == Decisions(l, WindowOf(windows, source), TimesOf(calls, source))
    decreases |calls|
  {
    if calls != [] {
      var (next, ok) := TryConsume(l, windows, calls[0]);
      SourcesAreIndependent(l, next, calls[1..], source);
      if calls[0].source == source {
        var times := TimesOf(calls, source);
        assert times[1..] == TimesOf(calls[1..], source);
      } else {
        EmptyIsNeutral(TimesOf(calls[1..], source));
        EmptyIsNeutral(DecisionsFor(l, next, calls[1..], source));
      }
    }
  }

  /** So the bound holds for every source of the shared limiter. */
  lemma SlidingBoundPerSource(l: Limit, calls: seq<Call>, source: Source, from: int)
    requires Nondecreasing(TimesOf(calls, source))
    ensures |DecisionsFor(l, map[], calls, source)| == |TimesOf(calls, source)|
    ensures AllowedIn(l, from, TimesOf(calls, source), DecisionsFor(l, map[], calls, source)) <= 2 * Cap(l) - 1
  {
    SourcesAreIndependent(l, map[], calls, source);
    SlidingBound(l, from, TimesOf(calls, source));
  }

  class ClaimLimiter {
    const limit: Limit
    var windows: map<Source, Window>

    constructor (l: Limit)
      ensures limit == l && windows == map[]
    {
      limit, windows := l, map[];
    }

    method Attempt(source: Source, now: int) returns (allowed: bool)
      modifies this
      ensures (windows, allowed) == TryConsume(limit, old(windows), Call(source, now))
    {
      if source !in windows || now - windows[source].start >= limit.windowMs {
        windows := windows[source := Window(1, now)];
        return true;
      }
      var existing := windows[source];
      if existing.count >= limit.capacity {
        assert windows == windows[source := existing];
        return false;
      }
      windows := windows[source := existing.(count := existing.count + 1)];
      return true;
    }
  }
}
