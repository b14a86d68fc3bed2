/**
 The reconnecting sync client (packages/client/src/sync-client.ts): a cursor, the ids seen, and
 a subscription that is renewed from the cursor after every disconnect.
 */
module SyncClient {
  import opened Common

  type EventId = string

  datatype Event = Event(id: EventId, position: nat)

  /** A parsed frame: not an event frame with a numeric cursor, or one whose event id may be no string. */
  datatype Raw = Junk | Frame(cursor: nat, id: Option<EventId>)

  /** `seen` and `maxCursor` of `SyncState`, and what was passed to `onEvent`. */
  datatype State = State(seen: set<EventId>, maxCursor: nat, emitted: seq<Event>)

  function Initial(): State {
    State({}, 0, [])
  }

  function Max(a: nat, b: nat): nat {
    if a < b then b else a
  }

  function Accept(s: State, raw: Raw): State {
    if raw.Junk? then s else
    var t := s.(maxCursor := Max(s.maxCursor, raw.cursor));
    if raw.id.None? || raw.id.value in s.seen then t
    else t.(seen := s.seen + {raw.id.value}, emitted := s.emitted + [Event(raw.id.value, raw.cursor)])
  }

  /** `buildSubscribeFrame`: cursor 0 asks for live events only. */
  function SinceCursor(s: State): Option<nat> {
    if s.maxCursor > 0 then Some(s.maxCursor) else None
  }

  // ---------------------------------------------------------------- any frames at all

  function AcceptAll(frames: seq<Raw>): State
    decreases |frames|
  {
    if frames == [] then Initial() else Accept(AcceptAll(frames[..|frames| - 1]), frames[|frames| - 1])
  }

  predicate Names(raw: Raw, id: EventId) {
    raw.Frame? && raw.id == Some(id)
  }

  /** Frame `i` is the first that carries its event id. */
  predicate IsFirst(frames: seq<Raw>, i: nat)
    requires i < |frames|
  {
    frames[i].Frame? && frames[i].id.Some? && forall j | 0 <= j < i :: !Names(frames[j], frames[i].id.value)
  }

  /** The events that are first under their id among the first `n` frames, in order of arrival. */
  function FirstEvents(frames: seq<Raw>, n: nat): seq<Event>
    requires n <= |frames|
  {
    if n == 0 then [] else
    FirstEvents(frames, n - 1)
    + (if IsFirst(frames, n - 1) then [Event(frames[n - 1].id.value, frames[n - 1].cursor)] else [])
  }

  function HighestCursor(frames: seq<Raw>, n: nat): nat
    requires n <= |frames|
  {
    if n == 0 then 0
    else if frames[n - 1].Junk? then HighestCursor(frames, n - 1)
    else Max(HighestCursor(frames, n - 1), frames[n - 1].cursor)
  }

  lemma {:induction false} AcceptedSoFar(frames: seq<Raw>, n: nat)
    requires n <= |frames|
    ensures var s := AcceptAll(frames[..n]);
            && s.emitted == FirstEvents(frames, n) && s.maxCursor == HighestCursor(frames, n)
            && forall id :: id in s.seen <==> exists j :: 0 <= j < n && Names(frames[j], id)
    decreases n
  {
    if n > 0 {
      AcceptedSoFar(frames, n - 1);
      assert frames[..n][..n - 1] == frames[..n - 1];
      var s, raw := AcceptAll(frames[..n - 1]), frames[n - 1];
      assert AcceptAll(frames[..n]) == Accept(s, raw);
      if raw.Frame? && raw.id.Some? { assert IsFirst(frames, n - 1) <==> raw.id.value !in s.seen; }
      else { EmptyIsNeutral(s.emitted); }
      forall id ensures id in Accept(s, raw).seen <==> exists j :: 0 <= j < n && Names(frames[j], id) {
        if Names(raw, id) { assert Names(frames[n - 1], id); }
      }
    }
  }

  /**
   Whatever frames arrive, in whatever order and with whatever ids and cursors: the events passed on are those
   that are first under their id, in order of arrival, and the cursor is the highest any event frame carried.
   */
  lemma AcceptsTheFirstOfEachId(frames: seq<Raw>)
    ensures AcceptAll(frames).emitted == FirstEvents(frames, |frames|)
    ensures AcceptAll(frames).maxCursor == HighestCursor(frames, |frames|)
    ensures forall id :: (exists j :: 0 <= j < |frames| && Names(frames[j], id)) <==> id in AcceptAll(frames).seen
  {
    AcceptedSoFar(frames, |frames|);
    assert frames[..|frames|] == frames;
  }

  // ---------------------------------------------------------------- the server's side

  /** A log in which positions grow and ids do not repeat. */
  ghost predicate IsLog(log: seq<Event>) {
    && (forall i | 0 <= i < |log| :: log[i].position > 0)
    && (forall i, j | 0 <= i < j < |log| :: log[i].position < log[j].position && log[i].id != log[j].id)
  }

  /** A connection serves the log from `start`; it has delivered everything before `next`. */
  datatype Connection = Connection(start: nat, next: nat)

  /** Where a connection may start: just above the cursor, or anywhere when it is live only. */
  predicate MayStart(log: seq<Event>, since: Option<nat>, start: nat) {
    && start <= |log|
    && (since.Some? ==>
          && (forall i | 0 <= i < start :: log[i].position <= since.value)
          && (forall i | start <= i < |log| :: log[i].position > since.value))
  }

  datatype World = World(client: State, connection: Option<Connection>, stopped: bool)

  /** `DeliverNameless` is an event frame whose event has no string id; `index` stands for an event of the log. */
  datatype Action =
    | Open(start: nat)
    | Deliver(index: nat)
    | DeliverNameless(cursor: nat)
    | DeliverJunk
    | Drop
    | StopClient

  /** A connection delivers the next event of the log, or repeats one it delivered before, or sends anything else. */
  predicate Possible(log: seq<Event>, w: World, a: Action) {
    match a
    case Open(start) => !w.stopped && w.connection.None? && MayStart(log, SinceCursor(w.client), start)
    case Deliver(i) => w.connection.Some? && w.connection.value.start <= i <= w.connection.value.next && i < |log|
    case DeliverNameless(_) => w.connection.Some?
    case DeliverJunk => w.connection.Some?
    case Drop => w.connection.Some?
    case StopClient => true
  }

  function Apply(log: seq<Event>, w: World, a: Action): World
    requires Possible(log, w, a)
  {
    match a
    case Open(start) => w.(connection := Some(Connection(start, start)))
    case Deliver(i) =>
      w.(client := Accept(w.client, Frame(log[i].position, Some(log[i].id))),
         connection := Some(w.connection.value.(next := Max(w.connection.value.next, i + 1))))
    case DeliverNameless(cursor) => w.(client := Accept(w.client, Frame(cursor, None)))
    case DeliverJunk => w.(client := Accept(w.client, Junk))
    case Drop => w.(connection := None)
    case StopClient => w.(connection := None, stopped := true)
  }

  predicate IsRun(log: seq<Event>, w: World, actions: seq<Action>)
    decreases actions
  {
    actions == [] || (Possible(log, w, actions[0]) && IsRun(log, Apply(log, w, actions[0]), actions[1..]))
  }

  function Run(log: seq<Event>, w: World, actions: seq<Action>): World
    requires IsRun(log, w, actions)
    decreases actions
  {
    if actions == [] then w else Run(log, Apply(log, w, actions[0]), actions[1..])
  }

  const START := World(Initial(), None, false)

  // ---------------------------------------------------------------- what is passed on

  function LastPosition(events: seq<Event>): nat {
    if events == [] then 0 else events[|events| - 1].position
  }

  function Ids(events: seq<Event>): set<EventId> {
    set k | 0 <= k < |events| :: events[k].id
  }

  /** Events of the log, in its order and without repetition. */
  ghost predicate InOrder(log: seq<Event>, events: seq<Event>) {
    && (forall k | 0 <= k < |events| :: events[k] in log)
    && (forall j, k | 0 <= j < k < |events| :: events[j].position < events[k].position)
  }

  /** No event of the log lies between two that were passed on one after the other. */
  ghost predicate Gapless(log: seq<Event>, events: seq<Event>) {
    forall k, i | 0 < k < |events| && 0 <= i < |log| ::
      log[i].position <= events[k - 1].position || events[k].position <= log[i].position
  }

  /** A connection has passed on all it delivered, and what it delivers next lies above everything passed on. */
  ghost predicate Served(log: seq<Event>, s: State, c: Connection) {
    && c.start <= c.next <= |log|
    && (forall i | c.start <= i < c.next :: log[i] in s.emitted)
    && (forall i | c.next <= i < |log| :: log[i].position > LastPosition(s.emitted))
  }

  ghost predicate Inv(log: seq<Event>, w: World) {
    && InOrder(log, w.client.emitted) && w.client.seen == Ids(w.client.emitted)
    && LastPosition(w.client.emitted) <= w.client.maxCursor
    && (w.connection.Some? ==> Served(log, w.client, w.connection.value))
  }

  lemma LastIsHighest(log: seq<Event>, events: seq<Event>, e: Event)
    requires InOrder(log, events) && e in events
    ensures e.position <= LastPosition(events)
  {
    var k :| 0 <= k < |events| && events[k] == e;
  }

  lemma RepeatChangesNothing(log: seq<Event>, w: World, i: nat)
    requires Inv(log, w) && Possible(log, w, Deliver(i)) && i < w.connection.value.next
    ensures Apply(log, w, Deliver(i)) == w
  {
    LastIsHighest(log, w.client.emitted, log[i]);
    var k :| 0 <= k < |w.client.emitted| && w.client.emitted[k] == log[i];
    assert log[i].id in w.client.seen;
  }

  lemma NextIsPassedOn(log: seq<Event>, w: World, i: nat)
    requires IsLog(log) && Inv(log, w) && Possible(log, w, Deliver(i)) && i == w.connection.value.next
    ensures Apply(log, w, Deliver(i)).client ==
            State(w.client.seen + {log[i].id}, Max(w.client.maxCursor, log[i].position), w.client.emitted + [log[i]])
  {
    if log[i].id in w.client.seen {
      var k :| 0 <= k < |w.client.emitted| && w.client.emitted[k].id == log[i].id;
      var j :| 0 <= j < |log| && log[j] == w.client.emitted[k];
      LastIsHighest(log, w.client.emitted, log[j]);
      assert false;
    }
  }

  lemma NextInOrder(log: seq<Event>, events: seq<Event>, e: Event)
    requires InOrder(log, events) && e in log && e.position > LastPosition(events)
    ensures InOrder(log, events + [e]) && Ids(events + [e]) == Ids(events) + {e.id}
  {
    forall k | 0 <= k < |events| ensures events[k].position < e.position { LastIsHighest(log, events, events[k]); }
    assert (events + [e])[|events|] == e && forall k | 0 <= k < |events| :: (events + [e])[k] == events[k];
  }

  lemma NextKeepsInv(log: seq<Event>, w: World, i: nat)
    requires IsLog(log) && Inv(log, w) && Possible(log, w, Deliver(i)) && i == w.connection.value.next
    ensures Inv(log, Apply(log, w, Deliver(i)))
  {
    NextIsPassedOn(log, w, i);
    NextInOrder(log, w.client.emitted, log[i]);
  }

  lemma StepKeepsInv(log: seq<Event>, w: World, a: Action)
    requires IsLog(log) && Inv(log, w) && Possible(log, w, a)
    ensures Inv(log, Apply(log, w, a))
  {
    if a.Deliver? {
      if a.index < w.connection.value.next {
        RepeatChangesNothing(log, w, a.index);
      } else {
        NextKeepsInv(log, w, a.index);
      }
    }
  }

  lemma {:induction false} RunKeepsInv(log: seq<Event>, w: World, actions: seq<Action>)
    requires IsLog(log) && Inv(log, w) && IsRun(log, w, actions)
    ensures Inv(log, Run(log, w, actions))
    decreases actions
  {
    if actions != [] {
      StepKeepsInv(log, w, actions[0]);
      RunKeepsInv(log, Apply(log, w, actions[0]), actions[1..]);
    }
  }

  /** Whatever connections come and go, the client passes on events of the log, in its order and each once. */
  lemma EmitsInOrder(log: seq<Event>, actions: seq<Action>)
    requires IsLog(log) && IsRun(log, START, actions)
    ensures InOrder(log, Run(log, START, actions).client.emitted)
  {
    RunKeepsInv(log, START, actions);
  }

  // ---------------------------------------------------------------- the cursor

  /** The highest cursor of a frame whose event had no string id. */
  function HighestNameless(actions: seq<Action>): nat {
    if actions == [] then 0
    else Max(if actions[0].DeliverNameless? then actions[0].cursor else 0, HighestNameless(actions[1..]))
  }

  lemma CursorAfterStep(log: seq<Event>, w: World, a: Action, h: nat)
    requires IsLog(log) && Inv(log, w) && Possible(log, w, a)
    requires w.client.maxCursor == Max(LastPosition(w.client.emitted), h)
    ensures var s := Apply(log, w, a).client;
            s.maxCursor == Max(LastPosition(s.emitted), if a.DeliverNameless? then Max(h, a.cursor) else h)
  {
    if a.Deliver? {
      if a.index < w.connection.value.next {
        RepeatChangesNothing(log, w, a.index);
      } else {
        NextIsPassedOn(log, w, a.index);
      }
    }
  }

  lemma {:induction false} CursorAfter(log: seq<Event>, w: World, actions: seq<Action>, h: nat)
    requires IsLog(log) && Inv(log, w) && IsRun(log, w, actions)
    requires w.client.maxCursor == Max(LastPosition(w.client.emitted), h)
    ensures var s := Run(log, w, actions).client;
            s.maxCursor == Max(LastPosition(s.emitted), Max(h, HighestNameless(actions)))
    decreases actions
  {
    if actions != [] {
      var a := actions[0];
      StepKeepsInv(log, w, a);
      CursorAfterStep(log, w, a, h);
      CursorAfter(log, Apply(log, w, a), actions[1..], if a.DeliverNameless? then Max(h, a.cursor) else h);
    }
  }

  /**
   The cursor is the position of the last event passed on, unless a frame without a string id carried a
   higher one.
   */
  lemma CursorIsLastUnlessNameless(log: seq<Event>, actions: seq<Action>)
    requires IsLog(log) && IsRun(log, START, actions)
    ensures var s := Run(log, START, actions).client;
            && s.maxCursor == Max(LastPosition(s.emitted), HighestNameless(actions))
            && (s.maxCursor == LastPosition(s.emitted) <==> HighestNameless(actions) <= LastPosition(s.emitted))
  {
    CursorAfter(log, START, actions, 0);
  }

  // ---------------------------------------------------------------- gaps

  /** A reconnect whose cursor has run ahead of an event of the log that was not passed on yet. */
  ghost predicate Misses(log: seq<Event>, w: World, a: Action) {
    a.Open? && w.client.emitted != [] &&
    exists i :: 0 <= i < |log| && LastPosition(w.client.emitted) < log[i].position <= w.client.maxCursor
  }

  /** The new connection starts right after the last event passed on exactly if it misses none. */
  lemma ResumesUnlessItMisses(log: seq<Event>, w: World, start: nat)
    requires IsLog(log) && Inv(log, w) && Possible(log, w, Open(start)) && w.client.emitted != []
    ensures (forall i | 0 <= i < |log| :: i < start <==> log[i].position <= LastPosition(w.client.emitted))
            <==> !Misses(log, w, Open(start))
  {
    var last := w.client.emitted[|w.client.emitted| - 1];
    assert last in log;
  }

  /** How many events had been passed on at the first reconnect that missed one. */
  ghost function Missed(log: seq<Event>, w: World, actions: seq<Action>, m: Option<nat>): Option<nat>
    requires IsRun(log, w, actions)
    decreases actions
  {
    if actions == [] then m
    else Missed(log, Apply(log, w, actions[0]), actions[1..], MissedAfter(log, w, actions[0], m))
  }

  ghost function MissedAfter(log: seq<Event>, w: World, a: Action, m: Option<nat>): Option<nat> {
    if m.None? && Misses(log, w, a) then Some(|w.client.emitted|) else m
  }

  /** Some event of the log lies above everything passed on, and this connection will not deliver it. */
  ghost predicate Behind(log: seq<Event>, w: World) {
    w.client.emitted != [] &&
    exists i :: 0 <= i < |log| && LastPosition(w.client.emitted) < log[i].position <= w.client.maxCursor
                && (w.connection.Some? ==>
                      i < w.connection.value.start && w.connection.value.next == w.connection.value.start)
  }

  ghost predicate GapInv(log: seq<Event>, w: World, m: Option<nat>) {
    match m
    case None =>
      && Gapless(log, w.client.emitted)
      && (w.client.emitted != [] && w.connection.Some? ==>
            forall i | 0 <= i < |log| && i < w.connection.value.next ::
                log[i].position <= LastPosition(w.client.emitted))
    case Some(k) =>
      && k <= |w.client.emitted|
      && (if k == |w.client.emitted| then Gapless(log, w.client.emitted) && Behind(log, w)
          else !Gapless(log, w.client.emitted))
  }

  lemma GaplessAppend(log: seq<Event>, events: seq<Event>, e: Event)
    ensures Gapless(log, events + [e]) <==>
              Gapless(log, events) && (events == [] ||
              forall i | 0 <= i < |log| :: log[i].position <= LastPosition(events) || e.position <= log[i].position)
  {
    var t := events + [e];
    if Gapless(log, t) {
      forall k, i | 0 < k < |events| && 0 <= i < |log|
        ensures log[i].position <= events[k - 1].position || events[k].position <= log[i].position
      {
        assert t[k] == events[k] && t[k - 1] == events[k - 1];
      }
      if events != [] { assert t[|events|] == e && t[|events| - 1] == events[|events| - 1]; }
    }
  }

  /** What is passed on next leaves a gap exactly if the client is behind. */
  lemma NextLeavesGap(log: seq<Event>, w: World, i: nat, m: Option<nat>)
    requires IsLog(log) && Inv(log, w) && Possible(log, w, Deliver(i)) && i == w.connection.value.next
             && GapInv(log, w, m)
    ensures Gapless(log, w.client.emitted + [log[i]]) <==> m.None?
  {
    GaplessAppend(log, w.client.emitted, log[i]);
    if m.Some? && m.value == |w.client.emitted| {
      var j :| 0 <= j < |log| && LastPosition(w.client.emitted) < log[j].position <= w.client.maxCursor && j < i;
    }
  }

  lemma NextKeepsGapInv(log: seq<Event>, w: World, i: nat, m: Option<nat>)
    requires IsLog(log) && Inv(log, w) && Possible(log, w, Deliver(i)) && i == w.connection.value.next
             && GapInv(log, w, m)
    ensures GapInv(log, Apply(log, w, Deliver(i)), m)
  {
    NextIsPassedOn(log, w, i);
    NextLeavesGap(log, w, i, m);
  }

  lemma OpenKeepsGapInv(log: seq<Event>, w: World, start: nat, m: Option<nat>)
    requires IsLog(log) && Inv(log, w) && Possible(log, w, Open(start)) && GapInv(log, w, m)
    ensures GapInv(log, Apply(log, w, Open(start)), MissedAfter(log, w, Open(start), m))
  {
    if w.client.emitted != [] { assert w.client.emitted[|w.client.emitted| - 1] in log; }
  }

  lemma NamelessKeepsGapInv(log: seq<Event>, w: World, cursor: nat, m: Option<nat>)
    requires Possible(log, w, DeliverNameless(cursor)) && GapInv(log, w, m)
    ensures GapInv(log, Apply(log, w, DeliverNameless(cursor)), m)
  {}

  lemma SilenceKeepsGapInv(log: seq<Event>, w: World, a: Action, m: Option<nat>)
    requires Possible(log, w, a) && GapInv(log, w, m) && (a.DeliverJunk? || a.Drop? || a.StopClient?)
    ensures GapInv(log, Apply(log, w, a), m)
  {}

  lemma StepKeepsGapInv(log: seq<Event>, w: World, a: Action, m: Option<nat>)
    requires IsLog(log) && Inv(log, w) && Possible(log, w, a) && GapInv(log, w, m)
    ensures GapInv(log, Apply(log, w, a), MissedAfter(log, w, a, m))
  {
    match a
    case Open(start) => OpenKeepsGapInv(log, w, start, m);
    case Deliver(i) =>
      if i < w.connection.value.next { RepeatChangesNothing(log, w, i); } else { NextKeepsGapInv(log, w, i, m); }
    case DeliverNameless(cursor) => NamelessKeepsGapInv(log, w, cursor, m);
    case _ => SilenceKeepsGapInv(log, w, a, m);
  }

  lemma {:induction false} RunKeepsGapInv(log: seq<Event>, w: World, actions: seq<Action>, m: Option<nat>)
    requires IsLog(log) && Inv(log, w) && IsRun(log, w, actions) && GapInv(log, w, m)
    ensures GapInv(log, Run(log, w, actions), Missed(log, w, actions, m))
    decreases actions
  {
    if actions != [] {
      StepKeepsInv(log, w, actions[0]);
      StepKeepsGapInv(log, w, actions[0], m);
      RunKeepsGapInv(log, Apply(log, w, actions[0]), actions[1..], MissedAfter(log, w, actions[0], m));
    }
  }

  lemma DropLast(log: seq<Event>, events: seq<Event>)
    requires InOrder(log, events) && Gapless(log, events) && events != []
    ensures var front, last := events[..|events| - 1], events[|events| - 1];
            && InOrder(log, front) && Gapless(log, front) && last in log
            && (front != [] ==> front[|front| - 1].position < last.position)
            && (front == [] || forall i | 0 <= i < |log| ::
                  log[i].position <= LastPosition(front) || last.position <= log[i].position)
  {
    var front := events[..|events| - 1];
    assert events == front + [events[|events| - 1]];
    GaplessAppend(log, front, events[|events| - 1]);
    assert forall k | 0 <= k < |front| :: front[k] == events[k];
  }

  /** In order and without a gap means a contiguous stretch of the log. */
  lemma {:induction false} GaplessIsStretch(log: seq<Event>, events: seq<Event>) returns (first: nat)
    requires IsLog(log) && InOrder(log, events) && Gapless(log, events)
    ensures first + |events| <= |log| && events == log[first..first + |events|]
    decreases |events|
  {
    if events == [] { return 0; }
    var front, last := events[..|events| - 1], events[|events| - 1];
    DropLast(log, events);
    first := GaplessIsStretch(log, front);
    var j :| 0 <= j < |log| && log[j] == last;
    if front == [] { return j; }
    StretchExtends(log, front, first, j);
  }

  lemma StretchExtends(log: seq<Event>, front: seq<Event>, first: nat, j: nat)
    requires IsLog(log) && front != [] && first + |front| <= |log| && front == log[first..first + |front|]
    requires j < |log| && front[|front| - 1].position < log[j].position
    requires forall i | 0 <= i < |log| :: log[i].position <= LastPosition(front) || log[j].position <= log[i].position
    ensures first + |front| + 1 <= |log| && front + [log[j]] == log[first..first + |front| + 1]
  {
    var n := first + |front|;
    assert front[|front| - 1] == log[n - 1];
    assert n <= j;
    assert log[n - 1].position < log[n].position;
    assert log[first..n + 1] == log[first..n] + [log[n]];
  }

  /**
   Main result: over any disconnects, repetitions and malformed frames, the events passed on are a contiguous
   stretch of the log if and only if nothing new was passed on after a reconnect that missed an event.
   */
  lemma GaplessIffNothingMissed(log: seq<Event>, actions: seq<Action>)
    requires IsLog(log) && IsRun(log, START, actions)
    ensures var s := Run(log, START, actions).client;
            var missed := Missed(log, START, actions, None);
            Gapless(log, s.emitted) <==> missed.None? || |s.emitted| == missed.value
  {
    RunKeepsGapInv(log, START, actions, None);
  }

  const THREE := [Event("a", 1), Event("b", 2), Event("c", 3)]
  const AHEAD := World(State({"a"}, 2, [Event("a", 1)]), None, false)

  /** Both sides occur: a frame without a string id at cursor 2, a reconnect, and the event at position 2 is skipped. */
  lemma NamelessFrameSkipsAnEvent()
    ensures var actions := [Open(0), Deliver(0), DeliverNameless(2), Drop, Open(2), Deliver(2)];
            && IsLog(THREE) && IsRun(THREE, START, actions)
            && Run(THREE, START, actions).client.emitted == [THREE[0], THREE[2]]
  {
    var actions := [Open(0), Deliver(0), DeliverNameless(2), Drop, Open(2), Deliver(2)];
    ReopenedAhead(actions);
    RanAhead(actions);
    var online := START.(connection := Some(Connection(0, 0)));
    Unroll(THREE, online, actions, 1, ONE_PASSED_ON);
    Unroll(THREE, START, actions, 0, online);
    assert actions[0..] == actions;
  }

  const ONE_PASSED_ON := World(State({"a"}, 1, [Event("a", 1)]), Some(Connection(0, 1)), false)

  lemma RanAhead(actions: seq<Action>)
    requires |actions| == 6 && actions[2] == DeliverNameless(2) && actions[3] == Drop
    requires IsRun(THREE, AHEAD, actions[4..])
    ensures IsRun(THREE, ONE_PASSED_ON, actions[2..])
    ensures Run(THREE, ONE_PASSED_ON, actions[2..]) == Run(THREE, AHEAD, actions[4..])
  {
    var ahead := AHEAD.(connection := Some(Connection(0, 1)));
    Unroll(THREE, ahead, actions, 3, AHEAD);
    Unroll(THREE, ONE_PASSED_ON, actions, 2, ahead);
  }

  lemma ReopenedAhead(actions: seq<Action>)
    requires |actions| == 6 && actions[4] == Open(2) && actions[5] == Deliver(2)
    ensures IsRun(THREE, AHEAD, actions[4..])
    ensures Run(THREE, AHEAD, actions[4..]).client.emitted == [THREE[0], THREE[2]]
  {
    var reopened := AHEAD.(connection := Some(Connection(2, 2)));
    Unroll(THREE, reopened, actions, 5, Apply(THREE, reopened, actions[5]));
    Unroll(THREE, AHEAD, actions, 4, reopened);
  }

  /** One step of a concrete run. */
  lemma Unroll(log: seq<Event>, w: World, actions: seq<Action>, k: nat, t: World)
    requires k < |actions| && Possible(log, w, actions[k]) && Apply(log, w, actions[k]) == t
    requires IsRun(log, t, actions[k + 1..])
    ensures IsRun(log, w, actions[k..])
    ensures Run(log, w, actions[k..]) == Run(log, t, actions[k + 1..])
  {
    assert actions[k..][1..] == actions[k + 1..];
  }

  /** Without a frame that lacks a string id no reconnect misses anything: then the stretch is always contiguous. */
  lemma EmitsAStretchOfTheLog(log: seq<Event>, actions: seq<Action>) returns (first: nat)
    requires IsLog(log) && IsRun(log, START, actions)
    requires HighestNameless(actions) == 0
    ensures var s := Run(log, START, actions).client;
            && first + |s.emitted| <= |log| && s.emitted == log[first..first + |s.emitted|]
            && s.maxCursor == LastPosition(s.emitted)
  {
    NothingMissed(log, START, actions);
    RunKeepsGapInv(log, START, actions, None);
    RunKeepsInv(log, START, actions);
    CursorAfter(log, START, actions, 0);
    first := GaplessIsStretch(log, Run(log, START, actions).client.emitted);
  }

  lemma {:induction false} NothingMissed(log: seq<Event>, w: World, actions: seq<Action>)
    requires IsLog(log) && Inv(log, w) && IsRun(log, w, actions) && HighestNameless(actions) == 0
    requires w.client.maxCursor == LastPosition(w.client.emitted)
    ensures Missed(log, w, actions, None) == None
    decreases actions
  {
    if actions != [] {
      var a := actions[0];
      StepKeepsInv(log, w, a);
      CursorAfterStep(log, w, a, 0);
      NothingMissed(log, Apply(log, w, a), actions[1..]);
    }
  }

  /** An event missed by a reconnect is lost: no later connection delivers it and it is never passed on. */
  lemma {:induction false} MissedIsLost(log: seq<Event>, w: World, actions: seq<Action>, i: nat)
    requires IsLog(log) && Inv(log, w) && IsRun(log, w, actions) && i < |log| && log[i] !in w.client.emitted
    requires log[i].position <= w.client.maxCursor && (w.connection.Some? ==> i < w.connection.value.start)
    ensures log[i] !in Run(log, w, actions).client.emitted
    decreases actions
  {
    if actions != [] {
      StepKeepsInv(log, w, actions[0]);
      MissedIsLost(log, Apply(log, w, actions[0]), actions[1..], i);
    }
  }

  /** What was passed on is never taken back: a longer run only extends it. */
  lemma {:induction false} EmittedOnlyGrows(log: seq<Event>, w: World, actions: seq<Action>)
    requires IsRun(log, w, actions)
    ensures w.client.emitted <= Run(log, w, actions).client.emitted
    decreases actions
  {
    if actions != [] { EmittedOnlyGrows(log, Apply(log, w, actions[0]), actions[1..]); }
  }

  // ---------------------------------------------------------------- the objects

  class SyncState {
    var seen: set<EventId>
    var maxCursor: nat
    ghost var emitted: seq<Event>

    ghost function View(): State
      reads this
    {
      State(seen, maxCursor, emitted)
    }

    constructor ()
      ensures View() == Initial()
    {
      seen, maxCursor, emitted := {}, 0, [];
    }

    method AcceptFrame(raw: Raw) returns (out: Option<Event>)
      modifies this
      ensures View() == Accept(old(View()), raw)
      ensures emitted == if out.Some? then old(emitted) + [out.value] else old(emitted)
    {
      if raw.Junk? { return None; }
      if raw.cursor > maxCursor { maxCursor := raw.cursor; }
      if raw.id.None? || raw.id.value in seen { return None; }
      seen := seen + {raw.id.value};
      emitted := emitted + [Event(raw.id.value, raw.cursor)];
      return Some(Event(raw.id.value, raw.cursor));
    }
  }

  /** `createSyncClient`: opens a transport unless stopped, and again after each close. */
  class Client {
    const state: SyncState
    var transport: bool
    var stopped: bool

    constructor ()
      ensures fresh(state) && state.View() == Initial() && !transport && !stopped
    {
      state := new SyncState();
      transport, stopped := false, false;
    }

    /** `since` is the cursor of the subscribe frame sent on the new transport. */
    method Open() returns (connected: bool, since: Option<nat>)
      modifies this`transport
      ensures connected == !stopped && transport == (connected || old(transport))
      ensures since == if connected then SinceCursor(state.View()) else None
      ensures connected ==> since == if state.maxCursor == 0 then None else Some(state.maxCursor)
    {
      if stopped { return false, None; }
      transport := true;
      return true, if state.maxCursor > 0 then Some(state.maxCursor) else None;
    }

    method OnClose() returns (reconnect: bool)
      modifies this`transport
      ensures !transport && reconnect == !stopped
    {
      transport := false;
      return !stopped;
    }

    method Stop()
      modifies this
      ensures stopped && !transport
    {
      stopped, transport := true, false;
    }
  }
}
