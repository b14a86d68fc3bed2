/**
 Run events from the node's streams to the server's commits, over the transport with
 receipts switched on. The network may drop a connection at any point, deliver any frame
 ever written any number of times and in any order, and do the same with receipts.
 */
module EventDelivery {
  import opened Common
  import opened EventKeys
  import opened Transport

  type RunId = string

  datatype Frame = Frame(run: RunId, sequence: nat)
  datatype Waiter = Waiter(sequence: nat, promise: nat)

  /**
   The loop of `streamStartedRun` for one run: the next sequence, the send it awaits, the
   sequences whose send resolved and those given to best-effort output. A run has one such
   loop in the life of the node (`NodeRun.OneStreamPerRun`), hence one counter.
   */
  datatype Stream = Stream(next: nat, waiting: Option<Waiter>, resolved: set<nat>, optional: set<nat>)

  /** What the server stored for a frame, and after how many other commits. */
  datatype Commit = Commit(at: nat, message: Message)

  /**
   `sent` is what was ever sent under each sequence, `owner` the frame each promise of a
   required run event stands for, `accepts` and `rejects` the receipts the server wrote.
   */
  datatype World = World(
    transport: Transport.State, streams: map<RunId, Stream>, sent: map<Frame, Message>, owner: map<nat, Frame>,
    commits: map<Frame, Commit>, clock: nat, accepts: set<Frame>, rejects: set<Frame>)

  function Initial(): World {
    World(Transport.Initial(true), map[], map[], map[], map[], 0, {}, {})
  }

  function StreamOf(s: World, run: RunId): Stream {
    if run in s.streams then s.streams[run] else Stream(0, None, {}, {})
  }

  function FrameOf(m: Message): Frame
    requires m.RunEvent?
  {
    Frame(m.runId, m.sequence)
  }

  datatype Action =
    | Required(run: RunId, eventType: EventType, body: nat, wrote: bool)
    | Optional(run: RunId, body: nat, wrote: bool)
    | OtherFrame(message: Message, wrote: bool)
    | Wake(run: RunId)
    | Link(action: Transport.Action)
    | Receipt(frame: Frame, accepted: bool)
    | ServerCommits(message: Message)
    | ServerRejects(message: Message)

  predicate Environment(a: Transport.Action) {
    !a.ActSend? && !a.ActReceipt?
  }

  /** Run ids carry their own prefix (packages/domain/src/ids.ts:11), so none is the bare word of a counter key. */
  predicate IsRunId(run: RunId) {
    run != "frame"
  }

  predicate Possible(s: World, a: Action) {
    match a
    case Required(run, _, _, _) => IsRunId(run) && StreamOf(s, run).waiting.None?
    case Optional(run, _, _) => IsRunId(run) && StreamOf(s, run).waiting.None?
    case OtherFrame(m, _) => !m.RunEvent?
    case Wake(run) => var w := StreamOf(s, run).waiting; w.Some? && w.value.promise in s.transport.settled
    case Link(x) => Environment(x) && Transport.Possible(s.transport, x)
    case Receipt(f, accepted) => f in (if accepted then s.accepts else s.rejects)
    case ServerCommits(m) => m in s.transport.wire && m.RunEvent?
    case ServerRejects(m) => m in s.transport.wire && m.RunEvent?
  }

  function RequiredMessage(s: World, run: RunId, eventType: EventType, body: nat): Message {
    RunEvent(run, StreamOf(s, run).next, eventType, body)
  }

  function SendRequired(s: World, m: Message, wrote: bool): World
    requires m.RunEvent?
  {
    var st, f := StreamOf(s, m.runId), FrameOf(m);
    var r := Send(s.transport, m, false, wrote);
    s.(transport := r.0, sent := s.sent[f := m],
       streams := s.streams[m.runId := st.(next := st.next + 1,
         waiting := if r.1.Promised? then Some(Waiter(m.sequence, r.1.id)) else None)],
       owner := if r.1.Promised? then s.owner[r.1.id := f] else s.owner)
  }

  function SendOptional(s: World, m: Message, wrote: bool): World
    requires m.RunEvent?
  {
    var st := StreamOf(s, m.runId);
    s.(transport := Send(s.transport, m, true, wrote).0, sent := s.sent[FrameOf(m) := m],
       streams := s.streams[m.runId := st.(next := st.next + 1, optional := st.optional + {m.sequence})])
  }

  function WakeStream(s: World, run: RunId): World
    requires Possible(s, Wake(run))
  {
    var st := StreamOf(s, run);
    s.(streams := s.streams[run := st.(waiting := None,
      resolved := if s.transport.settled[st.waiting.value.promise] == Resolved
                  then st.resolved + {st.waiting.value.sequence} else st.resolved)])
  }

  /** `ingestWireRunEvent`: the first delivery commits, a later one finds the frame there. */
  function Ingest(s: World, m: Message): World
    requires m.RunEvent?
  {
    var f := FrameOf(m);
    s.(accepts := s.accepts + {f}, clock := s.clock + 1,
       commits := if f in s.commits then s.commits else s.commits[f := Commit(s.clock, m)])
  }

  function Apply(s: World, a: Action): World
    requires Possible(s, a)
  {
    match a
    case Required(run, eventType, body, wrote) => SendRequired(s, RequiredMessage(s, run, eventType, body), wrote)
    case Optional(run, body, wrote) => SendOptional(s, RequiredMessage(s, run, OutputEvent, body), wrote)
    case OtherFrame(m, wrote) => s.(transport := Send(s.transport, m, false, wrote).0)
    case Wake(run) => WakeStream(s, run)
    case Link(x) => s.(transport := Step(s.transport, x))
    case Receipt(f, accepted) => s.(transport := OnReceipt(s.transport, f.run, f.sequence, accepted))
    case ServerCommits(m) => Ingest(s, m)
    case ServerRejects(m) => s.(rejects := s.rejects + {FrameOf(m)})
  }

  predicate IsRun(s: World, actions: seq<Action>)
    decreases actions
  {
    actions == [] || (Possible(s, actions[0]) && IsRun(Apply(s, actions[0]), actions[1..]))
  }

  function Run(s: World, actions: seq<Action>): World
    requires IsRun(s, actions)
    decreases actions
  {
    if actions == [] then s else Run(Apply(s, actions[0]), actions[1..])
  }

  // ---------------------------------------------------------------- the invariant

  ghost predicate Numbered(key: string, counter: nat) {
    exists c: nat :: c < counter && key == FrameKey(c)
  }

  /** A pending run event is the one its stream awaits; any other pending frame has a counter key. */
  ghost predicate EntryOk(s: World, e: Entry) {
    if e.message.RunEvent? then
      var f := FrameOf(e.message);
      && IsRunId(f.run) && f in s.sent && s.sent[f] == e.message
      && e.promise in s.owner && s.owner[e.promise] == f
      && StreamOf(s, f.run).waiting == Some(Waiter(f.sequence, e.promise))
    else e.promise !in s.owner && Numbered(e.key, s.transport.counter)
  }

  ghost predicate StreamOk(s: World, run: RunId) {
    var st := StreamOf(s, run);
    && (forall q | q in st.resolved || q in st.optional :: q < st.next)
    && st.resolved !! st.optional
    && (forall q | q in st.resolved :: Frame(run, q) in s.commits)
    && (st.waiting.Some? ==>
          && st.waiting.value.sequence + 1 == st.next
          && st.waiting.value.sequence !in st.resolved + st.optional
          && st.waiting.value.promise in s.owner
          && s.owner[st.waiting.value.promise] == Frame(run, st.waiting.value.sequence))
  }

  ghost predicate SentOk(s: World, f: Frame) {
    f in s.sent ==> f.sequence < StreamOf(s, f.run).next && s.sent[f].RunEvent? && FrameOf(s.sent[f]) == f
  }

  predicate Known(sent: map<Frame, Message>, m: Message) {
    m.RunEvent? ==> FrameOf(m) in sent && sent[FrameOf(m)] == m
  }

  ghost predicate ServerOk(s: World, f: Frame) {
    && (f in s.commits ==> f in s.sent && s.commits[f].message == s.sent[f] && s.commits[f].at < s.clock)
    && (f in s.accepts ==> f in s.commits)
  }

  ghost predicate PromiseOk(s: World, p: nat) {
    p in s.owner ==>
      && p < s.transport.promises
      && (p in s.transport.settled && s.transport.settled[p] == Resolved ==> s.owner[p] in s.commits)
  }

  /** A resolved event was committed before any later event of its run. */
  ghost predicate OrderOk(s: World, run: RunId, q: nat) {
    q in StreamOf(s, run).resolved && Frame(run, q) in s.commits ==>
      forall r: nat | Frame(run, r) in s.commits && q < r :: s.commits[Frame(run, q)].at < s.commits[Frame(run, r)].at
  }

  ghost predicate Inv(s: World) {
    && Transport.Valid(s.transport) && s.transport.receipts && s.transport.lost == {}
    && (forall i | 0 <= i < |s.transport.pending| :: EntryOk(s, s.transport.pending[i]))
    && (forall run: RunId :: StreamOk(s, run))
    && (forall f: Frame :: SentOk(s, f))
    && (forall k | 0 <= k < |s.transport.wire| :: Known(s.sent, s.transport.wire[k]))
    && (forall f: Frame :: ServerOk(s, f))
    && (forall p: nat :: PromiseOk(s, p))
    && (forall run: RunId, q: nat :: OrderOk(s, run, q))
  }

  // ---------------------------------------------------------------- transport steps that send no run event

  /** What a transport step may do to a state whose streams stay as they are. */
  lemma LinkKeepsEntries(s: World, a: Transport.Action)
    requires Inv(s) && Transport.Possible(s.transport, a) && (a.ActSend? ==> !a.message.RunEvent? && !a.bestEffort)
    ensures var t := s.(transport := Step(s.transport, a));
            forall i | 0 <= i < |t.transport.pending| :: EntryOk(t, t.transport.pending[i])
  {
    var t := s.(transport := Step(s.transport, a));
    LinkCounts(s, a);
    forall i | 0 <= i < |t.transport.pending| ensures EntryOk(t, t.transport.pending[i]) {
      var e := t.transport.pending[i];
      PendingOnlyFromSends(s.transport, a, e);
      if e in s.transport.pending {
        assert EntryOk(s, e);
        NumberedGrows(e.key, s.transport.counter, t.transport.counter);
      } else {
        assert PromiseOk(s, e.promise);
        NewFrameCounts(s.transport, a, e);
      }
    }
  }

  lemma NumberedGrows(key: string, c: nat, d: nat)
    requires c <= d
    ensures Numbered(key, c) ==> Numbered(key, d)
  {}

  lemma NewFrameCounts(s: Transport.State, a: Transport.Action, e: Entry)
    requires a.ActSend? && !a.message.RunEvent? && e == NewEntry(s, a.message) && e in Step(s, a).pending
             && e !in s.pending
    ensures Numbered(e.key, Step(s, a).counter)
  {
    var t := Step(s, a);
    assert t.counter == s.counter + 1;
    assert e.key == FrameKey(s.counter) && s.counter < t.counter;
  }

  lemma LinkCounts(s: World, a: Transport.Action)
    requires Inv(s) && (a.ActSend? ==> Known(s.sent, a.message))
    ensures var t := Step(s.transport, a);
            && t.counter >= s.transport.counter && t.promises >= s.transport.promises && t.receipts
            && (forall k | 0 <= k < |t.wire| :: Known(s.sent, t.wire[k]))
  {
    var p := (m: Message) => Known(s.sent, m);
    var ms := Messages(s.transport.pending);
    forall k | 0 <= k < |ms| ensures p(ms[k]) { assert EntryOk(s, s.transport.pending[k]); }
    assert AllSatisfy(s.transport.wire, p);
    StepWritesOnly(s.transport, a, p);
    var t := Step(s.transport, a);
    forall k | 0 <= k < |t.wire| ensures Known(s.sent, t.wire[k]) { assert p(t.wire[k]); }
  }

  /** Whatever resolves a promise of a run event was an accepting receipt the server wrote after its commit. */
  lemma LinkKeepsPromise(s: World, a: Transport.Action, p: nat)
    requires Inv(s) && Transport.Possible(s.transport, a)
    requires a.ActReceipt? && a.accepted ==> Frame(a.runId, a.sequence) in s.accepts
    ensures p in s.owner && p in Step(s.transport, a).settled && Step(s.transport, a).settled[p] == Resolved ==>
            s.owner[p] in s.commits
  {
    var t := Step(s.transport, a);
    if p in s.owner && p in t.settled && t.settled[p] == Resolved {
      StepKeepsValid(s.transport, a);
      assert PromiseOk(s, p);
      if p !in s.transport.settled {
        assert Waiting(s.transport.pending, p);
        var i :| 0 <= i < |s.transport.pending| && s.transport.pending[i].promise == p;
        assert EntryOk(s, s.transport.pending[i]);
        ResolvedOnlyByItsReceipt(s.transport, a, i);
        assert ServerOk(s, s.owner[p]);
      }
    }
  }

  lemma CounterKeyIsFree(s: World, m: Message)
    requires Inv(s) && !m.RunEvent?
    ensures !HasKey(s.transport.pending, MessageKey(s.transport, m))
  {
    var i := IndexOf(s.transport.pending, MessageKey(s.transport, m));
    if i < |s.transport.pending| {
      var e := s.transport.pending[i];
      assert EntryOk(s, e);
      if e.message.RunEvent? {
        FrameKeyInjective(s.transport.counter, 0, e.message.runId, e.message.sequence);
      } else {
        var c: nat :| c < s.transport.counter && e.key == FrameKey(c);
        FrameKeyInjective(c, s.transport.counter, "", 0);
      }
    }
  }

  lemma LinkKeepsInv(s: World, a: Transport.Action)
    requires Inv(s) && Transport.Possible(s.transport, a) && (a.ActSend? ==> !a.message.RunEvent? && !a.bestEffort)
    requires a.ActReceipt? && a.accepted ==> Frame(a.runId, a.sequence) in s.accepts
    ensures Inv(s.(transport := Step(s.transport, a)))
  {
    var t := s.(transport := Step(s.transport, a));
    StepKeepsValid(s.transport, a);
    if a.ActSend? { CounterKeyIsFree(s, a.message); }
    LinkCounts(s, a);
    LinkKeepsEntries(s, a);
    forall run: RunId ensures StreamOk(t, run) { assert StreamOk(s, run); }
    forall f: Frame ensures SentOk(t, f) && ServerOk(t, f) { assert SentOk(s, f) && ServerOk(s, f); }
    forall p: nat ensures PromiseOk(t, p) { assert PromiseOk(s, p); LinkKeepsPromise(s, a, p); }
    forall run: RunId, q: nat ensures OrderOk(t, run, q) { assert OrderOk(s, run, q); }
  }

  // ---------------------------------------------------------------- sends of run events

  /** The next sequence of a stream that awaits nothing is not pending under any entry. */
  lemma NextKeyIsFree(s: World, m: Message)
    requires Inv(s) && m.RunEvent? && IsRunId(m.runId) && StreamOf(s, m.runId).waiting.None?
    ensures !HasKey(s.transport.pending, EventKey(m.runId, m.sequence))
  {
    var i := IndexOf(s.transport.pending, EventKey(m.runId, m.sequence));
    if i < |s.transport.pending| {
      var e := s.transport.pending[i];
      assert EntryOk(s, e);
      if e.message.RunEvent? {
        EventKeyInjective(e.message.runId, e.message.sequence, m.runId, m.sequence);
      } else {
        var c: nat :| c < s.transport.counter && e.key == FrameKey(c);
        FrameKeyInjective(c, 0, m.runId, m.sequence);
      }
    }
  }

  /** Extending `sent` with a sequence never used keeps every frame written or waiting recognised. */
  lemma NextIsUnsent(s: World, m: Message)
    requires Inv(s) && m.RunEvent? && m.sequence == StreamOf(s, m.runId).next
    ensures FrameOf(m) !in s.sent && FrameOf(m) !in s.commits && m.sequence !in StreamOf(s, m.runId).resolved
  {
    assert SentOk(s, FrameOf(m)) && ServerOk(s, FrameOf(m)) && StreamOk(s, m.runId);
  }

  ghost predicate Sendable(s: World, m: Message) {
    && Inv(s) && m.RunEvent? && IsRunId(m.runId)
    && StreamOf(s, m.runId).waiting.None? && m.sequence == StreamOf(s, m.runId).next
  }

  lemma RequiredTransport(s: World, m: Message, wrote: bool)
    requires Sendable(s, m)
    ensures var r, t := Send(s.transport, m, false, wrote), s.transport;
            && Valid(r.0) && r.0.lost == {} && KeepsSettled(t, r.0)
            && (if r.1.Promised? then r.1.id == t.promises && r.0.promises == t.promises + 1
                  && Waiting(r.0.pending, t.promises)
                else r.1 == Threw && r.0 == t)
  {
    var a := ActSend(m, false, wrote);
    StepKeepsValid(s.transport, a);
    NextKeyIsFree(s, m);
    if Send(s.transport, m, false, wrote).1.Promised? { AcceptedEventWaits(s.transport, m, wrote); }
  }

  lemma RequiredKeepsWire(s: World, m: Message, wrote: bool)
    requires Sendable(s, m)
    ensures var t := SendRequired(s, m, wrote);
            && (forall k | 0 <= k < |t.transport.wire| :: Known(t.sent, t.transport.wire[k]))
            && t.transport.receipts && t.transport.counter >= s.transport.counter
  {
    var t := SendRequired(s, m, wrote);
    var p := (x: Message) => Known(t.sent, x);
    NextIsUnsent(s, m);
    KnownFrames(s, p);
    StepWritesOnly(s.transport, ActSend(m, false, wrote), p);
    forall k | 0 <= k < |t.transport.wire| ensures Known(t.sent, t.transport.wire[k]) { assert p(t.transport.wire[k]); }
  }

  /** Everything written or waiting to be replayed is known. */
  lemma KnownFrames(s: World, p: Message -> bool)
    requires Inv(s) && forall x :: Known(s.sent, x) ==> p(x)
    ensures AllSatisfy(s.transport.wire, p) && AllSatisfy(Messages(s.transport.pending), p)
  {
    var ms := Messages(s.transport.pending);
    forall k | 0 <= k < |ms| ensures p(ms[k]) {
      assert EntryOk(s, s.transport.pending[k]);
      assert Known(s.sent, ms[k]);
    }
    forall k | 0 <= k < |s.transport.wire| ensures p(s.transport.wire[k]) { assert Known(s.sent, s.transport.wire[k]); }
  }

  lemma RequiredKeepsEntry(s: World, m: Message, wrote: bool, e: Entry)
    requires Sendable(s, m) && e in s.transport.pending
             && s.transport.counter <= SendRequired(s, m, wrote).transport.counter
    ensures EntryOk(SendRequired(s, m, wrote), e)
  {
    assert EntryOk(s, e) && Waiting(s.transport.pending, e.promise);
    RequiredTransport(s, m, wrote);
    NextIsUnsent(s, m);
    NumberedGrows(e.key, s.transport.counter, SendRequired(s, m, wrote).transport.counter);
  }

  lemma RequiredAddsEntry(s: World, m: Message, wrote: bool)
    requires Sendable(s, m) && Send(s.transport, m, false, wrote).1.Promised?
    ensures EntryOk(SendRequired(s, m, wrote), NewEntry(s.transport, m))
  {
    RequiredTransport(s, m, wrote);
  }

  lemma RequiredEntry(s: World, m: Message, wrote: bool, e: Entry)
    requires Sendable(s, m) && e in Send(s.transport, m, false, wrote).0.pending
    ensures EntryOk(SendRequired(s, m, wrote), e)
  {
    RequiredKeepsWire(s, m, wrote);
    if e in s.transport.pending {
      RequiredKeepsEntry(s, m, wrote, e);
    } else {
      PendingOnlyFromSends(s.transport, ActSend(m, false, wrote), e);
      RequiredTransport(s, m, wrote);
      RequiredAddsEntry(s, m, wrote);
    }
  }

  lemma RequiredKeepsStream(s: World, m: Message, wrote: bool, run: RunId)
    requires Sendable(s, m)
    ensures StreamOk(SendRequired(s, m, wrote), run)
  {
    RequiredTransport(s, m, wrote);
    assert StreamOk(s, run);
    var w := StreamOf(s, run).waiting;
    if w.Some? { assert PromiseOk(s, w.value.promise); }
  }

  lemma RequiredKeepsFrame(s: World, m: Message, wrote: bool, f: Frame)
    requires Sendable(s, m)
    ensures SentOk(SendRequired(s, m, wrote), f) && ServerOk(SendRequired(s, m, wrote), f)
  {
    NextIsUnsent(s, m);
    assert SentOk(s, f) && ServerOk(s, f);
  }

  lemma RequiredKeepsPromises(s: World, m: Message, wrote: bool, p: nat)
    requires Sendable(s, m)
    ensures PromiseOk(SendRequired(s, m, wrote), p)
  {
    RequiredTransport(s, m, wrote);
    assert PromiseOk(s, p);
    LinkKeepsPromise(s, ActSend(m, false, wrote), p);
  }

  lemma RequiredKeepsInv(s: World, m: Message, wrote: bool)
    requires Sendable(s, m)
    ensures Inv(SendRequired(s, m, wrote))
  {
    var t := SendRequired(s, m, wrote);
    RequiredTransport(s, m, wrote);
    RequiredKeepsWire(s, m, wrote);
    forall i | 0 <= i < |t.transport.pending| ensures EntryOk(t, t.transport.pending[i]) {
      RequiredEntry(s, m, wrote, t.transport.pending[i]);
    }
    forall run: RunId ensures StreamOk(t, run) { RequiredKeepsStream(s, m, wrote, run); }
    forall f: Frame ensures SentOk(t, f) && ServerOk(t, f) { RequiredKeepsFrame(s, m, wrote, f); }
    forall p: nat ensures PromiseOk(t, p) { RequiredKeepsPromises(s, m, wrote, p); }
    forall run: RunId, q: nat ensures OrderOk(t, run, q) { assert OrderOk(s, run, q); }
  }

  /** Best-effort output leaves the transport as it was, but for the frame it may write. */
  lemma OptionalTouchesOnlyTheWire(s: Transport.State, m: Message, wrote: bool)
    ensures var t := Send(s, m, true, wrote).0;
            t == s.(wire := t.wire) && (t.wire == s.wire || t.wire == s.wire + [m])
  {}

  lemma OptionalKeepsStreams(s: World, m: Message, wrote: bool)
    requires Sendable(s, m) && SendOptional(s, m, wrote).transport.pending == s.transport.pending
    requires SendOptional(s, m, wrote).transport.counter == s.transport.counter
    ensures var t := SendOptional(s, m, wrote);
            && (forall i | 0 <= i < |t.transport.pending| :: EntryOk(t, t.transport.pending[i]))
            && (forall run: RunId :: StreamOk(t, run)) && (forall f: Frame :: SentOk(t, f) && ServerOk(t, f))
  {
    var t := SendOptional(s, m, wrote);
    NextIsUnsent(s, m);
    forall i | 0 <= i < |t.transport.pending| ensures EntryOk(t, t.transport.pending[i]) {
      assert EntryOk(s, s.transport.pending[i]);
    }
    forall run: RunId ensures StreamOk(t, run) { assert StreamOk(s, run); }
    forall f: Frame ensures SentOk(t, f) && ServerOk(t, f) { assert SentOk(s, f) && ServerOk(s, f); }
  }

  lemma OptionalKeepsInv(s: World, m: Message, wrote: bool)
    requires Sendable(s, m)
    ensures Inv(SendOptional(s, m, wrote))
  {
    var t := SendOptional(s, m, wrote);
    OptionalTouchesOnlyTheWire(s.transport, m, wrote);
    OptionalKeepsStreams(s, m, wrote);
    NextIsUnsent(s, m);
    assert Valid(t.transport);
    forall p: nat ensures PromiseOk(t, p) { assert PromiseOk(s, p); }
    forall run: RunId, q: nat ensures OrderOk(t, run, q) { assert OrderOk(s, run, q); }
  }

  // ---------------------------------------------------------------- waking, committing

  lemma WakeKeepsInv(s: World, run: RunId)
    requires Inv(s) && Possible(s, Wake(run))
    ensures Inv(WakeStream(s, run))
  {
    var t, w := WakeStream(s, run), StreamOf(s, run).waiting.value;
    assert StreamOk(s, run) && PromiseOk(s, w.promise);
    forall i | 0 <= i < |t.transport.pending| ensures EntryOk(t, t.transport.pending[i]) {
      assert EntryOk(s, s.transport.pending[i]);
      assert Waiting(s.transport.pending, s.transport.pending[i].promise);
    }
    forall r: RunId ensures StreamOk(t, r) { assert StreamOk(s, r); }
    forall f: Frame ensures SentOk(t, f) && ServerOk(t, f) { assert SentOk(s, f) && ServerOk(s, f); }
    forall p: nat ensures PromiseOk(t, p) { assert PromiseOk(s, p); }
    forall r: RunId, q: nat ensures OrderOk(t, r, q) {
      assert OrderOk(s, r, q);
      if r == run && q == w.sequence { LatestIsLast(s, run, q); }
    }
  }

  /** Nothing of the run is committed beyond the event its stream awaits. */
  lemma LatestIsLast(s: World, run: RunId, q: nat)
    requires Inv(s) && q + 1 == StreamOf(s, run).next
    ensures forall r: nat | Frame(run, r) in s.commits :: r <= q
  {
    forall r: nat | Frame(run, r) in s.commits ensures r <= q {
      assert ServerOk(s, Frame(run, r)) && SentOk(s, Frame(run, r));
    }
  }

  lemma IngestKeepsInv(s: World, m: Message)
    requires Inv(s) && Possible(s, ServerCommits(m))
    ensures Inv(Ingest(s, m))
  {
    var t := Ingest(s, m);
    var k :| 0 <= k < |s.transport.wire| && s.transport.wire[k] == m;
    assert Known(s.sent, m);
    forall i | 0 <= i < |t.transport.pending| ensures EntryOk(t, t.transport.pending[i]) {
      assert EntryOk(s, s.transport.pending[i]);
    }
    forall run: RunId ensures StreamOk(t, run) { assert StreamOk(s, run); }
    forall f: Frame ensures SentOk(t, f) && ServerOk(t, f) { assert SentOk(s, f) && ServerOk(s, f); }
    forall p: nat ensures PromiseOk(t, p) { assert PromiseOk(s, p); }
    forall run: RunId, q: nat ensures OrderOk(t, run, q) {
      assert OrderOk(s, run, q) && StreamOk(s, run) && ServerOk(s, Frame(run, q));
    }
  }

  lemma StepKeepsInv(s: World, a: Action)
    requires Inv(s) && Possible(s, a)
    ensures Inv(Apply(s, a))
  {
    match a
    case Required(run, eventType, body, wrote) => RequiredKeepsInv(s, RequiredMessage(s, run, eventType, body), wrote);
    case Optional(run, body, wrote) => OptionalKeepsInv(s, RequiredMessage(s, run, OutputEvent, body), wrote);
    case OtherFrame(m, wrote) => LinkKeepsInv(s, ActSend(m, false, wrote));
    case Wake(run) => WakeKeepsInv(s, run);
    case Link(x) => LinkKeepsInv(s, x);
    case Receipt(f, accepted) => LinkKeepsInv(s, ActReceipt(f.run, f.sequence, accepted));
    case ServerCommits(m) => IngestKeepsInv(s, m);
    case ServerRejects(m) => RejectKeepsInv(s, m);
  }

  lemma RejectKeepsInv(s: World, m: Message)
    requires Inv(s) && m.RunEvent?
    ensures Inv(s.(rejects := s.rejects + {FrameOf(m)}))
  {
    var t := s.(rejects := s.rejects + {FrameOf(m)});
    forall i | 0 <= i < |t.transport.pending| ensures EntryOk(t, t.transport.pending[i]) {
      assert EntryOk(s, s.transport.pending[i]);
    }
    forall run: RunId ensures StreamOk(t, run) { assert StreamOk(s, run); }
    forall f: Frame ensures SentOk(t, f) && ServerOk(t, f) { assert SentOk(s, f) && ServerOk(s, f); }
    forall p: nat ensures PromiseOk(t, p) { assert PromiseOk(s, p); }
    forall run: RunId, q: nat ensures OrderOk(t, run, q) { assert OrderOk(s, run, q); }
  }

  lemma {:induction false} RunKeepsInv(s: World, actions: seq<Action>)
    requires Inv(s) && IsRun(s, actions)
    ensures Inv(Run(s, actions))
    decreases actions
  {
    if actions != [] {
      StepKeepsInv(s, actions[0]);
      RunKeepsInv(Apply(s, actions[0]), actions[1..]);
    }
  }

  // ---------------------------------------------------------------- main results

  /** Every world a run can reach satisfies the invariant. */
  lemma Reached(actions: seq<Action>)
    requires IsRun(Initial(), actions)
    ensures Inv(Run(Initial(), actions))
  {
    RunKeepsInv(Initial(), actions);
  }

  /** Every frame on the wire carries what was sent under its sequence. */
  lemma WireIsSent(s: World)
    requires Inv(s)
    ensures forall k | 0 <= k < |s.transport.wire| && s.transport.wire[k].RunEvent? ::
              FrameOf(s.transport.wire[k]) in s.sent && s.sent[FrameOf(s.transport.wire[k])] == s.transport.wire[k]
  {
    forall k | 0 <= k < |s.transport.wire| ensures Known(s.sent, s.transport.wire[k]) {}
  }

  /**
   However often the connection drops and frames or receipts are repeated: a required send
   resolves only after the server committed that run and sequence, with the content sent.
   */
  lemma ResolvedMeansCommitted(actions: seq<Action>, run: RunId, q: nat)
    requires IsRun(Initial(), actions) && q in StreamOf(Run(Initial(), actions), run).resolved
    ensures var s := Run(Initial(), actions);
            Frame(run, q) in s.commits && Frame(run, q) in s.sent
                && s.commits[Frame(run, q)].message == s.sent[Frame(run, q)]
  {
    Reached(actions);
    var s := Run(Initial(), actions);
    assert StreamOk(s, run) && ServerOk(s, Frame(run, q));
  }

  /** Resolved events were committed in sequence order, and before anything that follows them in the run. */
  lemma ResolvedInSequenceOrder(actions: seq<Action>, run: RunId, q: nat, r: nat)
    requires IsRun(Initial(), actions) && q < r
    requires var s := Run(Initial(), actions); q in StreamOf(s, run).resolved && Frame(run, r) in s.commits
    ensures var s := Run(Initial(), actions);
            Frame(run, q) in s.commits && s.commits[Frame(run, q)].at < s.commits[Frame(run, r)].at
  {
    Reached(actions);
    var s := Run(Initial(), actions);
    assert StreamOk(s, run) && OrderOk(s, run, q);
  }

  /** At most one required event of a run is pending, it is the latest sequence, and it is the one awaited. */
  lemma OneRequiredEventPerRun(actions: seq<Action>, i: nat, j: nat)
    requires IsRun(Initial(), actions)
    requires var p := Run(Initial(), actions).transport.pending;
             i < |p| && j < |p| && p[i].message.RunEvent? && p[j].message.RunEvent?
                 && p[i].message.runId == p[j].message.runId
    ensures i == j
    ensures var s := Run(Initial(), actions);
            s.transport.pending[i].message.sequence + 1 == StreamOf(s, s.transport.pending[i].message.runId).next
  {
    Reached(actions);
    var s := Run(Initial(), actions);
    var e, f := s.transport.pending[i], s.transport.pending[j];
    assert EntryOk(s, e) && EntryOk(s, f) && StreamOk(s, e.message.runId);
    assert e.promise == f.promise;
  }

  lemma SentStays(s: World, a: Action)
    requires Inv(s) && Possible(s, a)
    ensures forall f | f in s.sent :: f in Apply(s, a).sent && Apply(s, a).sent[f] == s.sent[f]
  {
    if a.Required? || a.Optional? { assert SentOk(s, Frame(a.run, StreamOf(s, a.run).next)); }
  }

  /** No send ever re-uses a sequence, so a replay always carries the content first sent. */
  lemma SequencesAreNeverReused(actions: seq<Action>, a: Action)
    requires IsRun(Initial(), actions) && Possible(Run(Initial(), actions), a)
    ensures var s := Run(Initial(), actions);
            var t := Apply(s, a);
            && (forall f | f in s.sent :: f in t.sent && t.sent[f] == s.sent[f])
            && (a.Required? || a.Optional? ==> Frame(a.run, StreamOf(s, a.run).next) !in s.sent)
            && (forall k | 0 <= k < |t.transport.wire| && t.transport.wire[k].RunEvent? ::
                  FrameOf(t.transport.wire[k]) in t.sent && t.sent[FrameOf(t.transport.wire[k])] == t.transport.wire[k])
  {
    Reached(actions);
    var s := Run(Initial(), actions);
    StepKeepsInv(s, a);
    if a.Required? || a.Optional? { assert SentOk(s, Frame(a.run, StreamOf(s, a.run).next)); }
    SentStays(s, a);
    WireIsSent(Apply(s, a));
  }

  /** No promise is lost: a stream that waits has its event in the replay map or can go on. */
  lemma NoStreamIsForgotten(actions: seq<Action>, run: RunId)
    requires IsRun(Initial(), actions) && StreamOf(Run(Initial(), actions), run).waiting.Some?
    ensures var s := Run(Initial(), actions);
            Possible(s, Wake(run)) || Waiting(s.transport.pending, StreamOf(s, run).waiting.value.promise)
  {
    Reached(actions);
    var s := Run(Initial(), actions);
    assert StreamOk(s, run) && PromiseOk(s, StreamOf(s, run).waiting.value.promise);
  }

  /** A receipt for best-effort output, or for an event whose stream has moved on, changes nothing at all. */
  lemma OnlyTheAwaitedReceiptCounts(actions: seq<Action>, f: Frame, accepted: bool)
    requires IsRun(Initial(), actions) && IsRunId(f.run)
    requires var w := StreamOf(Run(Initial(), actions), f.run).waiting; w.Some? ==> w.value.sequence != f.sequence
    ensures var s := Run(Initial(), actions).transport; OnReceipt(s, f.run, f.sequence, accepted) == s
  {
    Reached(actions);
    var s := Run(Initial(), actions);
    var i := IndexOf(s.transport.pending, EventKey(f.run, f.sequence));
    if i < |s.transport.pending| {
      var e := s.transport.pending[i];
      assert EntryOk(s, e);
      if e.message.RunEvent? {
        EventKeyInjective(e.message.runId, e.message.sequence, f.run, f.sequence);
      } else {
        var c: nat :| c < s.transport.counter && e.key == FrameKey(c);
        FrameKeyInjective(c, 0, f.run, f.sequence);
      }
    }
  }

  /** In particular the sequences given to best-effort output never settle a promise. */
  lemma OptionalReceiptSettlesNothing(actions: seq<Action>, run: RunId, q: nat, accepted: bool)
    requires IsRun(Initial(), actions) && IsRunId(run) && q in StreamOf(Run(Initial(), actions), run).optional
    ensures var s := Run(Initial(), actions).transport; OnReceipt(s, run, q, accepted) == s
  {
    Reached(actions);
    assert StreamOk(Run(Initial(), actions), run);
    OnlyTheAwaitedReceiptCounts(actions, Frame(run, q), accepted);
  }

  lemma ReceiptResolves(s: World, run: RunId, w: Waiter)
    requires Inv(s) && StreamOf(s, run).waiting == Some(w) && Waiting(s.transport.pending, w.promise)
    ensures var t := OnReceipt(s.transport, run, w.sequence, true);
            w.promise in t.settled && t.settled[w.promise] == Resolved
  {
    var i :| 0 <= i < |s.transport.pending| && s.transport.pending[i].promise == w.promise;
    assert EntryOk(s, s.transport.pending[i]) && StreamOk(s, run);
    ReceiptSettlesItsEntryOnly(s.transport, run, w.sequence, true, i);
  }

  /** The accepting receipt of the awaited event, however late, lets its stream go on with that event resolved. */
  lemma ReceiptReleasesTheStream(s: World, run: RunId, w: Waiter)
    requires Inv(s) && StreamOf(s, run).waiting == Some(w) && Waiting(s.transport.pending, w.promise)
    requires Frame(run, w.sequence) in s.accepts
    ensures var t := Apply(s, Receipt(Frame(run, w.sequence), true));
            && Possible(t, Wake(run))
            && StreamOf(WakeStream(t, run), run).waiting == None
                  && w.sequence in StreamOf(WakeStream(t, run), run).resolved
  {
    ReceiptResolves(s, run, w);
  }
}
