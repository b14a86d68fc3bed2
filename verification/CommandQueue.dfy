/**
 The offline command queue (packages/client/src/command-queue.ts:79-137) over a network that
 loses, delays and repeats requests and answers, against a server that stores the response of
 every key it applied (packages/db/src/idempotency.ts:49-81) and refuses stale base versions.
 */
module CommandQueue {
  import opened Common

  type Key = string

  /** A key stands for one logical command: enqueueing it again means the same payload and base version. */
  datatype Command = Command(key: Key, resource: nat, base: Option<nat>, payload: nat)

  datatype Reply = Applied(response: nat) | Conflict(base: nat, current: nat)

  datatype Outcome =
    | AppliedOutcome(command: Command, response: nat, duplicate: bool)
    | ConflictOutcome(command: Command, base: nat, current: nat)

  /** No pass, a pass awaiting its send, or a pass that is over but whose `finally` has not run. */
  datatype Pass = NoPass | Sending | Ending

  datatype Queue = Queue(pending: seq<Command>, appliedKeys: set<Key>, pass: Pass)

  /** The version of each resource, the response kept for each key, and the log of what the server did. */
  datatype Server = Server(versions: map<nat, nat>, stored: map<Key, nat>, effects: seq<Command>)

  /**
   `history` is everything enqueued, `settled` every outcome; `sent` and `replies` are what the network may
   deliver.
   */
  datatype State = State(
    queue: Queue, server: Server, history: seq<Command>, settled: seq<Outcome>, sent: set<Command>,
    replies: set<(Command, Reply)>)

  function Initial(versions: map<nat, nat>): State {
    State(Queue([], {}, NoPass), Server(versions, map[], []), [], [], {}, {})
  }

  // ---------------------------------------------------------------- the queue

  datatype SendResult = Answered(reply: Reply) | Retry

  /** Start the pass, or send the next command of it, or find nothing left. */
  function NextSend(q: Queue): Queue {
    q.(pass := if q.pending == [] then Ending else Sending)
  }

  function OutcomeOf(q: Queue, c: Command, reply: Reply): Outcome {
    match reply
    case Applied(response) => AppliedOutcome(c, response, c.key in q.appliedKeys)
    case Conflict(base, current) => ConflictOutcome(c, base, current)
  }

  function SettleHead(q: Queue, reply: Reply): Queue
    requires q.pending != []
  {
    NextSend(q.(pending := q.pending[1..],
                appliedKeys := if reply.Applied? then q.appliedKeys + {q.pending[0].key} else q.appliedKeys))
  }

  // ---------------------------------------------------------------- the server

  function VersionOf(v: Server, resource: nat): nat {
    if resource in v.versions then v.versions[resource] else 0
  }

  function Bump(v: Server, resource: nat, amount: nat): Server {
    v.(versions := v.versions[resource := VersionOf(v, resource) + amount])
  }

  predicate Stale(v: Server, c: Command) {
    c.base.Some? && c.base.value < VersionOf(v, c.resource)
  }

  /**
   One request: a known key gets its stored response and no effect; `bump` is how far this effect moves the
   version.
   */
  function Process(v: Server, c: Command, response: nat, bump: nat): (Server, Reply) {
    if c.key in v.stored then (v, Applied(v.stored[c.key]))
    else if Stale(v, c) then (v, Conflict(c.base.value, VersionOf(v, c.resource)))
    else (Bump(v, c.resource, bump).(stored := v.stored[c.key := response], effects := v.effects + [c]),
        Applied(response))
  }

  // ---------------------------------------------------------------- steps

  datatype Action =
    | Enqueue(command: Command)
    | Flush
    | Returns(result: SendResult)
    | PassEnds
    | Deliver(command: Command, response: nat, bump: nat)
    | OtherWriter(resource: nat, bump: nat)

  predicate Possible(s: State, a: Action) {
    match a
    case Enqueue(c) => forall d | d in s.history :: d.key == c.key ==> d == c
    case Flush => true
    case Returns(result) =>
      && s.queue.pass == Sending && s.queue.pending != []
      && (result.Answered? ==> (s.queue.pending[0], result.reply) in s.replies)
    case PassEnds => s.queue.pass == Ending
    case Deliver(c, _, _) => c in s.sent
    case OtherWriter(_, _) => true
  }

  /** Entering `Sending` puts the head on the network. */
  function WithQueue(s: State, q: Queue): State {
    s.(queue := q, sent := if q.pass == Sending && q.pending != [] then s.sent + {q.pending[0]} else s.sent)
  }

  function Apply(s: State, a: Action): State
    requires Possible(s, a)
  {
    match a
    case Enqueue(c) => s.(queue := s.queue.(pending := s.queue.pending + [c]), history := s.history + [c])
    case Flush => if s.queue.pass != NoPass then s else WithQueue(s, NextSend(s.queue))
    case Returns(Retry) => s.(queue := s.queue.(pass := Ending))
    case Returns(Answered(reply)) =>
      WithQueue(s, SettleHead(s.queue, reply)).(settled := s.settled + [OutcomeOf(s.queue, s.queue.pending[0], reply)])
    case PassEnds => s.(queue := s.queue.(pass := NoPass))
    case Deliver(c, response, bump) =>
      var (v, reply) := Process(s.server, c, response, bump);
      s.(server := v, replies := s.replies + {(c, reply)})
    case OtherWriter(resource, bump) => s.(server := Bump(s.server, resource, bump))
  }

  predicate IsRun(s: State, actions: seq<Action>)
    decreases actions
  {
    actions == [] || (Possible(s, actions[0]) && IsRun(Apply(s, actions[0]), actions[1..]))
  }

  function Run(s: State, actions: seq<Action>): State
    requires IsRun(s, actions)
    decreases actions
  {
    if actions == [] then s else Run(Apply(s, actions[0]), actions[1..])
  }

  // ---------------------------------------------------------------- readings

  function Commands(settled: seq<Outcome>): (r: seq<Command>)
    ensures |r| == |settled| && forall k | 0 <= k < |r| :: r[k] == settled[k].command
  {
    seq(|settled|, k requires 0 <= k < |settled| => settled[k].command)
  }

  /** The commands that took effect according to the outcomes, in order. */
  function Effective(settled: seq<Outcome>): seq<Command>
    decreases |settled|
  {
    if settled == [] then [] else
    var last := settled[|settled| - 1];
    Effective(settled[..|settled| - 1]) + (if last.AppliedOutcome? && !last.duplicate then [last.command] else [])
  }

  predicate HasKey(cs: seq<Command>, k: Key) {
    exists i :: 0 <= i < |cs| && cs[i].key == k
  }

  /** The specification: go through the commands in order and apply each key once, unless it is refused. */
  function ApplyOnce(cs: seq<Command>, refused: set<Key>): seq<Command>
    decreases |cs|
  {
    if cs == [] then [] else
    var done, last := ApplyOnce(cs[..|cs| - 1], refused), cs[|cs| - 1];
    if last.key in refused || HasKey(done, last.key) then done else done + [last]
  }

  function Refused(settled: seq<Outcome>): set<Key> {
    set k | 0 <= k < |settled| && settled[k].ConflictOutcome? :: settled[k].command.key
  }

  predicate DistinctKeys(cs: seq<Command>) {
    forall i, j | 0 <= i < j < |cs| :: cs[i].key != cs[j].key
  }

  /** What the server may have applied without the client knowing yet: at most the head of the queue. */
  ghost predicate Unacknowledged(pending: seq<Command>, tail: seq<Command>) {
    tail == [] || (pending != [] && tail == [pending[0]])
  }

  // ---------------------------------------------------------------- invariant

  ghost predicate OutcomeOk(s: State, k: nat)
    requires k < |s.settled|
  {
    var o := s.settled[k];
    match o
    case AppliedOutcome(c, response, duplicate) =>
      && c.key in s.server.stored && s.server.stored[c.key] == response
      && (duplicate <==> HasKey(Effective(s.settled[..k]), c.key))
    case ConflictOutcome(c, _, _) => c.key !in s.server.stored && Stale(s.server, c)
  }

  ghost predicate ReplyOk(s: State, c: Command, r: Reply) {
    match r
    case Applied(response) => c.key in s.server.stored && s.server.stored[c.key] == response
    case Conflict(_, _) => c.key !in s.server.stored && Stale(s.server, c)
  }

  ghost predicate OneCommandPerKey(cs: seq<Command>) {
    forall i, j | 0 <= i < |cs| && 0 <= j < |cs| && cs[i].key == cs[j].key :: cs[i] == cs[j]
  }

  ghost predicate Unsettled(s: State) {
    && s.history == Commands(s.settled) + s.queue.pending
    && OneCommandPerKey(s.history)
    && (s.queue.pass == Sending ==> s.queue.pending != [] && s.queue.pending[0] in s.sent)
    && (forall c | c in s.sent :: c in Commands(s.settled) || (s.queue.pending != [] && c == s.queue.pending[0]))
    && (forall k :: k in s.queue.appliedKeys <==> HasKey(Effective(s.settled), k))
  }

  ghost predicate Applies(s: State) {
    && DistinctKeys(s.server.effects)
    && (forall k :: k in s.server.stored <==> HasKey(s.server.effects, k))
    && |Effective(s.settled)| <= |s.server.effects|
    && s.server.effects[..|Effective(s.settled)|] == Effective(s.settled)
    && Unacknowledged(s.queue.pending, s.server.effects[|Effective(s.settled)|..])
    && (forall k | 0 <= k < |s.settled| :: OutcomeOk(s, k))
    && (forall c, r | (c, r) in s.replies :: ReplyOk(s, c, r))
  }

  ghost predicate Inv(s: State) {
    Unsettled(s) && Applies(s)
  }

  lemma EffectiveAppend(settled: seq<Outcome>, o: Outcome)
    ensures Effective(settled + [o]) ==
            if o.AppliedOutcome? && !o.duplicate then Effective(settled) + [o.command] else Effective(settled)
    ensures forall k | 0 <= k <= |settled| :: (settled + [o])[..k] == settled[..k]
  {
    var t := settled + [o];
    assert t[..|t| - 1] == settled;
  }

  lemma HasKeyAppend(cs: seq<Command>, c: Command, k: Key)
    ensures HasKey(cs + [c], k) <==> HasKey(cs, k) || c.key == k
  {
    var t := cs + [c];
    assert t[|cs|] == c;
    if HasKey(cs, k) {
      var i :| 0 <= i < |cs| && cs[i].key == k;
      assert t[i].key == k;
    }
  }

  lemma DistinctLast(cs: seq<Command>, c: Command)
    requires DistinctKeys(cs + [c])
    ensures !HasKey(cs, c.key)
  {
    forall i | 0 <= i < |cs| ensures cs[i].key != c.key { assert (cs + [c])[i].key != (cs + [c])[|cs|].key; }
  }

  lemma CommandsAppend(settled: seq<Outcome>, o: Outcome)
    ensures Commands(settled + [o]) == Commands(settled) + [o.command]
  {}

  lemma EnqueueKeepsInv(s: State, c: Command)
    requires Inv(s) && Possible(s, Enqueue(c))
    ensures Inv(Apply(s, Enqueue(c)))
  {
    var t := Apply(s, Enqueue(c));
    Associative(Commands(s.settled), s.queue.pending, [c]);
    assert forall i | 0 <= i < |s.history| :: t.history[i] == s.history[i] && s.history[i] in s.history;
    forall k | 0 <= k < |t.settled| ensures OutcomeOk(t, k) { assert OutcomeOk(s, k); }
    forall d, r | (d, r) in t.replies ensures ReplyOk(t, d, r) { assert ReplyOk(s, d, r); }
  }

  /** Starting, ending or retrying a pass leaves the lists alone. */
  lemma PassKeepsInv(s: State, a: Action)
    requires Inv(s) && Possible(s, a) && (a.Flush? || a.PassEnds? || a == Returns(Retry))
    ensures Inv(Apply(s, a))
  {
    var t := Apply(s, a);
    forall k | 0 <= k < |t.settled| ensures OutcomeOk(t, k) { assert OutcomeOk(s, k); }
    forall d, r | (d, r) in t.replies ensures ReplyOk(t, d, r) { assert ReplyOk(s, d, r); }
  }

  /** Whatever the server does, outcomes and answers it gave stay right: it keeps responses and only ages versions. */
  lemma ServerKeepsAnswers(s: State, v: Server)
    requires Inv(s) && forall r: nat :: VersionOf(v, r) >= VersionOf(s.server, r)
    requires forall k | k in s.server.stored :: k in v.stored && v.stored[k] == s.server.stored[k]
    requires forall k | 0 <= k < |s.settled| :: s.settled[k].ConflictOutcome? ==> s.settled[k].command.key !in v.stored
    requires forall c, r | (c, r) in s.replies :: r.Conflict? ==> c.key !in v.stored
    ensures forall k | 0 <= k < |s.settled| :: OutcomeOk(s.(server := v), k)
    ensures forall c, r | (c, r) in s.replies :: ReplyOk(s.(server := v), c, r)
  {
    forall k | 0 <= k < |s.settled| ensures OutcomeOk(s.(server := v), k) { assert OutcomeOk(s, k); }
    forall c, r | (c, r) in s.replies ensures ReplyOk(s.(server := v), c, r) { assert ReplyOk(s, c, r); }
  }

  lemma OtherWriterKeepsInv(s: State, resource: nat, bump: nat)
    requires Inv(s)
    ensures Inv(Apply(s, OtherWriter(resource, bump)))
  {
    forall k | 0 <= k < |s.settled|
      ensures s.settled[k].ConflictOutcome? ==> s.settled[k].command.key !in s.server.stored
    {
      assert OutcomeOk(s, k);
    }
    forall c, r | (c, r) in s.replies ensures r.Conflict? ==> c.key !in s.server.stored { assert ReplyOk(s, c, r); }
    ServerKeepsAnswers(s, Bump(s.server, resource, bump));
  }

  lemma SettledHasVerdict(s: State, c: Command)
    requires Inv(s) && c in Commands(s.settled)
    ensures c.key in s.server.stored || Stale(s.server, c)
  {
    var k :| 0 <= k < |s.settled| && Commands(s.settled)[k] == c;
    assert OutcomeOk(s, k);
  }

  /** Either everything the server did is acknowledged, or the head has been applied as well. */
  lemma AcknowledgedOrHead(s: State)
    requires Inv(s)
    ensures || s.server.effects == Effective(s.settled)
            || (s.queue.pending != [] && s.server.effects == Effective(s.settled) + [s.queue.pending[0]])
  {
    var n := |Effective(s.settled)|;
    assert s.server.effects == s.server.effects[..n] + s.server.effects[n..];
  }

  /** A request that takes effect is the head of the queue, and nothing else was unacknowledged. */
  lemma NewEffectIsHead(s: State, c: Command)
    requires Inv(s) && c in s.sent && c.key !in s.server.stored && !Stale(s.server, c)
    ensures s.queue.pending != [] && c == s.queue.pending[0]
    ensures s.server.effects == Effective(s.settled)
  {
    if c in Commands(s.settled) { SettledHasVerdict(s, c); }
    AcknowledgedOrHead(s);
    HasKeyAppend(Effective(s.settled), c, c.key);
  }

  /** Another command with a key that just took effect is the same command. */
  lemma SameKeySameCommand(s: State, c: Command, d: Command)
    requires OneCommandPerKey(s.history) && c in s.history && d in s.history && c.key == d.key
    ensures c == d
  {
    var i :| 0 <= i < |s.history| && s.history[i] == c;
    var j :| 0 <= j < |s.history| && s.history[j] == d;
  }

  ghost predicate RepliesKnown(s: State) {
    forall c, r | (c, r) in s.replies :: c in s.sent
  }

  lemma SentIsHistory(s: State, c: Command)
    requires Inv(s) && c in s.sent
    ensures c in s.history
  {}

  lemma EffectKeepsVerdicts(s: State, c: Command)
    requires Inv(s) && RepliesKnown(s) && c in s.sent && !Stale(s.server, c)
    ensures forall k | 0 <= k < |s.settled| :: s.settled[k].ConflictOutcome? ==> s.settled[k].command.key != c.key
    ensures forall d, r | (d, r) in s.replies :: r.Conflict? ==> d.key != c.key
  {
    SentIsHistory(s, c);
    forall k | 0 <= k < |s.settled| ensures s.settled[k].ConflictOutcome? ==> s.settled[k].command.key != c.key {
      assert OutcomeOk(s, k);
      assert s.history[k] == Commands(s.settled)[k];
      if s.settled[k].command.key == c.key { SameKeySameCommand(s, c, s.settled[k].command); }
    }
    forall d, r | (d, r) in s.replies ensures r.Conflict? ==> d.key != c.key {
      assert ReplyOk(s, d, r);
      SentIsHistory(s, d);
      if d.key == c.key { SameKeySameCommand(s, c, d); }
    }
  }

  /** A request that changes the server: it appends the head of the queue to the log. */
  lemma EffectKeepsInv(s: State, c: Command, response: nat, bump: nat)
    requires Inv(s) && RepliesKnown(s) && c in s.sent && c.key !in s.server.stored && !Stale(s.server, c)
    ensures Inv(Apply(s, Deliver(c, response, bump)))
  {
    var t := Apply(s, Deliver(c, response, bump));
    NewEffectIsHead(s, c);
    EffectKeepsVerdicts(s, c);
    forall k | 0 <= k < |s.settled|
      ensures s.settled[k].ConflictOutcome? ==> s.settled[k].command.key !in t.server.stored
    {
      assert OutcomeOk(s, k);
    }
    forall d, r | (d, r) in s.replies ensures r.Conflict? ==> d.key !in t.server.stored { assert ReplyOk(s, d, r); }
    ServerKeepsAnswers(s, t.server);
    forall k | 0 <= k < |t.settled| ensures OutcomeOk(t, k) { assert OutcomeOk(s.(server := t.server), k); }
    forall d, r | (d, r) in t.replies ensures ReplyOk(t, d, r) {
      if (d, r) in s.replies { assert ReplyOk(s.(server := t.server), d, r); }
    }
    EffectExtendsLog(s, c, response, bump);
  }

  lemma EffectExtendsLog(s: State, c: Command, response: nat, bump: nat)
    requires Inv(s) && c.key !in s.server.stored && !Stale(s.server, c)
    requires s.queue.pending != [] && c == s.queue.pending[0] && s.server.effects == Effective(s.settled)
    ensures var v := Process(s.server, c, response, bump).0;
            var n := |Effective(s.settled)|;
            && DistinctKeys(v.effects) && (forall k :: k in v.stored <==> HasKey(v.effects, k))
            && v.effects[..n] == Effective(s.settled) && v.effects[n..] == [c]
  {
    var v := Process(s.server, c, response, bump).0;
    forall k ensures k in v.stored <==> HasKey(v.effects, k) { HasKeyAppend(s.server.effects, c, k); }
    forall i, j | 0 <= i < j < |v.effects| ensures v.effects[i].key != v.effects[j].key {
      if j == |s.server.effects| { assert HasKey(s.server.effects, s.server.effects[i].key); }
    }
  }

  /** A request the server answers from what it knows. */
  lemma AnswerKeepsInv(s: State, c: Command, response: nat, bump: nat)
    requires Inv(s) && (c.key in s.server.stored || Stale(s.server, c))
    requires c in s.sent
    ensures Inv(Apply(s, Deliver(c, response, bump)))
  {
    var t := Apply(s, Deliver(c, response, bump));
    forall k | 0 <= k < |t.settled| ensures OutcomeOk(t, k) { assert OutcomeOk(s, k); }
    forall d, r | (d, r) in t.replies ensures ReplyOk(t, d, r) {
      if (d, r) in s.replies { assert ReplyOk(s, d, r); }
    }
  }

  // ---------------------------------------------------------------- settling the head

  lemma SettledLists(s: State, reply: Reply)
    requires Inv(s) && Possible(s, Returns(Answered(reply)))
    ensures Unsettled(Apply(s, Returns(Answered(reply))))
  {
    var t := Apply(s, Returns(Answered(reply)));
    var head := s.queue.pending[0];
    var o := OutcomeOf(s.queue, head, reply);
    CommandsAppend(s.settled, o);
    EffectiveAppend(s.settled, o);
    Associative(Commands(s.settled), [head], t.queue.pending);
    assert s.queue.pending == [head] + t.queue.pending;
    assert t.settled == s.settled + [o];
    forall c | c in t.sent ensures c in Commands(t.settled) || (t.queue.pending != [] && c == t.queue.pending[0]) {
      if c in s.sent { assert c in Commands(s.settled) || c == head; }
    }
    forall k ensures k in t.queue.appliedKeys <==> HasKey(Effective(t.settled), k) {
      HasKeyAppend(Effective(s.settled), head, k);
    }
  }

  /** The head's verdict lines up with what the server had already done to it. */
  lemma SettledEffects(s: State, reply: Reply)
    requires Inv(s) && Possible(s, Returns(Answered(reply)))
    ensures Effective(Apply(s, Returns(Answered(reply))).settled) == s.server.effects
  {
    var head := s.queue.pending[0];
    var o := OutcomeOf(s.queue, head, reply);
    EffectiveAppend(s.settled, o);
    assert ReplyOk(s, head, reply);
    AcknowledgedOrHead(s);
    var e := Effective(s.settled);
    HasKeyAppend(e, head, head.key);
    if s.server.effects == e + [head] { DistinctLast(e, head); }
  }

  lemma SettledOutcome(s: State, reply: Reply, k: nat)
    requires Inv(s) && Possible(s, Returns(Answered(reply))) && k <= |s.settled|
    ensures OutcomeOk(Apply(s, Returns(Answered(reply))), k)
  {
    var t := Apply(s, Returns(Answered(reply)));
    EffectiveAppend(s.settled, OutcomeOf(s.queue, s.queue.pending[0], reply));
    assert ReplyOk(s, s.queue.pending[0], reply);
    if k < |s.settled| {
      assert OutcomeOk(s, k);
    } else {
      assert t.settled[..k] == s.settled;
    }
  }

  lemma SettleKeepsInv(s: State, reply: Reply)
    requires Inv(s) && Possible(s, Returns(Answered(reply)))
    ensures Inv(Apply(s, Returns(Answered(reply))))
  {
    var t := Apply(s, Returns(Answered(reply)));
    SettledLists(s, reply);
    SettledEffects(s, reply);
    forall k | 0 <= k < |t.settled| ensures OutcomeOk(t, k) { SettledOutcome(s, reply, k); }
    forall c, r | (c, r) in t.replies ensures ReplyOk(t, c, r) { assert ReplyOk(s, c, r); }
    assert s.server.effects[..|s.server.effects|] == s.server.effects;
  }

  lemma RepliesStayKnown(s: State, a: Action)
    requires RepliesKnown(s) && Possible(s, a)
    ensures RepliesKnown(Apply(s, a))
  {}

  lemma StepKeepsInv(s: State, a: Action)
    requires Inv(s) && RepliesKnown(s) && Possible(s, a)
    ensures Inv(Apply(s, a)) && RepliesKnown(Apply(s, a))
  {
    RepliesStayKnown(s, a);
    match a
    case Enqueue(c) => EnqueueKeepsInv(s, c);
    case Flush => PassKeepsInv(s, a);
    case PassEnds => PassKeepsInv(s, a);
    case Returns(Retry) => PassKeepsInv(s, a);
    case Returns(Answered(reply)) => SettleKeepsInv(s, reply);
    case OtherWriter(resource, bump) => OtherWriterKeepsInv(s, resource, bump);
    case Deliver(c, response, bump) =>
      if c.key in s.server.stored || Stale(s.server, c) { AnswerKeepsInv(s, c, response, bump); }
      else { EffectKeepsInv(s, c, response, bump); }
  }

  lemma {:induction false} RunKeepsInv(s: State, actions: seq<Action>)
    requires Inv(s) && RepliesKnown(s) && IsRun(s, actions)
    ensures Inv(Run(s, actions)) && RepliesKnown(Run(s, actions))
    decreases actions
  {
    if actions != [] {
      StepKeepsInv(s, actions[0]);
      RunKeepsInv(Apply(s, actions[0]), actions[1..]);
    }
  }

  // ---------------------------------------------------------------- main results

  /** Every state a run can reach satisfies the invariant. */
  lemma Reached(versions: map<nat, nat>, actions: seq<Action>)
    requires IsRun(Initial(versions), actions)
    ensures Inv(Run(Initial(versions), actions))
  {
    RunKeepsInv(Initial(versions), actions);
  }

  /**
   Nothing enqueued is lost, repeated or reordered: the settled commands followed by the pending ones are
   the history.
   */
  lemma SettledThenPendingIsHistory(versions: map<nat, nat>, actions: seq<Action>)
    requires IsRun(Initial(versions), actions)
    ensures var s := Run(Initial(versions), actions); Commands(s.settled) + s.queue.pending == s.history
  {
    Reached(versions, actions);
  }

  predicate AppliedAmong(settled: seq<Outcome>, key: Key) {
    exists j :: 0 <= j < |settled| && settled[j].AppliedOutcome? && settled[j].command.key == key
  }

  lemma AppliedAppend(settled: seq<Outcome>, o: Outcome, key: Key)
    ensures AppliedAmong(settled + [o], key) <==>
            AppliedAmong(settled, key) || (o.AppliedOutcome? && o.command.key == key)
  {
    var t := settled + [o];
    assert t[|settled|] == o;
    if AppliedAmong(settled, key) {
      var j :| 0 <= j < |settled| && settled[j].AppliedOutcome? && settled[j].command.key == key;
      assert t[j] == settled[j];
    }
  }

  lemma {:induction false} EffectiveKeys(s: State, n: nat, key: Key)
    requires n <= |s.settled| && forall j | 0 <= j < |s.settled| :: OutcomeOk(s, j)
    ensures HasKey(Effective(s.settled[..n]), key) <==> AppliedAmong(s.settled[..n], key)
    decreases n
  {
    if n > 0 {
      EffectiveKeys(s, n - 1, key);
      var o, front := s.settled[n - 1], s.settled[..n - 1];
      assert s.settled[..n] == front + [o];
      AppliedAppend(front, o, key);
      EffectiveAppend(front, o);
      HasKeyAppend(Effective(front), o.command, key);
      assert OutcomeOk(s, n - 1);
    }
  }

  /** `duplicate` is true exactly when an earlier outcome had already applied the key. */
  lemma DuplicateIffAppliedBefore(versions: map<nat, nat>, actions: seq<Action>, k: nat)
    requires IsRun(Initial(versions), actions)
    requires k < |Run(Initial(versions), actions).settled| && Run(Initial(versions), actions).settled[k].AppliedOutcome?
    ensures var s := Run(Initial(versions), actions).settled;
            s[k].duplicate <==> AppliedAmong(s[..k], s[k].command.key)
  {
    Reached(versions, actions);
    var s := Run(Initial(versions), actions);
    assert OutcomeOk(s, k);
    EffectiveKeys(s, k, s.settled[k].command.key);
  }

  /** Every applied outcome carries the one response the server stored for its key. */
  lemma ReplaysGiveTheStoredResponse(versions: map<nat, nat>, actions: seq<Action>, k: nat)
    requires IsRun(Initial(versions), actions)
    requires k < |Run(Initial(versions), actions).settled| && Run(Initial(versions), actions).settled[k].AppliedOutcome?
    ensures var s := Run(Initial(versions), actions);
            s.settled[k].command.key in s.server.stored
                && s.settled[k].response == s.server.stored[s.settled[k].command.key]
  {
    Reached(versions, actions);
    assert OutcomeOk(Run(Initial(versions), actions), k);
  }

  /** The outcomes a client saw are those of the specification that applies each key once, in order. */
  lemma {:induction false} EffectiveIsApplyOnce(s: State, n: nat)
    requires n <= |s.settled| && forall j | 0 <= j < |s.settled| :: OutcomeOk(s, j)
    ensures Effective(s.settled[..n]) == ApplyOnce(Commands(s.settled[..n]), Refused(s.settled))
    decreases n
  {
    if n > 0 {
      EffectiveIsApplyOnce(s, n - 1);
      var o, front := s.settled[n - 1], s.settled[..n - 1];
      assert s.settled[..n] == front + [o];
      EffectiveAppend(front, o);
      CommandsAppend(front, o);
      assert OutcomeOk(s, n - 1);
      RefusedIsNotStored(s, o.command.key);
      assert Commands(s.settled[..n])[..n - 1] == Commands(front);
      if o.ConflictOutcome? { assert o.command.key in Refused(s.settled); }
    }
  }

  lemma RefusedIsNotStored(s: State, key: Key)
    requires forall j | 0 <= j < |s.settled| :: OutcomeOk(s, j)
    ensures key in Refused(s.settled) ==> key !in s.server.stored
  {
    if key in Refused(s.settled) {
      var j :| 0 <= j < |s.settled| && s.settled[j].ConflictOutcome? && s.settled[j].command.key == key;
      assert OutcomeOk(s, j);
    }
  }

  /**
   Main result: whatever the network loses, delays or repeats, the server's log is what applying the settled
   commands once per key and in enqueue order gives, plus at most the head of the queue when its answer is still out.
   */
  lemma ServerAppliesOnceInOrder(versions: map<nat, nat>, actions: seq<Action>)
    requires IsRun(Initial(versions), actions)
    ensures var s := Run(Initial(versions), actions);
            var done := ApplyOnce(Commands(s.settled), Refused(s.settled));
            && (s.server.effects == done || (s.queue.pending != [] && s.server.effects == done + [s.queue.pending[0]]))
            && DistinctKeys(s.server.effects)
            && (s.queue.pending == [] ==> s.server.effects == ApplyOnce(s.history, Refused(s.settled)))
  {
    Reached(versions, actions);
    var s := Run(Initial(versions), actions);
    EffectiveIsApplyOnce(s, |s.settled|);
    assert s.settled[..|s.settled|] == s.settled;
    AcknowledgedOrHead(s);
    EmptyIsNeutral(Commands(s.settled));
  }

  // ---------------------------------------------------------------- duplicate and the server

  /** The server at the moment a queued command was first sent, and at the moment of its latest attempt. */
  datatype Sight = Sight(first: Server, last: Server)

  /** The sight of the head, once it has been sent, and of every settled command. */
  datatype Sights = Sights(head: Option<Sight>, settled: seq<Sight>)

  function HeadSight(s: State, w: Sights): Sight {
    if w.head.Some? then w.head.value else Sight(s.server, s.server)
  }

  function Watch(s: State, a: Action, w: Sights): Sights
    requires Possible(s, a)
  {
    match a
    case Flush =>
      if s.queue.pass == NoPass && s.queue.pending != []
      then w.(head := Some(HeadSight(s, w).(last := s.server))) else w
    case Returns(Answered(_)) =>
      Sights(if |s.queue.pending| > 1 then Some(Sight(s.server, s.server)) else None, w.settled + [HeadSight(s, w)])
    case _ => w
  }

  function WatchAll(s: State, actions: seq<Action>, w: Sights): Sights
    requires IsRun(s, actions)
    decreases actions
  {
    if actions == [] then w else WatchAll(Apply(s, actions[0]), actions[1..], Watch(s, actions[0], w))
  }

  ghost predicate StoresItsLog(v: Server) {
    forall k :: k in v.stored <==> HasKey(v.effects, k)
  }

  /** Between the first and the latest attempt the server did nothing, or applied this very command. */
  predicate AppliedBetween(w: Sight, c: Command) {
    w.last.effects == w.first.effects + [c]
  }

  ghost predicate HeadWatched(s: State, w: Option<Sight>) {
    match w
    case None => s.queue.pass != Sending && s.server.effects == Effective(s.settled)
                 && forall c | c in s.sent :: c in Commands(s.settled)
    case Some(x) =>
      && s.queue.pending != [] && StoresItsLog(x.first) && StoresItsLog(x.last)
      && x.first.effects == Effective(s.settled)
      && (x.last.effects == x.first.effects
            || (AppliedBetween(x, s.queue.pending[0]) && x.last.effects == s.server.effects))
  }

  /** What `duplicate` says of the server. */
  ghost predicate DuplicateTells(o: Outcome, w: Sight) {
    o.AppliedOutcome? ==>
      && (o.duplicate <==> o.command.key in w.first.stored)
      && (o.duplicate != (o.command.key in w.last.stored) <==> AppliedBetween(w, o.command))
  }

  ghost predicate Watched(s: State, w: Sights) {
    && HeadWatched(s, w.head) && |w.settled| == |s.settled|
    && forall k | 0 <= k < |s.settled| :: DuplicateTells(s.settled[k], w.settled[k])
  }

  lemma SettledWatched(s: State, reply: Reply, x: Sight)
    requires Inv(s) && Possible(s, Returns(Answered(reply))) && HeadWatched(s, Some(x))
    ensures DuplicateTells(OutcomeOf(s.queue, s.queue.pending[0], reply), x)
  {
    var head := s.queue.pending[0];
    HasKeyAppend(x.first.effects, head, head.key);
    if AppliedBetween(x, head) { DistinctLast(x.first.effects, head); }
  }

  lemma DeliverKeepsWatch(s: State, c: Command, response: nat, bump: nat, w: Option<Sight>)
    requires Inv(s) && Possible(s, Deliver(c, response, bump)) && HeadWatched(s, w)
    ensures HeadWatched(Apply(s, Deliver(c, response, bump)), w)
  {
    if c.key !in s.server.stored && !Stale(s.server, c) {
      NewEffectIsHead(s, c);
      if c in Commands(s.settled) { SettledHasVerdict(s, c); }
    }
  }

  lemma AnswerKeepsWatch(s: State, reply: Reply, w: Sights)
    requires Inv(s) && Possible(s, Returns(Answered(reply))) && Watched(s, w)
    ensures Watched(Apply(s, Returns(Answered(reply))), Watch(s, Returns(Answered(reply)), w))
  {
    var t := Apply(s, Returns(Answered(reply)));
    SettledEffects(s, reply);
    SettledLists(s, reply);
    SettledWatched(s, reply, w.head.value);
    assert t.queue.pending == s.queue.pending[1..];
  }

  lemma SendKeepsWatch(s: State, w: Sights)
    requires Inv(s) && Watched(s, w)
    ensures Watched(Apply(s, Flush), Watch(s, Flush, w))
  {
    if s.queue.pass == NoPass && s.queue.pending != [] { AcknowledgedOrHead(s); }
  }

  lemma StepKeepsWatch(s: State, a: Action, w: Sights)
    requires Inv(s) && Possible(s, a) && Watched(s, w)
    ensures Watched(Apply(s, a), Watch(s, a, w))
  {
    match a
    case Flush => SendKeepsWatch(s, w);
    case Returns(Answered(reply)) => AnswerKeepsWatch(s, reply, w);
    case Deliver(c, response, bump) => DeliverKeepsWatch(s, c, response, bump, w.head);
    case _ =>
  }

  lemma {:induction false} RunKeepsWatch(s: State, actions: seq<Action>, w: Sights)
    requires Inv(s) && RepliesKnown(s) && IsRun(s, actions) && Watched(s, w)
    ensures Watched(Run(s, actions), WatchAll(s, actions, w))
    decreases actions
  {
    if actions != [] {
      StepKeepsInv(s, actions[0]);
      StepKeepsWatch(s, actions[0], w);
      RunKeepsWatch(Apply(s, actions[0]), actions[1..], Watch(s, actions[0], w));
    }
  }

  /**
   Main result: `duplicate` says whether the server knew the key when the command was first sent. It differs
   from what the server knew before the attempt that was answered exactly if an earlier attempt of the same
   enqueued command took effect and its answer was lost.
   */
  lemma DuplicateIsStoredAtFirstSend(versions: map<nat, nat>, actions: seq<Action>, k: nat)
    requires IsRun(Initial(versions), actions)
    requires k < |Run(Initial(versions), actions).settled| && Run(Initial(versions), actions).settled[k].AppliedOutcome?
    ensures var o := Run(Initial(versions), actions).settled[k];
            var sights := WatchAll(Initial(versions), actions, Sights(None, [])).settled;
            && k < |sights|
            && (o.duplicate <==> o.command.key in sights[k].first.stored)
            && (o.duplicate != (o.command.key in sights[k].last.stored) <==> AppliedBetween(sights[k], o.command))
  {
    RunKeepsWatch(Initial(versions), actions, Sights(None, []));
    assert DuplicateTells(Run(Initial(versions), actions).settled[k],
                          WatchAll(Initial(versions), actions, Sights(None, [])).settled[k]);
  }

  /** One step of a concrete run. */
  lemma Unroll(s: State, actions: seq<Action>, k: nat, t: State, end: State)
    requires k < |actions| && Possible(s, actions[k]) && t == Apply(s, actions[k])
    requires IsRun(t, actions[k + 1..]) && Run(t, actions[k + 1..]) == end
    ensures IsRun(s, actions[k..]) && Run(s, actions[k..]) == end
  {
    assert actions[k..][1..] == actions[k + 1..];
  }

  const LOST_ANSWER: nat := 7

  /** The server applied `c`, its answer was lost, and the pass has ended. */
  function AnswerLost(c: Command): State {
    State(Queue([c], {}, NoPass), Server(map[c.resource := 0], map[c.key := LOST_ANSWER], [c]),
          [c], [], {c}, {(c, Applied(LOST_ANSWER))})
  }

  /** The command is out. */
  function SentOut(c: Command): State {
    State(Queue([c], {}, Sending), Server(map[], map[], []), [c], [], {c}, {})
  }

  lemma AnswerIsLost(c: Command)
    requires c.base.None?
    ensures var actions := [Deliver(c, LOST_ANSWER, 0), Returns(Retry), PassEnds];
            IsRun(SentOut(c), actions) && Run(SentOut(c), actions) == AnswerLost(c)
  {
    var actions := [Deliver(c, LOST_ANSWER, 0), Returns(Retry), PassEnds];
    var t := AnswerLost(c);
    Unroll(t.(queue := t.queue.(pass := Ending)), actions, 2, t, t);
    Unroll(t.(queue := t.queue.(pass := Sending)), actions, 1, t.(queue := t.queue.(pass := Ending)), t);
    Unroll(SentOut(c), actions, 0, t.(queue := t.queue.(pass := Sending)), t);
    assert actions[0..] == actions;
  }

  lemma AnswerCanBeLost(c: Command)
    requires c.base.None?
    ensures var actions := [Enqueue(c), Flush, Deliver(c, LOST_ANSWER, 0), Returns(Retry), PassEnds];
            IsRun(Initial(map[]), actions) && Run(Initial(map[]), actions) == AnswerLost(c)
  {
    var actions := [Enqueue(c), Flush, Deliver(c, LOST_ANSWER, 0), Returns(Retry), PassEnds];
    var queued := Initial(map[]).(queue := Queue([c], {}, NoPass), history := [c]);
    AnswerIsLost(c);
    assert actions[2..] == [Deliver(c, LOST_ANSWER, 0), Returns(Retry), PassEnds];
    Unroll(queued, actions, 1, SentOut(c), AnswerLost(c));
    Unroll(Initial(map[]), actions, 0, queued, AnswerLost(c));
    assert actions[0..] == actions;
  }

  /** There the next answer is a replay of what the server had done, and yet `duplicate` is false: both sides occur. */
  lemma LostAnswerIsNoDuplicate(c: Command)
    ensures var s := Apply(AnswerLost(c), Flush);
            && Possible(s, Returns(Answered(Applied(LOST_ANSWER))))
            && c in s.server.effects
            && Apply(s, Returns(Answered(Applied(LOST_ANSWER)))).settled == [AppliedOutcome(c, LOST_ANSWER, false)]
  {}

  // ---------------------------------------------------------------- the object

  /** The closure of `createCommandQueue`; a pass is `runFlush` from one await to the next. */
  class CommandQueue {
    var queue: seq<Command>
    var settledAppliedKeys: set<Key>
    var flushing: Pass

    ghost function View(): Queue
      reads this
    {
      Queue(queue, settledAppliedKeys, flushing)
    }

    constructor ()
      ensures View() == Initial(map[]).queue
    {
      queue, settledAppliedKeys, flushing := [], {}, NoPass;
    }

    method Enqueue(c: Command)
      modifies this`queue
      ensures View() == old(View()).(pending := old(View()).pending + [c])
    {
      queue := queue + [c];
    }

    /** `send` is the command to put on the wire now, if this call starts a pass that has one. */
    method Flush() returns (send: Option<Command>)
      modifies this`flushing
      ensures View() == if old(flushing) != NoPass then old(View()) else NextSend(old(View()))
      ensures send == if old(flushing) == NoPass && queue != [] then Some(queue[0]) else None
    {
      if flushing != NoPass { return None; }
      send := SendNext();
    }

    method SendNext() returns (send: Option<Command>)
      modifies this`flushing
      ensures View() == NextSend(old(View())) && send == if queue != [] then Some(queue[0]) else None
    {
      if |queue| > 0 {
        flushing := Sending;
        return Some(queue[0]);
      }
      flushing := Ending;
      return None;
    }

    /** The rest of one turn of the loop, once the send has its answer. */
    method OnAnswer(reply: Reply) returns (outcome: Outcome, send: Option<Command>)
      requires flushing == Sending && queue != []
      modifies this
      ensures View() == SettleHead(old(View()), reply) && outcome == OutcomeOf(old(View()), old(queue)[0], reply)
      ensures send == if queue != [] then Some(queue[0]) else None
    {
      var cmd := queue[0];
      queue := queue[1..];
      match reply {
        case Applied(response) =>
          var duplicate := cmd.key in settledAppliedKeys;
          settledAppliedKeys := settledAppliedKeys + {cmd.key};
          outcome := AppliedOutcome(cmd, response, duplicate);
        case Conflict(base, current) =>
          outcome := ConflictOutcome(cmd, base, current);
      }
      send := SendNext();
    }
  }
}
