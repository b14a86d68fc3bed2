/**
 The two-phase idempotency of write endpoints (apps/server/src/idempotency-middleware.ts): a
 request reserves its key before the handler runs and completes or deletes the row when the
 response goes out. Requests interleave at every await, and any of them may vanish with its
 process; the one-transaction form is `runIdempotent` (packages/db/src/idempotency.ts:44-82).
 */
module Idempotency {
  /** Scope and key of a row. */
  type Id = nat
  type RequestId = nat
  type Hash = nat

  datatype Row = Reserved(hash: Hash) | Stored(hash: Hash, response: nat)

  /** What came of a handler: a success with a JSON body, a success without one, or a status of 400 and above. */
  datatype Outcome = Json(response: nat) | NoJson | Error

  /** A request is about to read the row that blocked its insert, in its handler, or about to send. */
  datatype Pc = Looking | Running | Sending(outcome: Outcome)
  datatype Request = Request(id: Id, hash: Hash, pc: Pc)

  datatype Reply = Fresh(outcome: Outcome) | Replayed(response: nat) | OtherBody | InProgress | Contended

  /** One execution of a handler. */
  datatype Effect = Effect(id: Id, hash: Hash, outcome: Outcome)
  datatype Answer = Answer(id: Id, hash: Hash, reply: Reply)

  datatype State = State(rows: map<Id, Row>, requests: map<RequestId, Request>, log: seq<Effect>, answers: seq<Answer>)

  function Initial(): State {
    State(map[], map[], [], [])
  }

  datatype Action =
    | Arrive(request: RequestId, id: Id, hash: Hash, insertFails: bool)
    | Lookup(request: RequestId)
    | HandlerEnds(request: RequestId, outcome: Outcome)
    | OnSend(request: RequestId)
    | Vanish(request: RequestId)

  predicate Possible(s: State, a: Action) {
    match a
    case Arrive(r, _, _, _) => r !in s.requests
    case Lookup(r) => r in s.requests && s.requests[r].pc == Looking
    case HandlerEnds(r, _) => r in s.requests && s.requests[r].pc == Running
    case OnSend(r) => r in s.requests && s.requests[r].pc.Sending?
    case Vanish(r) => r in s.requests
  }

  /** The reservation: an insert that the primary key rejects when a row is there. */
  function Reserve(rows: map<Id, Row>, id: Id, hash: Hash, insertFails: bool): (map<Id, Row>, Pc) {
    if insertFails || id in rows then (rows, Looking) else (rows[id := Reserved(hash)], Running)
  }

  function Look(rows: map<Id, Row>, id: Id, hash: Hash): Reply {
    if id !in rows then Contended
    else if rows[id].hash != hash then OtherBody
    else if rows[id].Reserved? then InProgress
    else Replayed(rows[id].response)
  }

  /** `onSend` of the request that reserved: store a JSON success, delete the row otherwise. */
  function Settle(rows: map<Id, Row>, id: Id, hash: Hash, outcome: Outcome): map<Id, Row> {
    if !outcome.Json? then rows - {id}
    else if id in rows then rows[id := Stored(rows[id].hash, outcome.response)] else rows
  }

  function Apply(s: State, a: Action): State
    requires Possible(s, a)
  {
    match a
    case Arrive(r, id, hash, fails) =>
      var (rows, pc) := Reserve(s.rows, id, hash, fails);
      s.(rows := rows, requests := s.requests[r := Request(id, hash, pc)])
    case Lookup(r) =>
      var q := s.requests[r];
      s.(requests := s.requests - {r}, answers := s.answers + [Answer(q.id, q.hash, Look(s.rows, q.id, q.hash))])
    case HandlerEnds(r, outcome) =>
      var q := s.requests[r];
      s.(requests := s.requests[r := q.(pc := Sending(outcome))], log := s.log + [Effect(q.id, q.hash, outcome)])
    case OnSend(r) =>
      var q := s.requests[r];
      s.(rows := Settle(s.rows, q.id, q.hash, q.pc.outcome), requests := s.requests - {r},
         answers := s.answers + [Answer(q.id, q.hash, Fresh(q.pc.outcome))])
    case Vanish(r) => s.(requests := s.requests - {r})
  }

  predicate IsRun(s: State, actions: seq<Action>)
    decreases actions
  {
    actions == [] || (Possible(s, actions[0]) && IsRun(Apply(s, actions[0]), actions[1..]))
  }

  function Run(s: State, actions: seq<Action>): State
    requires IsRun(s, actions)
    decreases actions
  {
    if actions == [] then s else Run(Apply(s, actions[0]), actions[1..])
  }

  // ---------------------------------------------------------------- the atomic specification

  /** What `runIdempotent` keeps for a key. */
  datatype Entry = Entry(hash: Hash, response: nat)
  datatype Result = First(response: nat) | Again(response: nat) | Mismatch

  /** `runIdempotent` in one transaction: `response` is what its function would return. */
  function RunIdempotent(table: map<Id, Entry>, id: Id, hash: Hash, response: nat): (map<Id, Entry>, Result) {
    if id in table then (table, if table[id].hash != hash then Mismatch else Again(table[id].response))
    else (table[id := Entry(hash, response)], First(response))
  }

  /** The table the executed handlers amount to. */
  function Abstract(log: seq<Effect>): map<Id, Entry>
    decreases |log|
  {
    if log == [] then map[] else
    var front, e := Abstract(log[..|log| - 1]), log[|log| - 1];
    if e.outcome.Json? then front[e.id := Entry(e.hash, e.outcome.response)] else front
  }

  // ---------------------------------------------------------------- invariant

  predicate Holds(q: Request) {
    q.pc != Looking
  }

  /** A request in its handler or about to send owns its row. */
  ghost predicate OwnsRow(s: State, r: RequestId) {
    r in s.requests && Holds(s.requests[r]) ==>
      && s.requests[r].id in s.rows && s.rows[s.requests[r].id] == Reserved(s.requests[r].hash)
      && (forall p | p in s.requests && Holds(s.requests[p]) && s.requests[p].id == s.requests[r].id :: p == r)
      && (s.requests[r].pc.Sending? && s.requests[r].pc.outcome.Json? ==>
            s.requests[r].id in Abstract(s.log)
            && Abstract(s.log)[s.requests[r].id] == Entry(s.requests[r].hash, s.requests[r].pc.outcome.response))
      && (s.requests[r].pc == Running || !s.requests[r].pc.outcome.Json? ==> s.requests[r].id !in Abstract(s.log))
  }

  /** A stored row is exactly the successful execution; an executed key is never free again. */
  ghost predicate RowOk(s: State, id: Id) {
    && (id in s.rows && s.rows[id].Stored? ==>
          id in Abstract(s.log) && Abstract(s.log)[id] == Entry(s.rows[id].hash, s.rows[id].response))
    && (id in Abstract(s.log) ==> id in s.rows && s.rows[id].hash == Abstract(s.log)[id].hash)
  }

  ghost predicate AnswerOk(s: State, k: nat)
    requires k < |s.answers|
  {
    var a := s.answers[k];
    (a.reply.Replayed? || (a.reply.Fresh? && a.reply.outcome.Json?)) ==>
      a.id in Abstract(s.log)
      && Abstract(s.log)[a.id] == Entry(a.hash, if a.reply.Replayed? then a.reply.response
            else a.reply.outcome.response)
  }

  /** No handler runs for a key after one that succeeded with a JSON body. */
  ghost predicate SuccessIsLast(log: seq<Effect>) {
    forall i, j | 0 <= i < j < |log| && log[i].id == log[j].id :: !log[i].outcome.Json?
  }

  ghost predicate Inv(s: State) {
    && (forall r: RequestId :: OwnsRow(s, r))
    && (forall id: Id :: RowOk(s, id))
    && (forall k | 0 <= k < |s.answers| :: AnswerOk(s, k))
    && SuccessIsLast(s.log)
  }

  lemma AbstractAppend(log: seq<Effect>, e: Effect)
    ensures Abstract(log + [e]) == if e.outcome.Json? then Abstract(log)[e.id := Entry(e.hash, e.outcome.response)]
            else Abstract(log)
  {
    assert (log + [e])[..|log|] == log;
  }

  /** A key that some execution succeeded for is in the table. */
  lemma {:induction false} SuccessIsAbstract(log: seq<Effect>, i: nat)
    requires i < |log| && log[i].outcome.Json?
    ensures log[i].id in Abstract(log)
    decreases |log|
  {
    var front := log[..|log| - 1];
    assert log == front + [log[|log| - 1]];
    AbstractAppend(front, log[|log| - 1]);
    if i < |front| { SuccessIsAbstract(front, i); }
  }

  lemma {:induction false} AbstractIsSuccess(log: seq<Effect>, id: Id)
    requires id in Abstract(log)
    ensures Effect(id, Abstract(log)[id].hash, Json(Abstract(log)[id].response)) in log
    decreases |log|
  {
    var front, e := log[..|log| - 1], log[|log| - 1];
    if !(e.outcome.Json? && e.id == id) { AbstractIsSuccess(front, id); }
  }

  lemma ArriveKeepsInv(s: State, a: Action)
    requires Inv(s) && Possible(s, a) && a.Arrive?
    ensures Inv(Apply(s, a))
  {
    var t := Apply(s, a);
    assert RowOk(s, a.id);
    forall p | p in s.requests && Holds(s.requests[p]) ensures s.requests[p].id in s.rows { assert OwnsRow(s, p); }
    forall r: RequestId ensures OwnsRow(t, r) { assert OwnsRow(s, r); }
    forall id: Id ensures RowOk(t, id) { assert RowOk(s, id); }
    forall k | 0 <= k < |t.answers| ensures AnswerOk(t, k) { assert AnswerOk(s, k); }
  }

  lemma LookupKeepsInv(s: State, a: Action)
    requires Inv(s) && Possible(s, a) && a.Lookup?
    ensures Inv(Apply(s, a))
  {
    var t := Apply(s, a);
    assert RowOk(s, s.requests[a.request].id);
    forall r: RequestId ensures OwnsRow(t, r) { assert OwnsRow(s, r); }
    forall id: Id ensures RowOk(t, id) { assert RowOk(s, id); }
    forall k | 0 <= k < |t.answers| ensures AnswerOk(t, k) { if k < |s.answers| { assert AnswerOk(s, k); } }
  }

  lemma VanishKeepsInv(s: State, a: Action)
    requires Inv(s) && Possible(s, a) && a.Vanish?
    ensures Inv(Apply(s, a))
  {
    var t := Apply(s, a);
    forall r: RequestId ensures OwnsRow(t, r) { assert OwnsRow(s, r); }
    forall id: Id ensures RowOk(t, id) { assert RowOk(s, id); }
    forall k | 0 <= k < |t.answers| ensures AnswerOk(t, k) { assert AnswerOk(s, k); }
  }

  lemma SuccessStaysLast(log: seq<Effect>, e: Effect)
    requires SuccessIsLast(log) && e.id !in Abstract(log)
    ensures SuccessIsLast(log + [e])
  {
    forall i | 0 <= i < |log| && log[i].id == e.id ensures !log[i].outcome.Json? {
      if log[i].outcome.Json? { SuccessIsAbstract(log, i); }
    }
  }

  lemma HandlerKeepsInv(s: State, a: Action)
    requires Inv(s) && Possible(s, a) && a.HandlerEnds?
    ensures Inv(Apply(s, a))
  {
    var t, q := Apply(s, a), s.requests[a.request];
    assert OwnsRow(s, a.request) && RowOk(s, q.id);
    AbstractAppend(s.log, Effect(q.id, q.hash, a.outcome));
    SuccessStaysLast(s.log, Effect(q.id, q.hash, a.outcome));
    forall r: RequestId ensures OwnsRow(t, r) { assert OwnsRow(s, r); }
    forall id: Id ensures RowOk(t, id) { assert RowOk(s, id); }
    forall k | 0 <= k < |t.answers| ensures AnswerOk(t, k) { assert AnswerOk(s, k); }
  }

  lemma OnSendKeepsInv(s: State, a: Action)
    requires Inv(s) && Possible(s, a) && a.OnSend?
    ensures Inv(Apply(s, a))
  {
    var t, q := Apply(s, a), s.requests[a.request];
    assert OwnsRow(s, a.request) && RowOk(s, q.id);
    forall r: RequestId ensures OwnsRow(t, r) { assert OwnsRow(s, r); }
    forall id: Id ensures RowOk(t, id) { assert RowOk(s, id); }
    forall k | 0 <= k < |t.answers| ensures AnswerOk(t, k) { if k < |s.answers| { assert AnswerOk(s, k); } }
  }

  lemma StepKeepsInv(s: State, a: Action)
    requires Inv(s) && Possible(s, a)
    ensures Inv(Apply(s, a))
  {
    match a
    case Arrive(_, _, _, _) => ArriveKeepsInv(s, a);
    case Lookup(_) => LookupKeepsInv(s, a);
    case HandlerEnds(_, _) => HandlerKeepsInv(s, a);
    case OnSend(_) => OnSendKeepsInv(s, a);
    case Vanish(_) => VanishKeepsInv(s, a);
  }

  lemma {:induction false} RunKeepsInv(s: State, actions: seq<Action>)
    requires Inv(s) && IsRun(s, actions)
    ensures Inv(Run(s, actions))
    decreases actions
  {
    if actions != [] {
      StepKeepsInv(s, actions[0]);
      RunKeepsInv(Apply(s, actions[0]), actions[1..]);
    }
  }

  // ---------------------------------------------------------------- main results

  /**
   For every interleaving, crashes included: once a handler has succeeded with a JSON body for a key, no
   handler runs for that key again. In particular it has at most one such effect.
   */
  lemma SuccessHappensOnce(actions: seq<Action>, i: nat, j: nat)
    requires IsRun(Initial(), actions)
    requires var log := Run(Initial(), actions).log;
             i < |log| && j < |log| && log[i].id == log[j].id && log[i].outcome.Json?
    ensures j <= i && (Run(Initial(), actions).log[j].outcome.Json? ==> i == j)
  {
    RunKeepsInv(Initial(), actions);
  }

  /** Every replay returns the response of that one execution, to a request with the same body. */
  lemma ReplaysReturnTheEffect(actions: seq<Action>, k: nat)
    requires IsRun(Initial(), actions)
    requires k < |Run(Initial(), actions).answers| && Run(Initial(), actions).answers[k].reply.Replayed?
    ensures var s := Run(Initial(), actions); var a := s.answers[k];
            Effect(a.id, a.hash, Json(a.reply.response)) in s.log
  {
    RunKeepsInv(Initial(), actions);
    var s := Run(Initial(), actions);
    assert AnswerOk(s, k);
    AbstractIsSuccess(s.log, s.answers[k].id);
  }

  /** Two requests never hold the same key, and a row changes only by its reservation or by its holder's `onSend`. */
  lemma OnlyTheReserverTouchesItsRow(s: State, a: Action, id: Id)
    requires Inv(s) && Possible(s, a)
    requires (id in s.rows) != (id in Apply(s, a).rows) || (id in s.rows && s.rows[id] != Apply(s, a).rows[id])
    ensures || (a.Arrive? && a.id == id && id !in s.rows)
            || (a.OnSend? && s.requests[a.request].id == id && s.rows[id] == Reserved(s.requests[a.request].hash)
                && forall p | p in s.requests && Holds(s.requests[p]) && s.requests[p].id == id :: p == a.request)
  {
    if a.OnSend? { assert OwnsRow(s, a.request); }
  }

  /** A reply to a blocked insert, as the atomic specification would have given it. */
  ghost predicate RepliesLikeSpec(table: map<Id, Entry>, id: Id, hash: Hash, reply: Reply) {
    && (reply.Replayed? ==> forall other :: RunIdempotent(table, id, hash, other) == (table, Again(reply.response)))
    && (reply.OtherBody? && id in table ==> forall other :: RunIdempotent(table, id, hash, other) == (table, Mismatch))
  }

  /** What a step is in the atomic specification: an execution, a replay, a mismatch, or nothing. */
  lemma RefinesRunIdempotent(s: State, a: Action)
    requires Inv(s) && Possible(s, a)
    ensures a.HandlerEnds? && a.outcome.Json? ==>
              RunIdempotent(Abstract(s.log), s.requests[a.request].id, s.requests[a.request].hash, a.outcome.response)
              == (Abstract(Apply(s, a).log), First(a.outcome.response))
    ensures !(a.HandlerEnds? && a.outcome.Json?) ==> Abstract(Apply(s, a).log) == Abstract(s.log)
    ensures a.Lookup? ==>
              var q := s.requests[a.request];
              RepliesLikeSpec(Abstract(s.log), q.id, q.hash, Look(s.rows, q.id, q.hash))
  {
    if a.HandlerEnds? {
      var q := s.requests[a.request];
      assert OwnsRow(s, a.request);
      AbstractAppend(s.log, Effect(q.id, q.hash, a.outcome));
    }
    if a.Lookup? { assert RowOk(s, s.requests[a.request].id); }
  }

  /**
   An error, and a success without a JSON body (an empty 204, say), delete the row, so the same request runs its
   handler again: the guarantee above needs the JSON body.
   */
  lemma WithoutJsonItRunsAgain(s: State, r: RequestId, next: RequestId)
    requires Inv(s) && r in s.requests && s.requests[r].pc.Sending? && !s.requests[r].pc.outcome.Json?
    requires next !in s.requests && next != r
    ensures var q := s.requests[r];
            var t := Apply(s, OnSend(r));
            q.id !in t.rows && Possible(t, Arrive(next, q.id, q.hash, false))
            && Apply(t, Arrive(next, q.id, q.hash, false)).requests[next].pc == Running
  {}

  /** A request that vanishes in its handler leaves its row reserved for good: no later request with that key runs. */
  lemma {:induction false} VanishedReservationBlocks(s: State, id: Id, actions: seq<Action>)
    requires Inv(s) && IsRun(s, actions) && id in s.rows && s.rows[id].Reserved?
    requires forall p | p in s.requests && Holds(s.requests[p]) :: s.requests[p].id != id
    ensures var t := Run(s, actions);
            id in t.rows && t.rows[id] == s.rows[id] && forall p | p in t.requests && Holds(t.requests[p]) ::
                t.requests[p].id != id
    decreases actions
  {
    if actions != [] {
      StepKeepsInv(s, actions[0]);
      VanishedReservationBlocks(Apply(s, actions[0]), id, actions[1..]);
    }
  }

  // ---------------------------------------------------------------- the hooks

  /** What a blocked request is told about the handlers that have run for its key. */
  ghost predicate Informs(log: seq<Effect>, id: Id, hash: Hash, reply: Reply) {
    match reply
    case Replayed(response) => Effect(id, hash, Json(response)) in log
    case Contended => forall e | e in log && e.id == id :: !e.outcome.Json?
    case OtherBody => forall e | e in log && e.id == id && e.outcome.Json? :: e.hash != hash
    case InProgress => forall e | e in log && e.id == id && e.outcome.Json? :: e.hash == hash
    case Fresh(_) => false
  }

  lemma SuccessIsTheEntry(s: State, e: Effect)
    requires Inv(s) && e in s.log && e.outcome.Json?
    ensures e.id in Abstract(s.log) && Abstract(s.log)[e.id] == Entry(e.hash, e.outcome.response)
  {
    var i :| 0 <= i < |s.log| && s.log[i] == e;
    SuccessIsAbstract(s.log, i);
    AbstractIsSuccess(s.log, e.id);
    var other := Effect(e.id, Abstract(s.log)[e.id].hash, Json(Abstract(s.log)[e.id].response));
    var j :| 0 <= j < |s.log| && s.log[j] == other;
    assert i == j;
  }

  /** The row a blocked request finds tells it the truth about the handlers. */
  lemma LookInforms(s: State, id: Id, hash: Hash)
    requires Inv(s)
    ensures Informs(s.log, id, hash, Look(s.rows, id, hash))
  {
    assert RowOk(s, id);
    forall e | e in s.log && e.id == id && e.outcome.Json? ensures id in s.rows && s.rows[id].hash == e.hash {
      SuccessIsTheEntry(s, e);
    }
    if Look(s.rows, id, hash).Replayed? { AbstractIsSuccess(s.log, id); }
  }

  // ---------------------------------------------------------------- and it tells all of it

  /** A handler succeeded for the key with this body and response, and its response went out. */
  predicate Succeeded(s: State, id: Id, hash: Hash, response: nat) {
    exists k :: 0 <= k < |s.answers| && s.answers[k] == Answer(id, hash, Fresh(Json(response)))
  }

  /** Once a success has gone out, its row is stored. */
  ghost predicate StoredOnceSent(s: State) {
    forall k | 0 <= k < |s.answers| && s.answers[k].reply.Fresh? && s.answers[k].reply.outcome.Json? ::
      var a := s.answers[k]; a.id in s.rows && s.rows[a.id] == Stored(a.hash, a.reply.outcome.response)
  }

  lemma StepKeepsStored(s: State, a: Action)
    requires Inv(s) && StoredOnceSent(s) && Possible(s, a)
    ensures StoredOnceSent(Apply(s, a))
  {
    if a.OnSend? { assert OwnsRow(s, a.request); }
  }

  lemma {:induction false} RunKeepsStored(s: State, actions: seq<Action>)
    requires Inv(s) && StoredOnceSent(s) && IsRun(s, actions)
    ensures Inv(Run(s, actions)) && StoredOnceSent(Run(s, actions))
    decreases actions
  {
    if actions != [] {
      StepKeepsInv(s, actions[0]);
      StepKeepsStored(s, actions[0]);
      RunKeepsStored(Apply(s, actions[0]), actions[1..]);
    }
  }

  /**
   Main result, completeness of replays: over every run, once a handler has succeeded with a JSON body for a key and its
   response has gone out, every later request with that key is answered from it: the same body gets that response
   again, another body is refused, exactly as `runIdempotent` on the executed handlers would; and no request with that
   key reaches a handler.
   */
  lemma SuccessIsReplayed(actions: seq<Action>, id: Id, hash: Hash, response: nat, a: Action)
    requires IsRun(Initial(), actions) && Possible(Run(Initial(), actions), a)
    requires Succeeded(Run(Initial(), actions), id, hash, response)
    ensures var s, t := Run(Initial(), actions), Apply(Run(Initial(), actions), a);
            && (a.Lookup? && s.requests[a.request].id == id ==>
                  var q := s.requests[a.request];
                  && t.answers == s.answers
                        + [Answer(id, q.hash, if q.hash == hash then Replayed(response) else OtherBody)]
                  && forall other ::
                       RunIdempotent(Abstract(s.log), id, q.hash, other) ==
                         (Abstract(s.log), if q.hash == hash then Again(response) else Mismatch))
            && (a.Arrive? && a.id == id ==> t.requests[a.request].pc == Looking && t.rows == s.rows)
  {
    RunKeepsStored(Initial(), actions);
    var s := Run(Initial(), actions);
    var k :| 0 <= k < |s.answers| && s.answers[k] == Answer(id, hash, Fresh(Json(response)));
    assert RowOk(s, id);
  }

  /**
   Each answer to a blocked request has exactly its case: contended when the row has gone, another body when it is of
   another body, in progress while it is still reserved, a replay once it is stored.
   */
  lemma LooksExactly(s: State, r: RequestId)
    requires Possible(s, Lookup(r))
    ensures var t, q := Apply(s, Lookup(r)), s.requests[r];
            && |t.answers| == |s.answers| + 1 && t.rows == s.rows && r !in t.requests
            && var reply := t.answers[|s.answers|].reply;
            && (reply == Contended <==> q.id !in s.rows)
            && (reply == OtherBody <==> q.id in s.rows && s.rows[q.id].hash != q.hash)
            && (reply == InProgress <==> q.id in s.rows && s.rows[q.id] == Reserved(q.hash))
            && (forall response ::
                  reply == Replayed(response) <==> q.id in s.rows && s.rows[q.id] == Stored(q.hash, response))
  {}

  /** A request runs its handler exactly if its insert went through, and a free key is then its own. */
  lemma ArrivesExactly(s: State, r: RequestId, id: Id, hash: Hash, insertFails: bool)
    requires Possible(s, Arrive(r, id, hash, insertFails))
    ensures var t := Apply(s, Arrive(r, id, hash, insertFails));
            && r in t.requests && t.requests[r].id == id && t.requests[r].hash == hash && t.answers == s.answers
            && (t.requests[r].pc == Running <==> !insertFails && id !in s.rows)
            && (t.requests[r].pc == Looking <==> insertFails || id in s.rows)
            && t.rows == if !insertFails && id !in s.rows then s.rows[id := Reserved(hash)] else s.rows
  {}

  /** A response that goes out stores a JSON success in its own row, and frees the key in every other case. */
  lemma SendsExactly(s: State, r: RequestId)
    requires Inv(s) && Possible(s, OnSend(r))
    ensures var t, q := Apply(s, OnSend(r)), s.requests[r];
            && t.answers == s.answers + [Answer(q.id, q.hash, Fresh(q.pc.outcome))] && r !in t.requests
            && t.rows == match q.pc.outcome
                         case Json(response) => s.rows[q.id := Stored(q.hash, response)]
                         case _ => s.rows - {q.id}
  {
    assert OwnsRow(s, r);
  }

  /**
   The whole way, from any state in which a key is free: the first request runs its handler, the second
   gets its response.
   */
  lemma FirstRunsSecondReplays(s: State, id: Id, hash: Hash, response: nat, r: RequestId, again: RequestId)
    requires Inv(s) && id !in s.rows && r !in s.requests && again !in s.requests && again != r
    ensures var first := [Arrive(r, id, hash, false), HandlerEnds(r, Json(response)), OnSend(r)];
            var second := [Arrive(again, id, hash, false), Lookup(again)];
            && IsRun(s, first) && IsRun(Run(s, first), second)
            && Run(Run(s, first), second).answers ==
                 s.answers + [Answer(id, hash, Fresh(Json(response)))] + [Answer(id, hash, Replayed(response))]
  {
    var a, b, c := Arrive(r, id, hash, false), HandlerEnds(r, Json(response)), OnSend(r);
    var d, e := Arrive(again, id, hash, false), Lookup(again);
    var t := Apply(Apply(Apply(s, a), b), c);
    Follows(Apply(Apply(s, a), b), c, []);
    Follows(Apply(s, a), b, [c]);
    Follows(s, a, [b, c]);
    assert [a] + [b, c] == [a, b, c] && [b] + [c] == [b, c] && [c] + [] == [c];
    Follows(Apply(t, d), e, []);
    Follows(t, d, [e]);
    assert [d] + [e] == [d, e] && [e] + [] == [e];
  }

  /** The first step of a run. */
  lemma Follows(s: State, a: Action, rest: seq<Action>)
    requires Possible(s, a) && IsRun(Apply(s, a), rest)
    ensures IsRun(s, [a] + rest) && Run(s, [a] + rest) == Run(Apply(s, a), rest)
  {
    assert ([a] + rest)[1..] == rest;
  }

  datatype Tag = Tag(id: Id, hash: Hash)

  /** The middleware on the table and on the tags it leaves on requests; the ghost `state` follows the requests. */
  class Middleware {
    var rows: map<Id, Row>
    /** The STATE symbol of each request that reserved. */
    var tags: map<RequestId, Tag>
    ghost var state: State

    ghost predicate Valid()
      reads this
    {
      && rows == state.rows && Inv(state)
      && forall r | r in state.requests ::
           if Holds(state.requests[r]) then r in tags && tags[r] == Tag(state.requests[r].id, state.requests[r].hash)
           else r !in tags
    }

    constructor ()
      ensures Valid() && state == Initial()
    {
      rows, tags, state := map[], map[], Initial();
    }

    /**
     Stands for what happens outside the hooks: a handler ends, or a request vanishes with its process. The
     table stays as it is; `state` takes the step, so that the next hook finds the request where it now is.
     */
    ghost method Elsewhere(a: Action)
      requires Valid() && Possible(state, a) && (a.HandlerEnds? || a.Vanish?)
      modifies this`state
      ensures Valid() && state == Apply(old(state), a)
    {
      StepKeepsInv(state, a);
      state := Apply(state, a);
    }

    /** `preHandler` up to its insert; it lets the handler run exactly when it reserved. */
    method PreHandler(r: RequestId, id: Id, hash: Hash, insertFails: bool) returns (reserved: bool)
      requires Valid() && r !in tags && r !in state.requests
      modifies this
      ensures Valid() && state == Apply(old(state), Arrive(r, id, hash, insertFails))
      ensures reserved <==> r in tags
      ensures reserved <==> !insertFails && id !in old(rows)
      ensures reserved ==> forall p | p in state.requests && Holds(state.requests[p]) && state.requests[p].id == id ::
              p == r
    {
      StepKeepsInv(state, Arrive(r, id, hash, insertFails));
      state := Apply(state, Arrive(r, id, hash, insertFails));
      assert OwnsRow(state, r);
      if insertFails || id in rows { return false; }
      rows := rows[id := Reserved(hash)];
      tags := tags[r := Tag(id, hash)];
      return true;
    }

    /** `preHandler` after a failed insert: the answer is true of the handlers that have run for the key. */
    method OnConflict(ghost r: RequestId, id: Id, hash: Hash) returns (reply: Reply)
      requires Valid() && Possible(state, Lookup(r)) && state.requests[r] == Request(id, hash, Looking)
      modifies this`state
      ensures Valid() && state == Apply(old(state), Lookup(r))
      ensures state.answers == old(state).answers + [Answer(id, hash, reply)]
      ensures Informs(state.log, id, hash, reply)
      ensures (reply == InProgress <==> id in rows && rows[id] == Reserved(hash))
      ensures forall response :: reply == Replayed(response) <==> id in rows && rows[id] == Stored(hash, response)
    {
      LookInforms(state, id, hash);
      StepKeepsInv(state, Lookup(r));
      state := Apply(state, Lookup(r));
      if id !in rows { return Contended; }
      if rows[id].hash != hash { return OtherBody; }
      if rows[id].Reserved? { return InProgress; }
      return Replayed(rows[id].response);
    }

    /** `onSend`: untagged requests leave the table alone; a tagged one finds its own reservation. */
    method OnSend(r: RequestId, outcome: Outcome)
      requires Valid() && (r in tags ==> r in state.requests && state.requests[r].pc == Sending(outcome))
      modifies this`rows, this`state
      ensures Valid() && state == if r in tags then Apply(old(state), Action.OnSend(r)) else old(state)
      ensures r in tags ==>
                rows == if outcome.Json? then old(rows)[tags[r].id := Stored(tags[r].hash, outcome.response)]
                        else old(rows) - {tags[r].id}
    {
      if r !in tags { return; }
      assert OwnsRow(state, r);
      StepKeepsInv(state, Action.OnSend(r));
      state := Apply(state, Action.OnSend(r));
      var tag := tags[r];
      match outcome {
        case Json(response) => if tag.id in rows { rows := rows[tag.id := Stored(rows[tag.id].hash, response)]; }
        case NoJson => rows := rows - {tag.id};
        case Error => rows := rows - {tag.id};
      }
    }
  }

  // ---------------------------------------------------------------- runIdempotent

  type Event = nat

  /** The database of `runIdempotent`: key rows with the ids of their events, and the event log. */
  class Database {
    var entries: map<Id, Entry>
    var eventIds: map<Id, seq<nat>>
    var events: seq<Event>

    constructor ()
      ensures entries == map[] && eventIds == map[] && events == []
    {
      entries, eventIds, events := map[], map[], [];
    }

    /** One transaction; `response` and `produced` are what the function would return. */
    method RunOnce(id: Id, hash: Hash, response: nat, produced: seq<Event>) returns (result: Result, ids: seq<nat>)
      requires eventIds.Keys == entries.Keys
      modifies this
      ensures eventIds.Keys == entries.Keys
      ensures (entries, result) == RunIdempotent(old(entries), id, hash, response)
      ensures if result.First? then
                events == old(events) + produced && |ids| == |produced|
                && (forall k | 0 <= k < |ids| :: ids[k] == |old(events)| + k) && eventIds == old(eventIds)[id := ids]
              else
                events == old(events) && eventIds == old(eventIds) && ids == if result.Again? then eventIds[id] else []
    {
      if id in entries {
        if entries[id].hash != hash { return Mismatch, []; }
        return Again(entries[id].response), eventIds[id];
      }
      ids := [];
      for k := 0 to |produced|
        invariant |ids| == k && events == old(events) + produced[..k]
        invariant forall j | 0 <= j < k :: ids[j] == |old(events)| + j
        invariant entries == old(entries) && eventIds == old(eventIds)
      {
        ids := ids + [|events|];
        assert produced[..k + 1] == produced[..k] + [produced[k]];
        events := events + [produced[k]];
      }
      assert produced[..|produced|] == produced;
      entries, eventIds := entries[id := Entry(hash, response)], eventIds[id := ids];
      result := First(response);
    }
  }
}
