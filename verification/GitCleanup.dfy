/**
 `confirmedOwnedGitCleanup` (apps/artood/src/node-client.ts:1102-1117): a worklist over an
 error object, its `cause` and its aggregated `errors`, which may form any finite graph.
 */
module GitCleanup {
  import opened Common

  type Ref = nat

  /** A JavaScript value as this walk sees it: an object with an identity, or anything else. */
  datatype Value = Primitive | Object(ref: Ref)

  datatype Receipt = Receipt(cleanupConfirmed: bool, observersDisposed: bool)

  /** `git` is the receipt of an `OwnedGitError`; `errors` is empty when that property is no array. */
  datatype Thing = Thing(git: Option<Receipt>, cause: Value, errors: seq<Value>)

  function Next(o: Thing): seq<Value> {
    [o.cause] + o.errors
  }

  /** Every object an object of the graph refers to is in the graph. */
  ghost predicate Closed(g: map<Ref, Thing>) {
    forall r, v | r in g && v in Next(g[r]) :: v.Object? ==> v.ref in g
  }

  predicate Confirmed(o: Thing) {
    o.git.Some? ==> o.git.value.cleanupConfirmed && o.git.value.observersDisposed
  }

  /** The object refers to `next` as its cause or among its errors. */
  predicate Leads(o: Thing, next: Ref) {
    o.cause == Object(next) || Object(next) in o.errors
  }

  /** A walk along `cause` and `errors`. */
  ghost predicate Walk(g: map<Ref, Thing>, path: seq<Ref>) {
    && path != []
    && (forall i | 0 <= i < |path| :: path[i] in g)
    && (forall i | 0 <= i < |path| - 1 :: Leads(g[path[i]], path[i + 1]))
  }

  ghost predicate Reachable(g: map<Ref, Thing>, start: Value, r: Ref) {
    exists path :: Walk(g, path) && start == Object(path[0]) && r == path[|path| - 1]
  }

  lemma StartIsReachable(g: map<Ref, Thing>, r: Ref)
    requires r in g
    ensures Reachable(g, Object(r), r)
  {
    assert Walk(g, [r]);
  }

  lemma StepIsReachable(g: map<Ref, Thing>, start: Value, r: Ref, next: Ref)
    requires Closed(g) && Reachable(g, start, r) && r in g && Object(next) in Next(g[r])
    ensures Reachable(g, start, next)
  {
    var path :| Walk(g, path) && start == Object(path[0]) && r == path[|path| - 1];
    var longer := path + [next];
    assert Walk(g, longer);
    assert longer[0] == path[0] && longer[|longer| - 1] == next;
  }

  /** A set that holds the start and every successor of its members holds everything reachable. */
  lemma {:induction false} ClosedSetHoldsWalk(g: map<Ref, Thing>, s: set<Ref>, path: seq<Ref>)
    requires Walk(g, path) && path[0] in s
    requires forall r, v | r in s && r in g && v in Next(g[r]) :: v.Object? ==> v.ref in s
    ensures path[|path| - 1] in s
    decreases |path|
  {
    if |path| > 1 {
      var front := path[..|path| - 1];
      assert Walk(g, front);
      ClosedSetHoldsWalk(g, s, front);
      assert Object(path[|path| - 1]) in Next(g[path[|path| - 2]]);
    }
  }

  lemma ClosedSetHoldsReachable(g: map<Ref, Thing>, s: set<Ref>, start: Value, r: Ref)
    requires Reachable(g, start, r) && (start.Object? ==> start.ref in s)
    requires forall q, v | q in s && q in g && v in Next(g[q]) :: v.Object? ==> v.ref in s
    ensures r in s
  {
    var path :| Walk(g, path) && start == Object(path[0]) && r == path[|path| - 1];
    ClosedSetHoldsWalk(g, s, path);
  }

  /** Everything still to visit, or visited, is reachable. */
  ghost predicate Sound(g: map<Ref, Thing>, start: Value, pending: seq<Value>, seen: set<Ref>) {
    && (forall v | v in pending :: v.Object? ==> v.ref in g && Reachable(g, start, v.ref))
    && (forall r | r in seen :: r in g && Reachable(g, start, r))
  }

  /** Nothing reachable is forgotten: the start and each successor of a visited object is visited or to come. */
  ghost predicate Complete(g: map<Ref, Thing>, start: Value, pending: seq<Value>, seen: set<Ref>) {
    && (start.Object? ==> start.ref in seen || start in pending)
    && (forall r, v | r in seen && r in g && v in Next(g[r]) :: v.Object? ==> v.ref in seen || v in pending)
  }

  lemma VisitKeepsSound(g: map<Ref, Thing>, start: Value, rest: seq<Value>, seen: set<Ref>, r: Ref)
    requires Closed(g) && Sound(g, start, rest, seen) && r in g && Reachable(g, start, r)
    ensures Sound(g, start, rest + Next(g[r]), seen + {r})
  {
    forall v | v in rest + Next(g[r]) ensures v.Object? ==> v.ref in g && Reachable(g, start, v.ref) {
      if v.Object? && v !in rest { StepIsReachable(g, start, r, v.ref); }
    }
  }

  lemma VisitKeepsComplete(g: map<Ref, Thing>, start: Value, rest: seq<Value>, seen: set<Ref>, r: Ref)
    requires r in g && Complete(g, start, rest + [Object(r)], seen)
    ensures Complete(g, start, rest + Next(g[r]), seen + {r})
  {
    forall q, v | q in seen + {r} && q in g && v in Next(g[q])
      ensures v.Object? ==> v.ref in seen + {r} || v in rest + Next(g[r])
    {
      if q != r && v.Object? && v.ref !in seen { assert v in rest + [Object(r)]; }
    }
    if start.Object? && start.ref !in seen { assert start in rest + [Object(r)]; }
  }

  lemma SkipKeepsComplete(g: map<Ref, Thing>, start: Value, rest: seq<Value>, seen: set<Ref>, item: Value)
    requires Complete(g, start, rest + [item], seen) && (item.Object? ==> item.ref in seen)
    ensures Complete(g, start, rest, seen)
  {
    forall q, v | q in seen && q in g && v in Next(g[q]) ensures v.Object? ==> v.ref in seen || v in rest {
      if v.Object? && v.ref !in seen { assert v in rest + [item]; }
    }
    if start.Object? && start.ref !in seen { assert start in rest + [item]; }
  }

  /** What the two counters of the loop mean. */
  ghost predicate Counted(g: map<Ref, Thing>, seen: set<Ref>, receipts: nat) {
    && (forall r | r in seen :: r in g && Confirmed(g[r]))
    && (receipts > 0 <==> exists r :: r in seen && r in g && g[r].git.Some?)
  }

  lemma VisitKeepsCount(g: map<Ref, Thing>, seen: set<Ref>, receipts: nat, r: Ref)
    requires Counted(g, seen, receipts) && r in g && Confirmed(g[r])
    ensures Counted(g, seen + {r}, if g[r].git.Some? then receipts + 1 else receipts)
  {
    assert r in seen + {r};
    if receipts > 0 {
      var q :| q in seen && q in g && g[q].git.Some?;
      assert q in seen + {r};
    }
  }

  /** The answer: some Git error is reachable, and every reachable one is confirmed. */
  ghost predicate AllConfirmed(g: map<Ref, Thing>, error: Value) {
    && (exists r :: r in g && Reachable(g, error, r) && g[r].git.Some?)
    && (forall r | r in g && Reachable(g, error, r) && g[r].git.Some? ::
          g[r].git.value.cleanupConfirmed && g[r].git.value.observersDisposed)
  }

  ghost predicate Inv(g: map<Ref, Thing>, error: Value, pending: seq<Value>, seen: set<Ref>, receipts: nat) {
    Sound(g, error, pending, seen) && Complete(g, error, pending, seen) && Counted(g, seen, receipts)
  }

  lemma Begins(g: map<Ref, Thing>, error: Value)
    requires error.Object? ==> error.ref in g
    ensures Inv(g, error, [error], {}, 0)
  {
    if error.Object? { StartIsReachable(g, error.ref); }
  }

  lemma Skips(g: map<Ref, Thing>, error: Value, rest: seq<Value>, item: Value, seen: set<Ref>, receipts: nat)
    requires Inv(g, error, rest + [item], seen, receipts) && (item.Object? ==> item.ref in seen)
    ensures Inv(g, error, rest, seen, receipts)
  {
    SkipKeepsComplete(g, error, rest, seen, item);
  }

  lemma Visits(g: map<Ref, Thing>, error: Value, rest: seq<Value>, r: Ref, seen: set<Ref>, receipts: nat)
    requires Closed(g) && Inv(g, error, rest + [Object(r)], seen, receipts) && r !in seen && r in g && Confirmed(g[r])
    ensures Inv(g, error, rest + Next(g[r]), seen + {r}, if g[r].git.Some? then receipts + 1 else receipts)
    ensures |g.Keys - (seen + {r})| < |g.Keys - seen|
  {
    assert Object(r) in rest + [Object(r)];
    VisitKeepsSound(g, error, rest, seen, r);
    VisitKeepsComplete(g, error, rest, seen, r);
    VisitKeepsCount(g, seen, receipts, r);
    assert g.Keys - seen == (g.Keys - (seen + {r})) + {r};
  }

  lemma LastIsReachable(g: map<Ref, Thing>, error: Value, rest: seq<Value>, r: Ref, seen: set<Ref>, receipts: nat)
    requires Inv(g, error, rest + [Object(r)], seen, receipts)
    ensures r in g && (!Confirmed(g[r]) ==> !AllConfirmed(g, error))
  {
    assert Object(r) in rest + [Object(r)];
  }

  lemma NothingLeft(g: map<Ref, Thing>, error: Value, seen: set<Ref>, receipts: nat)
    requires Inv(g, error, [], seen, receipts)
    ensures receipts > 0 <==> AllConfirmed(g, error)
  {
    forall r | r in g && Reachable(g, error, r) ensures r in seen { ClosedSetHoldsReachable(g, seen, error, r); }
  }

  /** One turn of the loop: its last item is skipped, refutes the answer, or is visited. */
  lemma Turn(g: map<Ref, Thing>, error: Value, pending: seq<Value>, seen: set<Ref>, receipts: nat)
    requires Closed(g) && Inv(g, error, pending, seen, receipts) && pending != []
    ensures var item, rest := pending[|pending| - 1], pending[..|pending| - 1];
            if item.Primitive? || item.ref in seen then Inv(g, error, rest, seen, receipts)
            else
              && item.ref in g
              && (if !Confirmed(g[item.ref]) then !AllConfirmed(g, error)
                  else Visited(g, error, rest, item.ref, seen, receipts))
  {
    var item, rest := pending[|pending| - 1], pending[..|pending| - 1];
    assert pending == rest + [item];
    if item.Primitive? || item.ref in seen {
      Skips(g, error, rest, item, seen, receipts);
    } else {
      LastIsReachable(g, error, rest, item.ref, seen, receipts);
      if Confirmed(g[item.ref]) { Visits(g, error, rest, item.ref, seen, receipts); }
    }
  }

  ghost predicate Visited(g: map<Ref, Thing>, error: Value, rest: seq<Value>, r: Ref, seen: set<Ref>, receipts: nat)
    requires r in g
  {
    && Inv(g, error, rest + Next(g[r]), seen + {r}, if g[r].git.Some? then receipts + 1 else receipts)
    && |g.Keys - (seen + {r})| < |g.Keys - seen|
  }

  /**
   True exactly when some Git error is reachable and every reachable one has confirmed its cleanup and
   disposed its observers; it terminates however the objects refer to each other.
   */
  method ConfirmedOwnedGitCleanup(g: map<Ref, Thing>, error: Value) returns (confirmed: bool)
    requires Closed(g) && (error.Object? ==> error.ref in g)
    ensures confirmed <==> AllConfirmed(g, error)
  {
    var pending, seen := [error], {};
    var receipts: nat := 0;
    Begins(g, error);
    while pending != []
      invariant Inv(g, error, pending, seen, receipts)
      decreases |g.Keys - seen|, |pending|
    {
      var item, rest := pending[|pending| - 1], pending[..|pending| - 1];
      Turn(g, error, pending, seen, receipts);
      if item.Primitive? || item.ref in seen {
        pending := rest;
        continue;
      }
      var r := item.ref;
      if g[r].git.Some? && (!g[r].git.value.cleanupConfirmed || !g[r].git.value.observersDisposed) { return false; }
      seen := seen + {r};
      if g[r].git.Some? { receipts := receipts + 1; }
      pending := rest + Next(g[r]);
    }
    NothingLeft(g, error, seen, receipts);
    return receipts > 0;
  }
}
