/**
 `AsyncEventQueue` (apps/artood/src/process-adapter.ts:251-296): items nobody has asked for
 yet, or consumers nobody has served yet, and a flag that ends it.
 */
module EventQueue {
  import opened Common

  /** What a request for the next item becomes: an item, the end, or still open. */
  datatype Answer<T> = Item(value: T) | Done

  /**
   Requests are numbered as they come; `pushed` is every item accepted before the end, and
   `answers` what each settled request got.
   */
  datatype State<T> = State(
    items: seq<T>, waiters: seq<nat>, ended: bool, pushed: seq<T>, requests: nat, answers: map<nat, Answer<T>>)

  function Empty<T>(): State<T> {
    State([], [], false, [], 0, map[])
  }

  function OnPush<T>(s: State<T>, item: T): State<T> {
    if s.ended then s
    else if s.waiters != [] then
      s.(waiters := s.waiters[1..], pushed := s.pushed + [item], answers := s.answers[s.waiters[0] := Item(item)])
    else s.(items := s.items + [item], pushed := s.pushed + [item])
  }

  function Dismiss<T>(s: State<T>): State<T>
    decreases |s.waiters|
  {
    if s.waiters == [] then s
    else Dismiss(s.(waiters := s.waiters[1..], answers := s.answers[s.waiters[0] := Done]))
  }

  function OnEnd<T>(s: State<T>): State<T> {
    Dismiss(s.(ended := true))
  }

  /** One turn of `drain`: take a stored item, see the end, or wait. */
  function OnPull<T>(s: State<T>): State<T> {
    if s.items != []
    then s.(items := s.items[1..], requests := s.requests + 1, answers := s.answers[s.requests := Item(s.items[0])])
    else if s.ended then s.(requests := s.requests + 1, answers := s.answers[s.requests := Done])
    else s.(requests := s.requests + 1, waiters := s.waiters + [s.requests])
  }

  datatype Action<T> = DoPush(item: T) | DoEnd | DoPull

  function Step<T>(s: State<T>, a: Action<T>): State<T> {
    match a
    case DoPush(item) => OnPush(s, item)
    case DoEnd => OnEnd(s)
    case DoPull => OnPull(s)
  }

  function Run<T>(s: State<T>, actions: seq<Action<T>>): State<T>
    decreases |actions|
  {
    if actions == [] then s else Run(Step(s, actions[0]), actions[1..])
  }

  /** How many items have been handed out. */
  function Taken<T>(s: State<T>): int {
    |s.pushed| - |s.items|
  }

  ghost predicate Inv<T(!new)>(s: State<T>) {
    && (s.items == [] || s.waiters == []) && (s.ended ==> s.waiters == [])
    && 0 <= Taken(s) && s.items == s.pushed[Taken(s)..]
    && (!s.ended || s.items != [] ==> s.requests == Taken(s) + |s.waiters|)
    && Taken(s) + |s.waiters| <= s.requests
    && (forall k | 0 <= k < |s.waiters| :: s.waiters[k] == Taken(s) + k)
    && (forall t: nat :: t in s.answers <==> t < Taken(s) || Taken(s) + |s.waiters| <= t < s.requests)
    && (forall t: nat | t in s.answers :: s.answers[t] == if t < Taken(s) then Item(s.pushed[t]) else Done)
  }

  lemma {:induction false} DismissAnswers<T(!new)>(s: State<T>)
    requires s.ended && (forall k | 0 <= k < |s.waiters| :: s.waiters[k] == s.requests - |s.waiters| + k)
    requires |s.waiters| <= s.requests
    ensures var t := Dismiss(s);
            && t == s.(waiters := [], answers := t.answers)
            && (forall r: nat :: r in t.answers <==> r in s.answers || s.requests - |s.waiters| <= r < s.requests)
            && (forall r: nat | r in t.answers :: t.answers[r] ==
                  if s.requests - |s.waiters| <= r < s.requests then Done else s.answers[r])
    decreases |s.waiters|
  {
    if s.waiters != [] {
      DismissAnswers(s.(waiters := s.waiters[1..], answers := s.answers[s.waiters[0] := Done]));
    }
  }

  lemma PushKeepsInv<T(!new)>(s: State<T>, item: T)
    requires Inv(s)
    ensures Inv(OnPush(s, item))
  {
    var t := OnPush(s, item);
    if !s.ended { assert s.pushed == t.pushed[..|s.pushed|]; }
  }

  lemma EndKeepsInv<T(!new)>(s: State<T>)
    requires Inv(s)
    ensures Inv(OnEnd(s))
  {
    if s.waiters != [] { DismissAnswers(s.(ended := true)); }
  }

  lemma PullKeepsInv<T(!new)>(s: State<T>)
    requires Inv(s)
    ensures Inv(OnPull(s))
  {
    var t := OnPull(s);
    if s.items != [] { assert t.items == t.pushed[Taken(t)..] && s.items[0] == s.pushed[Taken(s)]; }
  }

  lemma {:induction false} RunKeepsInv<T(!new)>(s: State<T>, actions: seq<Action<T>>)
    requires Inv(s)
    ensures Inv(Run(s, actions))
    decreases |actions|
  {
    if actions != [] {
      match actions[0] {
        case DoPush(item) => PushKeepsInv(s, item);
        case DoEnd => EndKeepsInv(s);
        case DoPull => PullKeepsInv(s);
      }
      RunKeepsInv(Step(s, actions[0]), actions[1..]);
    }
  }

  /**
   For every interleaving of pushes, pulls and ends: the n-th request gets the n-th item pushed, whether
   it had to wait or not, and is told the end only when there is no n-th item and never will be.
   */
  lemma DeliveredInPushOrder<T(!new)>(actions: seq<Action<T>>, request: nat)
    requires var s := Run(Empty(), actions); request in s.answers
    ensures var s := Run(Empty(), actions);
            if request < |s.pushed| then s.answers[request] == Item(s.pushed[request])
            else s.answers[request] == Done && s.ended
  {
    RunKeepsInv(Empty(), actions);
    var s := Run(Empty(), actions);
    assert request < s.requests;
  }

  /** No item waits while a consumer does, and once the queue has ended nobody waits. */
  lemma NobodyStarves<T(!new)>(actions: seq<Action<T>>, request: nat)
    requires var s := Run(Empty(), actions); request < s.requests && (request < |s.pushed| || s.ended)
    ensures request in Run(Empty(), actions).answers
  {
    RunKeepsInv(Empty(), actions);
  }

  /** The items pushed before the first end. */
  function PushedBeforeEnd<T>(actions: seq<Action<T>>): seq<T>
    decreases |actions|
  {
    if actions == [] || actions[0].DoEnd? then []
    else (if actions[0].DoPush? then [actions[0].item] else []) + PushedBeforeEnd(actions[1..])
  }

  /** An item is accepted exactly before the end. */
  lemma StepAccepts<T(!new)>(s: State<T>, a: Action<T>)
    ensures var t := Step(s, a);
            && t.pushed == (if a.DoPush? && !s.ended then s.pushed + [a.item] else s.pushed)
            && (t.ended <==> s.ended || a.DoEnd?)
  {
    if a.DoEnd? { DismissKeepsItems(s.(ended := true)); }
  }

  predicate SomeEnd<T(!new)>(actions: seq<Action<T>>) {
    exists k :: 0 <= k < |actions| && actions[k].DoEnd?
  }

  lemma SomeEndFromHead<T(!new)>(actions: seq<Action<T>>)
    requires actions != []
    ensures SomeEnd(actions) <==> actions[0].DoEnd? || SomeEnd(actions[1..])
  {
    if SomeEnd(actions[1..]) {
      var k :| 0 <= k < |actions[1..]| && actions[1..][k].DoEnd?;
      assert actions[k + 1].DoEnd?;
    }
    if k :| 0 < k < |actions| && actions[k].DoEnd? { assert actions[1..][k - 1].DoEnd?; }
  }

  lemma {:induction false} AcceptsUntilEnd<T(!new)>(s: State<T>, actions: seq<Action<T>>)
    ensures var t := Run(s, actions);
            && t.pushed == (if s.ended then s.pushed else s.pushed + PushedBeforeEnd(actions))
            && (t.ended <==> s.ended || SomeEnd(actions))
    decreases |actions|
  {
    EmptyIsNeutral(s.pushed);
    if actions != [] {
      var rest := PushedBeforeEnd(actions[1..]);
      StepAccepts(s, actions[0]);
      AcceptsUntilEnd(Step(s, actions[0]), actions[1..]);
      SomeEndFromHead(actions);
      EmptyIsNeutral(rest);
      if actions[0].DoPush? { Associative(s.pushed, [actions[0].item], rest); }
    }
  }

  lemma {:induction false} DismissKeepsItems<T(!new)>(s: State<T>)
    ensures Dismiss(s).pushed == s.pushed && Dismiss(s).ended == s.ended
    decreases |s.waiters|
  {
    if s.waiters != [] {
      DismissKeepsItems(s.(waiters := s.waiters[1..], answers := s.answers[s.waiters[0] := Done]));
    }
  }

  /** Every item pushed before the end is accepted, in order, and it ends exactly when somebody ends it. */
  lemma PushedIsHistory<T(!new)>(actions: seq<Action<T>>)
    ensures Run(Empty(), actions).pushed == PushedBeforeEnd(actions)
    ensures Run(Empty(), actions).ended <==> SomeEnd(actions)
  {
    AcceptsUntilEnd(Empty(), actions);
    EmptyIsNeutral(PushedBeforeEnd(actions));
  }

  /** Nothing pushed after the end is ever delivered. */
  lemma {:induction false} EndIsFinal<T(!new)>(s: State<T>, actions: seq<Action<T>>)
    requires Inv(s) && s.ended
    ensures Run(s, actions).ended && Run(s, actions).pushed == s.pushed
    decreases |actions|
  {
    if actions != [] {
      EndKeepsInv(s);
      PullKeepsInv(s);
      EndIsFinal(Step(s, actions[0]), actions[1..]);
    }
  }

  class AsyncEventQueue<T(!new)> {
    var items: seq<T>
    var waiters: seq<nat>
    var ended: bool
    /** The identity of the next request. */
    var requests: nat
    ghost var pushed: seq<T>
    ghost var answers: map<nat, Answer<T>>

    ghost function View(): State<T>
      reads this
    {
      State(items, waiters, ended, pushed, requests, answers)
    }

    constructor ()
      ensures View() == Empty() && Inv(View())
    {
      items, waiters, ended, requests, pushed, answers := [], [], false, 0, [], map[];
    }

    method Push(item: T)
      requires Inv(View())
      modifies this
      ensures View() == OnPush(old(View()), item) && Inv(View())
    {
      PushKeepsInv(View(), item);
      if ended { return; }
      pushed := pushed + [item];
      if waiters != [] {
        answers := answers[waiters[0] := Item(item)];
        waiters := waiters[1..];
      } else {
        items := items + [item];
      }
    }

    method End()
      requires Inv(View())
      modifies this
      ensures View() == OnEnd(old(View())) && Inv(View())
    {
      EndKeepsInv(View());
      ended := true;
      while waiters != []
        invariant Dismiss(View()) == OnEnd(old(View()))
        decreases |waiters|
      {
        answers := answers[waiters[0] := Done];
        waiters := waiters[1..];
      }
    }

    /** `next` is what the consumer gets at once; None means it waits under the number `request`. */
    method Pull() returns (request: nat, next: Option<Answer<T>>)
      requires Inv(View())
      modifies this
      ensures View() == OnPull(old(View())) && Inv(View())
      ensures request == old(requests) && (next.Some? <==> request in answers)
              && (next.Some? ==> next.value == answers[request])
    {
      PullKeepsInv(View());
      request, requests := requests, requests + 1;
      if items != [] {
        next := Some(Item(items[0]));
        items := items[1..];
      } else if ended {
        next := Some(Done);
      } else {
        next, waiters := None, waiters + [request];
      }
      if next.Some? { answers := answers[request := next.value]; }
    }
  }
}
