/**
 That a required run event gets there (apps/artood/src/node-client.ts:742-763 over ws-transport.ts): whatever has
 happened before, an event that still waits survives the next drop of the connection, is written again, and its
 commit and receipt let its stream go on.
 */
module DeliveryProgress {
  import opened Common
  import Transport
  import opened EventDelivery
  import TransportLife

  /**
   A send takes the next sequence of its run: best-effort output as optional, a required event to wait for
   if it was queued.
   */
  lemma StreamsExactly(s: World, a: Action)
    requires Possible(s, a) && (a.Required? || a.Optional?)
    ensures var t, st := Apply(s, a), StreamOf(s, a.run);
            var u := StreamOf(t, a.run);
            && u.next == st.next + 1 && u.resolved == st.resolved && Frame(a.run, st.next) in t.sent
            && (a.Optional? ==> u.optional == st.optional + {st.next} && u.waiting == st.waiting)
            && (a.Required? ==>
                  && u.optional == st.optional
                  && var r := Transport.Send(s.transport, RequiredMessage(s, a.run, a.eventType, a.body), false,
                        a.wrote).1;
                     u.waiting == if r.Promised? then Some(Waiter(st.next, r.id)) else None)
            && t.sent[Frame(a.run, st.next)] ==
                 Transport.RunEvent(a.run, st.next, if a.Required? then a.eventType else Transport.OutputEvent, a.body)
  {}

  lemma Follows(s: World, a: Action, rest: seq<Action>)
    requires Possible(s, a) && IsRun(Apply(s, a), rest)
    ensures IsRun(s, [a] + rest) && Run(s, [a] + rest) == Run(Apply(s, a), rest)
  {
    assert ([a] + rest)[1..] == rest;
  }

  lemma ThreeSteps(s: World, a: Action, b: Action, c: Action)
    requires Possible(s, a) && Possible(Apply(s, a), b) && Possible(Apply(Apply(s, a), b), c)
    ensures IsRun(s, [a, b, c]) && Run(s, [a, b, c]) == Apply(Apply(Apply(s, a), b), c)
  {
    Follows(Apply(Apply(s, a), b), c, []);
    Follows(Apply(s, a), b, [c]);
    Follows(s, a, [b, c]);
    assert [a] + [b, c] == [a, b, c] && [b] + [c] == [b, c] && [c] + [] == [c];
  }

  lemma {:induction false} UnreceiptedHas(pending: seq<Transport.Entry>, e: Transport.Entry)
    requires e in pending && e.message.RunEvent?
    ensures e in Transport.Unreceipted(true, pending)
  {
    if pending[0] != e { UnreceiptedHas(pending[1..], e); }
  }

  /** The entry a waiting stream has in the replay map carries what it sent. */
  lemma WaitingEntry(s: World, run: RunId, w: Waiter) returns (e: Transport.Entry)
    requires Inv(s) && StreamOf(s, run).waiting == Some(w) && Transport.Waiting(s.transport.pending, w.promise)
    ensures e in s.transport.pending && e.promise == w.promise && e.message.RunEvent?
    ensures FrameOf(e.message) == Frame(run, w.sequence) && IsRunId(run)
    ensures Frame(run, w.sequence) in s.sent && s.sent[Frame(run, w.sequence)] == e.message
  {
    var i :| 0 <= i < |s.transport.pending| && s.transport.pending[i].promise == w.promise;
    e := s.transport.pending[i];
    assert EntryOk(s, e) && StreamOk(s, run);
  }

  /** The server stores a frame it is given, and the accepting receipt then releases the stream. */
  lemma CommitReleases(s: World, run: RunId, w: Waiter, m: Transport.Message)
    requires Inv(s) && StreamOf(s, run).waiting == Some(w) && Transport.Waiting(s.transport.pending, w.promise)
    requires m in s.transport.wire && m.RunEvent? && FrameOf(m) == Frame(run, w.sequence)
    ensures var actions := [ServerCommits(m), Receipt(Frame(run, w.sequence), true), Wake(run)];
            && IsRun(s, actions)
            && var t := Run(s, actions);
            && StreamOf(t, run).waiting == None && w.sequence in StreamOf(t, run).resolved
            && Frame(run, w.sequence) in t.commits
  {
    var f := Frame(run, w.sequence);
    var a, b, c := ServerCommits(m), Receipt(f, true), Wake(run);
    var t := Apply(s, a);
    StepKeepsInv(s, a);
    ReceiptReleasesTheStream(t, run, w);
    ThreeSteps(s, a, b, c);
  }

  /** The transport's own three steps, as steps of the whole. */
  lemma DropAndReplay(s: World, code: nat, budget: nat)
    requires Inv(s) && !s.transport.closed && s.transport.connectedOnce && s.transport.socket != Transport.Down
             && code != 1008
    requires budget > |s.transport.pending|
    ensures var actions :=
            [Link(Transport.ActClosed(code)), Link(Transport.ActReconnect), Link(Transport.ActOpen(budget))];
            && IsRun(s, actions)
            && var t := Run(s, actions);
            && Inv(t) && t == s.(transport := t.transport)
            && t.transport.wire == s.transport.wire + ([Transport.Hello] + Transport.Messages(s.transport.pending))
            && t.transport.pending == Transport.Unreceipted(true, s.transport.pending)
  {
    var x, y, z := Transport.ActClosed(code), Transport.ActReconnect, Transport.ActOpen(budget);
    var a, b, c := Link(x), Link(y), Link(z);
    TransportLife.DropIsFollowedByReplay(s.transport, code, budget);
    TransportLife.DropKeepsEverything(s.transport, code);
    TransportLife.ThreeSteps(s.transport, x, y, z);
    var t, u := Apply(s, a), Apply(Apply(s, a), b);
    StepKeepsInv(s, a);
    StepKeepsInv(t, b);
    StepKeepsInv(u, c);
    ThreeSteps(s, a, b, c);
  }

  lemma {:induction false} RunsCompose(s: World, first: seq<Action>, second: seq<Action>)
    requires IsRun(s, first) && IsRun(Run(s, first), second)
    ensures IsRun(s, first + second) && Run(s, first + second) == Run(Run(s, first), second)
    decreases first
  {
    if first == [] {
      EmptyIsNeutral(second);
    } else {
      RunsCompose(Apply(s, first[0]), first[1..], second);
      Associative([first[0]], first[1..], second);
      assert first == [first[0]] + first[1..];
      Follows(s, first[0], first[1..] + second);
    }
  }

  /**
   Main result: from any reachable world, an event its stream still waits for can be dropped by the network once more:
   after an ordinary drop, a reconnect that takes the backlog, one delivery and one receipt, it is committed with the
   content that was sent, its send has resolved and its stream is free.
   */
  lemma WaitingEventGetsThere(actions: seq<Action>, run: RunId, w: Waiter, code: nat, budget: nat)
    requires IsRun(Initial(), actions)
    requires var s := Run(Initial(), actions);
             && StreamOf(s, run).waiting == Some(w) && Transport.Waiting(s.transport.pending, w.promise)
             && !s.transport.closed && s.transport.connectedOnce && s.transport.socket != Transport.Down && code != 1008
             && budget > |s.transport.pending|
    ensures var s, f := Run(Initial(), actions), Frame(run, w.sequence);
            && f in s.sent
            && var more :=
                  [Link(Transport.ActClosed(code)), Link(Transport.ActReconnect), Link(Transport.ActOpen(budget))]
                           + [ServerCommits(s.sent[f]), Receipt(f, true), Wake(run)];
            && s.sent[f].RunEvent? && IsRun(s, more)
            && var t := Run(s, more);
            && StreamOf(t, run).waiting == None && w.sequence in StreamOf(t, run).resolved
            && f in t.commits && t.commits[f].message == s.sent[f]
  {
    Reached(actions);
    var s := Run(Initial(), actions);
    var f := Frame(run, w.sequence);
    var e := WaitingEntry(s, run, w);
    DropAndReplay(s, code, budget);
    var first := [Link(Transport.ActClosed(code)), Link(Transport.ActReconnect), Link(Transport.ActOpen(budget))];
    var second := [ServerCommits(e.message), Receipt(f, true), Wake(run)];
    var t := Run(s, first);
    UnreceiptedHas(s.transport.pending, e);
    var i :| 0 <= i < |t.transport.pending| && t.transport.pending[i] == e;
    assert Transport.Waiting(t.transport.pending, w.promise);
    ReplayedOnWire(s.transport.pending, e);
    CommitReleases(t, run, w, e.message);
    RunsCompose(s, first, second);
    RunKeepsInv(s, first + second);
    assert ServerOk(Run(s, first + second), f);
    CommitKeepsSent(t, second, f);
  }

  lemma ReplayedOnWire(pending: seq<Transport.Entry>, e: Transport.Entry)
    requires e in pending
    ensures e.message in Transport.Messages(pending)
  {
    var i :| 0 <= i < |pending| && pending[i] == e;
    assert Transport.Messages(pending)[i] == e.message;
  }

  lemma {:induction false} CommitKeepsSent(s: World, actions: seq<Action>, f: Frame)
    requires Inv(s) && IsRun(s, actions) && f in s.sent
    ensures f in Run(s, actions).sent && Run(s, actions).sent[f] == s.sent[f]
    decreases actions
  {
    if actions != [] {
      SentStays(s, actions[0]);
      StepKeepsInv(s, actions[0]);
      CommitKeepsSent(Apply(s, actions[0]), actions[1..], f);
    }
  }
}
