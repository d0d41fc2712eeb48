/** Runs put together one step at a time. */
module Scenarios {
  import opened Bandwidth
  import opened CallbackProtocol
  import opened Clock
  import opened DispatcherInvariant
  import opened DispatcherState
  import opened DispatcherSteps
  import opened EventStepProofs
  import opened Ids
  import opened ThreadStepProofs

  lemma {:induction false} OneMoreStep(s: State, run: seq<Action>, a: Action)
    requires OrderlyRun(s, run) && ValidRun(s, run)
    requires Enabled(After(s, run), a) && Orderly(After(s, run), a)
    ensures OrderlyRun(s, run + [a]) && ValidRun(s, run + [a])
    ensures After(s, run + [a]) == Next(After(s, run), a)
    decreases |run|
  {
    if |run| == 0 {
      assert run + [a] == [a];
      assert [a][1..] == [];
      assert OrderlyRun(Next(s, a), []) && ValidRun(Next(s, a), []);
    } else {
      OneMoreStep(Next(s, run[0]), run[1..], a);
      assert (run + [a])[1..] == run[1..] + [a];
    }
  }

  lemma ReachedNext(s: State, start: Start, run: seq<Action>, a: Action)
    requires Reached(s, start, run) && Enabled(s, a) && Orderly(s, a)
    ensures Reached(Next(s, a), start, run + [a])
  {
    OneMoreStep(Initial(start), run, a);
  }

  lemma Step(s: State, start: Start, run: seq<Action>, a: Action) returns (s': State, run': seq<Action>)
    requires Reached(s, start, run) && Enabled(s, a) && Orderly(s, a)
    ensures s' == Next(s, a) && Reached(s', start, run') && Inv(s') && run' == run + [a]
  {
    s', run' := Next(s, a), run + [a];
    ReachedNext(s, start, run, a);
    ReachedInv(s', start, run');
  }

  lemma AcceptOne(s: State, n: Newcomer)
    ensures AcceptAll(s, [n]) == AcceptConnection(s, n)
  {
    assert [n][..0] == [];
    assert AcceptAll(s, []) == s;
  }

  /** The dispatcher's start, at time 0. */
  const START := Start(0, 0, 0)
  const BLANK := Initial(START)

  /** An accepted connection at address 0, as the first thing that happens after the limit is set. */
  lemma FirstConnection(limit: uint32, room: nat) returns (s: State, run: seq<Action>)
    ensures Reached(s, START, run) && Inv(s)
    ensures s.conns == map[0 := NewConn(JustAccepted(false), 3, true, Sock(room, room > 0, false), FromListener, true, true)]
    ensures s.queue == [] && s.reqs == map[] && s.outgoings == map[] && s.now == 0
    ensures s.bws == Inserted(NewBw(limit, 0, 0), 0, 0, OfMs(0))
  {
    var n := Newcomer(0, false, room);
    assert Reached(BLANK, START, []);
    var s1, run1 := Step(BLANK, START, [], ClientSetsLimit(limit));
    assert FreshNewcomers(s1, [n]);
    AcceptOne(s1, n);
    s, run := Step(s1, START, run1, HandlesListener([n]));
  }

  /** A send on connection `c` whose message is handled at once. */
  ghost predicate Requested(s: State, s': State, r: ReqId, c: ConnId, data: Payload, cb: bool)
    requires c in s.conns
  {
    && s'.queue == [] && s'.bws == s.bws && s'.now == s.now && s'.accepted == s.accepted && c in s'.conns
    && s'.conns == s.conns[c := s.conns[c].(refs := s.conns[c].refs + 1, calls := s.conns[c].calls + [r], order := s.conns[c].order + [r])]
    && s'.reqs == s.reqs[r := Req(c, data, 0, cb, 2, cb, true, Pending, |s.conns[c].order|, false, [])]
    && s'.outgoings == s.outgoings[c := (if c in s.outgoings then s.outgoings[c] else []) + [r]]
  }

  lemma RequestedShape(s: State, r: ReqId, c: ConnId, data: Payload, cb: bool)
    requires s.queue == [] && c in s.conns && s.conns[c].cbs.state != CsClosed && r !in s.reqs
    ensures Send(s, r, c, data, cb).queue == [SendRequest(r)] && ReqKnown(Send(s, r, c, data, cb), r)
    ensures Requested(s, PopMessage(Send(s, r, c, data, cb)), r, c, data, cb)
  {
    var s1 := Send(s, r, c, data, cb);
    assert s1.queue == [SendRequest(r)] && s1.queue[1..] == [];
    EnlistedRequest(s, s1.(queue := []), r, c, data, cb);
  }

  lemma EnlistedRequest(s: State, s1: State, r: ReqId, c: ConnId, data: Payload, cb: bool)
    requires c in s.conns && s.conns[c].cbs.state != CsClosed && r !in s.reqs
    requires s1 == Send(s, r, c, data, cb).(queue := [])
    ensures Requested(s, Enlisted(s1, r), r, c, data, cb)
  {
  }

  /** The next message is handled, unless that crashes the process. */
  lemma HandlesNext(s: State, start: Start, run: seq<Action>) returns (run': seq<Action>)
    requires Reached(s, start, run) && s.queue != [] && !ClosesUnissued(s)
    ensures Enabled(s, HandlesMessage) && Reached(PopMessage(s), start, run') && Inv(PopMessage(s))
    ensures run' == run + [HandlesMessage]
  {
    ReachedInv(s, start, run);
    var _, run1 := Step(s, start, run, HandlesMessage);
    run' := run1;
  }

  /** The next message closes a connection whose connect did not fail at once. */
  lemma HandlesClose(s: State, start: Start, run: seq<Action>, c: ConnId) returns (run': seq<Action>)
    requires Reached(s, start, run) && s.queue == [Close(c)] && c in s.conns && s.conns[c].issued
    ensures Reached(PopMessage(s), start, run') && run' == run + [HandlesMessage]
  {
    run' := HandlesNext(s, start, run);
  }

  lemma SendIsEnabled(s: State, r: ReqId, c: ConnId, data: Payload, cb: bool)
    requires Inv(s) && r !in s.reqs && c in s.conns && s.conns[c].clientRefs > 0
    ensures Enabled(s, ClientSends(r, c, data, cb)) && Orderly(s, ClientSends(r, c, data, cb))
  {
  }

  lemma OneRequest(s: State, start: Start, run: seq<Action>, r: ReqId, c: ConnId, data: Payload, cb: bool)
      returns (s': State, run': seq<Action>)
    requires Reached(s, start, run) && s.queue == [] && r !in s.reqs
    requires c in s.conns && s.conns[c].clientRefs > 0 && s.conns[c].cbs.state != CsClosed
    ensures Reached(s', start, run') && Inv(s') && Requested(s, s', r, c, data, cb)
    ensures run' == run + [ClientSends(r, c, data, cb)] + [HandlesMessage]
  {
    ReachedInv(s, start, run);
    SendIsEnabled(s, r, c, data, cb);
    RequestedShape(s, r, c, data, cb);
    var s1, run1 := Step(s, start, run, ClientSends(r, c, data, cb));
    s' := PopMessage(s1);
    run' := HandlesNext(s1, start, run1);
  }

  /** One request with a callback waits on the list of a connection without room. */
  ghost predicate Waiting(s: State)
  {
    && s.queue == [] && s.outgoings == map[0 := [0]] && s.bws.maxBw == 0 && 0 in s.conns
    && s.conns[0].cbs == JustAccepted(false) && s.conns[0].clientRefs > 0 && s.conns[0].issued && s.conns[0].registered
    && s.conns[0].sock == Sock(0, false, false) && s.conns[0].wire == []
    && 0 in s.reqs && s.reqs[0] == Req(0, [7], 0, true, 2, true, true, Pending, 0, false, [])
  }

  lemma AcceptedThenWaiting(s: State, s': State)
    requires s.bws == NewBw(0, 0, 0) && s.outgoings == map[] && s.queue == [] && s.reqs == map[]
    requires s.conns == map[0 := NewConn(JustAccepted(false), 3, true, Sock(0, false, false), FromListener, true, true)]
    requires Requested(s, s', 0, 0, [7], true)
    ensures Waiting(s')
  {
    assert s'.outgoings == map[0 := [0]] by {
      assert [] + [0] == [0];
    }
  }

  lemma ReachWaiting() returns (s: State, run: seq<Action>)
    ensures Reached(s, START, run) && Waiting(s)
  {
    var s0, run0 := FirstConnection(0, 0);
    s, run := OneRequest(s0, START, run0, 0, 0, [7], true);
    AcceptedThenWaiting(s0, s);
  }

  const CALM := World(r => 0, r => 0)
}
