/**
 The callback protocol every dispatcher promises its clients: `connected(null)`, or
 `connected(conn)` or `accepted` followed by any number of `read` and one `closed`.
 */
module CallbackProtocol {

  /** A call of a client's function. */
  datatype Call = CallConnected | CallRefused | CallAccepted | CallRead | CallClosed

  datatype ConnState = CsWait4Connect | CsConnected | CsClosed

  // ---------- the protocol, twice ----------

  ghost predicate Talking(trace: seq<Call>)
  {
    && |trace| > 0 && (trace[0] == CallConnected || trace[0] == CallAccepted)
    && (forall i :: 1 <= i < |trace| ==> trace[i] == CallRead)
  }

  ghost predicate Over(trace: seq<Call>)
  {
    || trace == [CallRefused]
    || (|trace| > 1 && trace[|trace| - 1] == CallClosed && Talking(trace[..|trace| - 1]))
  }

  /** The prefixes of the promised traces. */
  ghost predicate InLanguage(trace: seq<Call>)
  {
    trace == [] || Talking(trace) || Over(trace)
  }

  /** The same protocol as an automaton, one call at a time; `None` is a broken promise. */
  datatype Verdict = Broken | At(state: ConnState)

  function Judge(v: Verdict, call: Call): Verdict
  {
    match v
    case Broken => Broken
    case At(CsWait4Connect) =>
      (match call
       case CallConnected => At(CsConnected)
       case CallAccepted => At(CsConnected)
       case CallRefused => At(CsClosed)
       case _ => Broken)
    case At(CsConnected) =>
      (match call
       case CallRead => At(CsConnected)
       case CallClosed => At(CsClosed)
       case _ => Broken)
    case At(CsClosed) => Broken
  }

  function JudgeAll(trace: seq<Call>): Verdict
  {
    if |trace| == 0 then At(CsWait4Connect) else Judge(JudgeAll(trace[..|trace| - 1]), trace[|trace| - 1])
  }

  /** The automaton accepts exactly the promised prefixes, and its state tells which kind of prefix it has seen. */
  lemma {:induction false} AutomatonIsLanguage(trace: seq<Call>)
    ensures JudgeAll(trace) != Broken <==> InLanguage(trace)
    ensures JudgeAll(trace) == At(CsWait4Connect) <==> trace == []
    ensures JudgeAll(trace) == At(CsConnected) <==> Talking(trace)
    ensures JudgeAll(trace) == At(CsClosed) <==> Over(trace)
  {
    if |trace| > 0 {
      var init, last := trace[..|trace| - 1], trace[|trace| - 1];
      AutomatonIsLanguage(init);
      assert trace == init + [last];
      if |init| > 0 {
        assert trace[0] == init[0];
        if Talking(trace) {
          assert Talking(init);
        }
      }
    }
  }

  // ---------- what the dispatchers keep per connection ----------

  /** The state field, which of the client's functions are still set, and the history of calls. */
  datatype Callbacks = Callbacks(state: ConnState, connected: bool, read: bool, closed: bool, trace: seq<Call>)

  /** No functions yet: a connection made but not dialled. */
  const UNDIALLED := Callbacks(CsWait4Connect, false, false, false, [])

  function Dialled(read: bool): Callbacks
  {
    Callbacks(CsWait4Connect, true, read, true, [])
  }

  function JustAccepted(read: bool): Callbacks
  {
    Callbacks(CsConnected, false, read, true, [CallAccepted])
  }

  /** The switch of `close_connection`, the same in all three dispatchers. */
  function Shut(k: Callbacks): Callbacks
  {
    match k.state
    case CsWait4Connect => Callbacks(CsClosed, false, false, false, k.trace + [CallRefused])
    case CsConnected => Callbacks(CsClosed, false, false, false, k.trace + [CallClosed])
    case CsClosed => k
  }

  /** `connection_established`: nothing once `connected` has been cleared. */
  function Established(k: Callbacks): Callbacks
  {
    if k.connected then k.(state := CsConnected, connected := false, trace := k.trace + [CallConnected]) else k
  }

  function Received(k: Callbacks): Callbacks
  {
    if k.read then k.(trace := k.trace + [CallRead]) else k
  }

  /** The state field says where in the protocol the connection is, and what may still be called. */
  ghost predicate Consistent(k: Callbacks)
  {
    && JudgeAll(k.trace) == At(k.state)
    && (k.connected ==> k.state == CsWait4Connect)
    && (k.state == CsClosed ==> !k.read && !k.closed)
  }

  function Rank(state: ConnState): nat
  {
    match state
    case CsWait4Connect => 0
    case CsConnected => 1
    case CsClosed => 2
  }

  /** `k'` is `k` or a later moment of the same connection: calls are only added and the state never goes back. */
  ghost predicate Later(k: Callbacks, k': Callbacks)
  {
    k.trace <= k'.trace && Rank(k.state) <= Rank(k'.state) && (k.state == CsClosed ==> k' == k)
  }

  lemma JudgeOne(trace: seq<Call>, call: Call)
    ensures JudgeAll(trace + [call]) == Judge(JudgeAll(trace), call)
  {
    assert (trace + [call])[..|trace|] == trace;
  }

  lemma ShutIsConsistent(k: Callbacks)
    requires Consistent(k)
    ensures Consistent(Shut(k)) && Later(k, Shut(k))
    ensures Shut(k).state == CsClosed && Shut(Shut(k)) == Shut(k)
    ensures k.state != CsClosed ==> |Shut(k).trace| == |k.trace| + 1
  {
    JudgeOne(k.trace, CallRefused);
    JudgeOne(k.trace, CallClosed);
  }

  lemma EstablishedIsConsistent(k: Callbacks)
    requires Consistent(k)
    ensures Consistent(Established(k)) && Later(k, Established(k))
  {
    JudgeOne(k.trace, CallConnected);
  }

  /** Data before the connection is established is the one way to break the protocol. */
  lemma ReceivedIsConsistent(k: Callbacks)
    requires Consistent(k)
    ensures Consistent(Received(k)) <==> !(k.read && k.state == CsWait4Connect)
    ensures Consistent(Received(k)) ==> Later(k, Received(k))
  {
    JudgeOne(k.trace, CallRead);
  }

  lemma FreshIsConsistent(read: bool)
    ensures Consistent(UNDIALLED) && Consistent(Dialled(read)) && Consistent(JustAccepted(read))
  {
    JudgeOne([], CallAccepted);
    assert [] + [CallAccepted] == [CallAccepted];
  }

  lemma LaterIsTransitive(a: Callbacks, b: Callbacks, c: Callbacks)
    requires Later(a, b) && Later(b, c)
    ensures Later(a, c)
  {
    assert a.trace == c.trace[..|a.trace|];
  }
}
