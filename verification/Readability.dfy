/**
 The receiving side of one connection. The reactor reports readability once per arrival, and the
 dispatcher answers a report with one `recv`.
 */
module ReadabilityProofs {
  import opened CallbackProtocol
  import opened DispatcherState

  /** The size of the receive buffer. */
  const BUFFER := 65536

  /** What the kernel holds: unread bytes, whether the peer has ended the stream, and a report still to come. */
  datatype Inbox = Inbox(unread: nat, ended: bool, edge: bool)
  {
    /** Something can be read, and no report of it is to come. */
    predicate Forgotten()
    {
      (unread > 0 || ended) && !edge
    }
  }

  datatype Receiver = Receiver(cbs: Callbacks, inbox: Inbox, open: bool)

  datatype Move =
    | Arrives(bytes: nat)
    | Ends
    | Reads(threw: bool, broken: bool)

  /** What `recv` answers; `threw` is what the client's callback would do. */
  function Received(i: Inbox, threw: bool, broken: bool): RecvResult
  {
    if broken then RecvError
    else if i.unread > 0 then (if threw then GotAndThrew else Got)
    else if i.ended then EndOfStream else WouldBlock
  }

  /** What is left after one `recv`. */
  function Drained(i: Inbox): Inbox
  {
    i.(unread := i.unread - Min(i.unread, BUFFER))
  }

  predicate Possible(r: Receiver, m: Move)
  {
    match m
    case Arrives(n) => n > 0 && !r.inbox.ended
    case Ends => !r.inbox.ended
    case Reads(_, _) => r.open && r.inbox.edge
  }

  /** An arrival raises an edge; a report consumes it, and one `recv` follows if the client reads at all. */
  function Moved(r: Receiver, m: Move): Receiver
  {
    match m
    case Arrives(n) => r.(inbox := r.inbox.(unread := r.inbox.unread + n, edge := true))
    case Ends => r.(inbox := r.inbox.(ended := true, edge := true))
    case Reads(threw, broken) =>
      var i := r.inbox.(edge := false);
      var (cbs, open) := DoRecv(r.cbs, Received(i, threw, broken));
      Receiver(cbs, if r.cbs.read && !broken then Drained(i) else i, open)
  }

  /** The report finds more than one buffer, or bytes and the end of the stream behind them. */
  predicate Overfull(r: Receiver, m: Move)
  {
    && m.Reads? && r.cbs.read && !m.broken && !m.threw
    && (r.inbox.unread > BUFFER || (r.inbox.unread > 0 && r.inbox.ended))
  }

  /** A read leaves an open connection with something to read and no report to come exactly when it was overfull. */
  lemma ReadForgets(r: Receiver, m: Move)
    requires Possible(r, m) && m.Reads?
    ensures Moved(r, m).open && Moved(r, m).inbox.Forgotten() <==> Overfull(r, m)
  {
  }

  ghost predicate PossibleRun(r: Receiver, run: seq<Move>)
    decreases |run|
  {
    |run| == 0 || (Possible(r, run[0]) && PossibleRun(Moved(r, run[0]), run[1..]))
  }

  ghost function AfterMoves(r: Receiver, run: seq<Move>): Receiver
    decreases |run|
  {
    if |run| == 0 then r else AfterMoves(Moved(r, run[0]), run[1..])
  }

  ghost predicate NeverOverfull(r: Receiver, run: seq<Move>)
    decreases |run|
  {
    |run| == 0 || (!Overfull(r, run[0]) && NeverOverfull(Moved(r, run[0]), run[1..]))
  }

  /** In every run without such a read, whatever an open connection can still read will be reported. */
  lemma {:induction false} NothingUnreadIsForgotten(r: Receiver, run: seq<Move>)
    requires PossibleRun(r, run) && NeverOverfull(r, run) && !(r.open && r.inbox.Forgotten())
    ensures !(AfterMoves(r, run).open && AfterMoves(r, run).inbox.Forgotten())
    decreases |run|
  {
    if |run| > 0 {
      if run[0].Reads? {
        ReadForgets(r, run[0]);
      }
      NothingUnreadIsForgotten(Moved(r, run[0]), run[1..]);
    }
  }

  /** A connection just accepted by a client that reads. */
  const FRESH := Receiver(JustAccepted(true), Inbox(0, false, false), true)

  /** One byte more than the buffer: the byte stays unread. */
  lemma TheLastByteStaysUnread()
    ensures var run := [Arrives(BUFFER + 1), Reads(false, false)];
            && PossibleRun(FRESH, run)
            && AfterMoves(FRESH, run) == Receiver(JustAccepted(true).(trace := [CallAccepted, CallRead]), Inbox(1, false, false), true)
  {
    var run := [Arrives(BUFFER + 1), Reads(false, false)];
    var r1 := Moved(FRESH, run[0]);
    assert run[1..] == [Reads(false, false)] && run[1..][1..] == [];
    assert [CallAccepted] + [CallRead] == [CallAccepted, CallRead];
    assert AfterMoves(r1, run[1..]) == AfterMoves(Moved(r1, run[1]), []);
    assert PossibleRun(Moved(r1, run[1]), []);
  }

  /** A byte and the end of the stream arrive together: `closed` is not called. */
  lemma TheEndStaysUnread()
    ensures var run := [Arrives(1), Ends, Reads(false, false)];
            && PossibleRun(FRESH, run)
            && AfterMoves(FRESH, run) == Receiver(JustAccepted(true).(trace := [CallAccepted, CallRead]), Inbox(0, true, false), true)
  {
    var run := [Arrives(1), Ends, Reads(false, false)];
    var r1 := Moved(FRESH, run[0]);
    var r2 := Moved(r1, run[1]);
    assert run[1..] == [Ends, Reads(false, false)] && run[1..][1..] == [Reads(false, false)] && run[1..][1..][1..] == [];
    assert [CallAccepted] + [CallRead] == [CallAccepted, CallRead];
    assert AfterMoves(r2, [Reads(false, false)]) == AfterMoves(Moved(r2, Reads(false, false)), []);
    assert PossibleRun(Moved(r2, Reads(false, false)), []);
    assert PossibleRun(r2, [Reads(false, false)]);
    assert PossibleRun(r1, run[1..]);
  }
}
