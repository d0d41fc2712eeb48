/** What all sockets together accept: tracked connections keep to the limit, closed ones come on top. */
module AllSocketsProofs {
  import opened Bandwidth
  import opened BandwidthTheorems
  import opened CallbackProtocol
  import opened CalmStepProofs
  import opened Clock
  import opened DispatcherState
  import opened DispatcherSteps
  import opened EventStepProofs
  import opened Ids
  import opened LogProofs
  import opened MapSums
  import opened RateRunProofs
  import opened SpanProofs
  import opened TrackingProofs

  // ---------- the sums ----------

  /** Bytes a socket accepted in the second that ends at `end`. */
  function LogSpan(log: seq<Taken>, end: int): nat
  {
    if |log| == 0 then 0 else LogSpan(log[..|log| - 1], end) + if InSpan(log[|log| - 1].t, end) then log[|log| - 1].size else 0
  }

  /** Of those, the bytes accepted while there was a limit. */
  function LimitedSpan(k: Conn, end: int): nat
  {
    Span(Limited(k.log), end)
  }

  function LimitedSpans(conns: map<ConnId, Conn>, end: int): map<ConnId, nat>
  {
    map c | c in conns :: LimitedSpan(conns[c], end)
  }

  function ClosedSpans(conns: map<ConnId, Conn>, end: int): map<ConnId, nat>
  {
    map c | c in conns && conns[c].cbs.state == CsClosed :: LimitedSpan(conns[c], end)
  }

  function LogSpans(conns: map<ConnId, Conn>, end: int): map<ConnId, nat>
  {
    map c | c in conns :: LogSpan(conns[c].log, end)
  }

  /** All bytes that all sockets accepted in the second that ends at `end`. */
  ghost function Accepted(s: State, end: int): nat
  {
    Sum(LogSpans(s.conns, end))
  }

  /** Of those, the bytes accepted while there was a limit. */
  ghost function AcceptedUnderALimit(s: State, end: int): nat
  {
    Sum(LimitedSpans(s.conns, end))
  }

  /** Of those, the bytes of connections that are closed by now. */
  ghost function ByTheClosed(s: State, end: int): nat
  {
    Sum(ClosedSpans(s.conns, end))
  }

  // ---------- logs and records ----------

  lemma {:induction false} NonEmptySpan(rs: seq<BwRecord>, end: int)
    ensures Span(NonEmpty(rs), end) == Span(rs, end)
  {
    if |rs| > 0 {
      var init, last := rs[..|rs| - 1], rs[|rs| - 1];
      NonEmptySpan(init, end);
      OneSpanMore(NonEmpty(init), last, end);
    }
  }

  lemma OpenSpan(s: State, c: ConnId, end: int)
    requires TalliedAt(s, c, None) && c in s.conns && !ClosedIn(s, c)
    ensures LimitedSpan(s.conns[c], end) == Span(KeptRecords(s.bws, c), end)
  {
    assert GoneRecords(s.bws, c) == [];
    assert History(s.bws, c) == KeptRecords(s.bws, c);
    NonEmptySpan(KeptRecords(s.bws, c), end);
  }

  function OpenSpans(conns: map<ConnId, Conn>, end: int): map<ConnId, nat>
  {
    map c | c in conns :: if conns[c].cbs.state == CsClosed then 0 else LimitedSpan(conns[c], end)
  }

  function ClosedOrNothing(conns: map<ConnId, Conn>, end: int): map<ConnId, nat>
  {
    map c | c in conns :: if conns[c].cbs.state == CsClosed then LimitedSpan(conns[c], end) else 0
  }

  lemma OpenSum(s: State, end: int)
    requires Tallied(s, None) && TrackedConnected(s)
    ensures Sum(OpenSpans(s.conns, end)) == InSecond(s.bws, end)
  {
    forall c | c in s.bws.states
      ensures c in s.conns && !ClosedIn(s, c)
    {
      assert ConnectedIn(s, c);
    }
    forall c | c in s.conns
      ensures OpenSpans(s.conns, end)[c] == if c in s.bws.states then Spans(s.bws.states, end)[c] else 0
    {
      assert TalliedAt(s, c, None);
      if !ClosedIn(s, c) {
        OpenSpan(s, c, end);
      }
    }
    SumOverTheBusy(OpenSpans(s.conns, end), Spans(s.bws.states, end));
  }

  lemma OpenAndClosed(conns: map<ConnId, Conn>, end: int)
    ensures Sum(LimitedSpans(conns, end)) == Sum(OpenSpans(conns, end)) + Sum(ClosedSpans(conns, end))
  {
    SumSplit(LimitedSpans(conns, end), OpenSpans(conns, end), ClosedOrNothing(conns, end));
    SumOverTheBusy(ClosedOrNothing(conns, end), ClosedSpans(conns, end));
  }

  /**
   In every reachable state, for every second: what all sockets accepted under a limit is what the
   limiter has on record for the connections it tracks, and what the connections closed since had sent.
   */
  lemma TrackedAndClosed(s: State, start: Start, run: seq<Action>, end: int)
    requires Reached(s, start, run)
    ensures AcceptedUnderALimit(s, end) == InSecond(s.bws, end) + ByTheClosed(s, end)
  {
    ReachedTallied(s, start, run);
    ReachedTracked(s, start, run);
    OpenSum(s, end);
    OpenAndClosed(s.conns, end);
  }

  // ---------- the limit and all sockets ----------

  lemma {:induction false} NoUnlimited(log: seq<Taken>, now: nat, since: int, end: int)
    requires Dated(log, now, Some(since)) && since < end - 1000 * VALID_PERIOD
    ensures LogSpan(log, end) == Span(Limited(log), end)
  {
    if |log| > 0 {
      var init, last := log[..|log| - 1], log[|log| - 1];
      NoUnlimited(init, now, since, end);
      OneTaken(init, last);
      assert init + [last] == log;
      OneSpanMore(Limited(init), BwRecord(last.t, last.size), end);
    }
  }

  lemma NothingUnlimited(s: State, since: int, end: int)
    requires Tallied(s, Some(since)) && since < end - 1000 * VALID_PERIOD
    ensures Accepted(s, end) == AcceptedUnderALimit(s, end)
  {
    forall c | c in s.conns
      ensures LogSpans(s.conns, end)[c] == LimitedSpans(s.conns, end)[c]
    {
      assert TalliedAt(s, c, Some(since));
      NoUnlimited(s.conns[c].log, s.now, since, end);
    }
    SumOfEqual(LogSpans(s.conns, end), LimitedSpans(s.conns, end));
  }

  lemma NothingByTheClosed(s: State, end: int)
    requires forall c :: ClosedIn(s, c) ==> LimitedSpan(s.conns[c], end) == 0
    ensures ByTheClosed(s, end) == 0
  {
    forall c | c in ClosedSpans(s.conns, end)
      ensures ClosedSpans(s.conns, end)[c] == 0
    {
      assert ClosedIn(s, c);
    }
    SumConstantOn(ClosedSpans(s.conns, end), {}, 0);
  }

  lemma ReachedFurther(mid: State, start: Start, before: seq<Action>, more: seq<Action>)
    requires Reached(mid, start, before) && OrderlyRun(mid, more) && ValidRun(mid, more)
    ensures Reached(After(mid, more), start, before + more)
  {
    RunsJoin(Initial(start), before, more);
  }

  lemma {:induction false} RunsJoin(s: State, a: seq<Action>, b: seq<Action>)
    requires OrderlyRun(s, a) && ValidRun(s, a) && OrderlyRun(After(s, a), b) && ValidRun(After(s, a), b)
    ensures OrderlyRun(s, a + b) && ValidRun(s, a + b) && After(s, a + b) == After(After(s, a), b)
    decreases |a|
  {
    if |a| == 0 {
      assert a + b == b;
    } else {
      RunsJoin(Next(s, a[0]), a[1..], b);
      TailJoins(a, b);
    }
  }

  lemma TailJoins<T>(a: seq<T>, b: seq<T>)
    requires |a| > 0
    ensures (a + b)[0] == a[0] && (a + b)[1..] == a[1..] + b
  {
  }

  lemma AllSincePositive(mid: State, start: Start, before: seq<Action>, more: seq<Action>, b: nat)
    requires Reached(mid, start, before) && mid.bws.maxBw > 0
    requires OrderlyRun(mid, more) && LimitsUpTo(more, b)
    ensures ValidRun(mid, more) && Tallied(After(mid, more), Some(mid.now))
  {
    ReachedInv(mid, start, before);
    ReachedTallied(mid, start, before);
    SinceNow(mid);
    LimitedRunTallies(mid, more, mid.now);
  }

  /**
   The limit over all sockets, from any reachable state with a limit and a window of at most `b` bytes
   on, while the limit is not lifted and stays at most `b`. A second that ends then or later holds at most
   `b` bytes and what the connections closed since had sent in it under the limit; if none of them had,
   at most `b`. A second that lies wholly after then holds nothing else: every byte in it is counted.
   */
  lemma LimitOverAllSockets(mid: State, start: Start, before: seq<Action>, more: seq<Action>, b: nat, end: int)
    requires Reached(mid, start, before) && 0 < mid.bws.maxBw <= b && InWindow(mid) <= b
    requires OrderlyRun(mid, more) && LimitsUpTo(more, b) && mid.now <= end
    ensures ValidRun(mid, more)
    ensures var s := After(mid, more);
            && AcceptedUnderALimit(s, end) == InSecond(s.bws, end) + ByTheClosed(s, end)
            && InSecond(s.bws, end) <= b
            && ((forall c :: ClosedIn(s, c) ==> LimitedSpan(s.conns[c], end) == 0) ==> AcceptedUnderALimit(s, end) <= b)
            && (mid.now < end - 1000 * VALID_PERIOD ==> Accepted(s, end) == AcceptedUnderALimit(s, end))
  {
    RateBound(mid, start, before, more, b);
    var s := After(mid, more);
    ReachedFurther(mid, start, before, more);
    TrackedAndClosed(s, start, before + more, end);
    AllSincePositive(mid, start, before, more, b);
    if forall c :: ClosedIn(s, c) ==> LimitedSpan(s.conns[c], end) == 0 {
      NothingByTheClosed(s, end);
    }
    if mid.now < end - 1000 * VALID_PERIOD {
      NothingUnlimited(s, mid.now, end);
    }
  }
}
