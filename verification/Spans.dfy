/** The bytes on record in the second before any instant, past or present. */
module SpanProofs {
  import opened Bandwidth
  import opened BandwidthTheorems
  import opened Clock
  import opened Ids
  import opened MapSums

  predicate InSpan(t: Timeb, end: int)
  {
    end - 1000 * VALID_PERIOD <= Ms(t) <= end
  }

  /** Bytes of the records made in the second that ends at `end`. */
  function Span(rs: seq<BwRecord>, end: int): nat
  {
    if |rs| == 0 then 0 else Span(rs[..|rs| - 1], end) + if InSpan(rs[|rs| - 1].t, end) then rs[|rs| - 1].size else 0
  }

  function Spans(states: map<ConnId, BwState>, end: int): map<ConnId, nat>
  {
    map c | c in states :: Span(states[c].inserted, end)
  }

  /** Bytes recorded for all tracked connections in the second that ends at `end`. */
  ghost function InSecond(b: Bw, end: int): nat
  {
    Sum(Spans(b.states, end))
  }

  /** No second that ends at `from` or later holds more than `limit`. */
  ghost predicate Level(b: Bw, from: int, limit: nat)
  {
    forall end: int :: from <= end ==> InSecond(b, end) <= limit
  }

  lemma OneSpanMore(rs: seq<BwRecord>, r: BwRecord, end: int)
    ensures Span(rs + [r], end) == Span(rs, end) + if InSpan(r.t, end) then r.size else 0
  {
    assert (rs + [r])[..|rs|] == rs;
  }

  lemma SpanMoved(states: map<ConnId, BwState>, c: ConnId, st: BwState, end: int)
    ensures Spans(states[c := st], end) == Spans(states, end)[c := Span(st.inserted, end)]
  {
  }

  lemma OpenedSpans(b: Bw, c: ConnId, end: int)
    ensures InSecond(Opened(b, c), end) == InSecond(b, end)
  {
    if c !in b.states {
      SpanMoved(b.states, c, BwState([], true, 0, b.unset, []), end);
      SumUpdate(Spans(b.states, end), c, 0);
    }
  }

  /** A record counts in the seconds around it. */
  lemma InsertedSpans(b: Bw, c: ConnId, size: uint32, t: Timeb, end: int)
    requires b.maxBw > 0
    ensures InSecond(Inserted(b, c, size, t), end) == InSecond(b, end) + if InSpan(t, end) then size else 0
  {
    var b1, r := Opened(b, c), BwRecord(t, size);
    var st := b1.states[c];
    OpenedSpans(b, c, end);
    OneSpanMore(st.inserted, r, end);
    SpanMoved(b1.states, c, st.(records := st.records + [r], inserted := st.inserted + [r]), end);
    SumUpdate(Spans(b1.states, end), c, Span(st.inserted + [r], end));
  }

  lemma {:induction false} SpanWithinWindow(rs: seq<BwRecord>, now: Timeb, end: int)
    requires Ms(now) <= end
    ensures Span(rs, end) <= WindowSum(rs, now)
  {
    if |rs| > 0 {
      SpanWithinWindow(rs[..|rs| - 1], now, end);
      ExpiredIsOlderThanThePeriod(rs[|rs| - 1].t, now);
    }
  }

  lemma {:induction false} WindowIsSpan(rs: seq<BwRecord>, now: Timeb)
    requires forall i :: 0 <= i < |rs| ==> Ms(rs[i].t) <= Ms(now)
    ensures Span(rs, Ms(now)) == WindowSum(rs, now)
  {
    if |rs| > 0 {
      WindowIsSpan(rs[..|rs| - 1], now);
      ExpiredIsOlderThanThePeriod(rs[|rs| - 1].t, now);
    }
  }

  /** From now on, no second holds more than the window does now. */
  lemma LaterSeconds(b: Bw, now: Timeb, end: int)
    requires Ms(now) <= end
    ensures InSecond(b, end) <= Window(b, now)
  {
    forall c | c in b.states
      ensures Spans(b.states, end)[c] <= FullWindows(b.states, now)[c]
    {
      SpanWithinWindow(b.states[c].inserted, now, end);
    }
    SumSubsetLe(Spans(b.states, end), FullWindows(b.states, now));
  }

  /** The window is the second that ends now. */
  lemma WindowIsTheLastSecond(b: Bw, now: Timeb)
    requires AccountsOk(b, now)
    ensures InSecond(b, Ms(now)) == Window(b, now)
  {
    forall c | c in b.states
      ensures Spans(b.states, Ms(now))[c] == FullWindows(b.states, now)[c]
    {
      assert AccountOk(b.states[c], now);
      WindowIsSpan(b.states[c].inserted, now);
    }
    SumOfEqual(Spans(b.states, Ms(now)), FullWindows(b.states, now));
  }

  lemma SameHistorySpans(b: Bw, b': Bw)
    requires b'.states.Keys == b.states.Keys
    requires forall c :: c in b.states ==> b'.states[c].inserted == b.states[c].inserted
    ensures forall end: int :: InSecond(b', end) == InSecond(b, end)
  {
    forall end: int
      ensures InSecond(b', end) == InSecond(b, end)
    {
      SumOfEqual(Spans(b.states, end), Spans(b'.states, end));
    }
  }

  /** Erasing takes out of a second exactly what the erased account held in it. */
  lemma ErasedSpans(b: Bw, c: ConnId, end: int)
    ensures InSecond(b, end) == InSecond(Erased(b, c), end) + Span(KeptRecords(b, c), end)
  {
    if c in b.states {
      SumRemove(Spans(b.states, end), c);
      assert Spans(b.states, end) - {c} == Spans(b.states - {c}, end);
    }
  }

  /** A record made while the window has room for it keeps every second within the limit. */
  lemma InsertedLevel(b: Bw, c: ConnId, size: uint32, t: Timeb, from: int, limit: nat)
    requires Level(b, from, limit) && Window(b, t) + size <= limit && b.maxBw > 0
    ensures Level(Inserted(b, c, size, t), from, limit)
  {
    forall end: int | from <= end
      ensures InSecond(Inserted(b, c, size, t), end) <= limit
    {
      InsertedSpans(b, c, size, t, end);
      if InSpan(t, end) {
        LaterSeconds(b, t, end);
      }
    }
  }
}
