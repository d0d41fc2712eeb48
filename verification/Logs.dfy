/** Over every run, with whatever limits: what the sockets accepted under a limit is on record, in the account or among the erased ones. */
module LogProofs {
  import opened Bandwidth
  import opened BillingProofs
  import opened CallbackProtocol
  import opened ClientStepProofs
  import opened Clock
  import opened DeliveryProofs
  import opened DispatcherInvariant
  import opened DispatcherState
  import opened DispatcherSteps
  import opened EventStepProofs
  import opened FloatModel
  import opened Ids
  import opened SendStepProofs
  import opened ThreadStepProofs
  import opened TrackingProofs

  // ---------- the two histories of a connection ----------

  /** What a socket accepted under a limit, as the limiter should have it on record. */
  function Limited(log: seq<Taken>): seq<BwRecord>
  {
    if |log| == 0 then []
    else
      var init, last := Limited(log[..|log| - 1]), log[|log| - 1];
      if last.limited then init + [BwRecord(last.t, last.size)] else init
  }

  /** The records of bytes; establishing a connection makes an empty one. */
  function NonEmpty(rs: seq<BwRecord>): seq<BwRecord>
  {
    if |rs| == 0 then []
    else
      var init, last := NonEmpty(rs[..|rs| - 1]), rs[|rs| - 1];
      if last.size > 0 then init + [last] else init
  }

  /** All that was ever on record for a connection, erased or not. */
  function History(b: Bw, c: ConnId): seq<BwRecord>
  {
    GoneRecords(b, c) + KeptRecords(b, c)
  }

  function Sizes(log: seq<Taken>): nat
  {
    if |log| == 0 then 0 else Sizes(log[..|log| - 1]) + log[|log| - 1].size
  }

  /** Every entry is of the past, and made under a limit unless it was made by the time `since`. */
  predicate Dated(log: seq<Taken>, now: nat, since: Option<int>)
  {
    forall i :: 0 <= i < |log| ==> 0 <= Ms(log[i].t) <= now && (since.Some? ==> log[i].limited || Ms(log[i].t) <= since.value)
  }

  ghost predicate TalliedAt(s: State, c: ConnId, since: Option<int>)
  {
    && (c in s.conns ==>
          && Sizes(s.conns[c].log) == |s.conns[c].wire| && Dated(s.conns[c].log, s.now, since)
          && Limited(s.conns[c].log) == NonEmpty(History(s.bws, c)))
    && (c in s.bws.gone ==> ClosedIn(s, c))
    && (c in s.bws.states ==> c in s.conns)
  }

  /** Every log tells the wire, and every limited entry of it is on record. */
  ghost predicate Tallied(s: State, since: Option<int>)
  {
    forall c :: TalliedAt(s, c, since)
  }

  lemma OneTaken(log: seq<Taken>, x: Taken)
    ensures Limited(log + [x]) == if x.limited then Limited(log) + [BwRecord(x.t, x.size)] else Limited(log)
    ensures Sizes(log + [x]) == Sizes(log) + x.size
  {
    assert (log + [x])[..|log|] == log;
  }

  lemma OneRecord(rs: seq<BwRecord>, r: BwRecord)
    ensures NonEmpty(rs + [r]) == if r.size > 0 then NonEmpty(rs) + [r] else NonEmpty(rs)
  {
    assert (rs + [r])[..|rs|] == rs;
  }

  // ---------- what the limiter's operations do to the history ----------

  /** Nothing new on record for anybody, and nothing erased. */
  ghost predicate SameHistories(b: Bw, b': Bw)
  {
    b'.gone == b.gone && b'.states.Keys == b.states.Keys && forall c :: KeptRecords(b', c) == KeptRecords(b, c)
  }

  lemma SwitchedHistories(b: Bw, c: ConnId, active: bool)
    ensures SameHistories(b, Switched(b, c, active))
  {
  }

  lemma RecalculatedHistories(b: Bw, now: Timeb, fpu: Fpu)
    ensures SameHistories(b, Recalculated(b, now, fpu))
  {
    RecalculatedTracks(b, now, fpu);
    forall c
      ensures KeptRecords(Recalculated(b, now, fpu), c) == KeptRecords(b, c)
    {
      assert c in Recalculated(b, now, fpu).states.Keys <==> c in b.states.Keys;
    }
  }

  lemma InsertedHistory(b: Bw, c: ConnId, size: uint32, t: Timeb)
    ensures var b' := Inserted(b, c, size, t);
            && b'.gone == b.gone
            && History(b', c) == History(b, c) + (if b.maxBw > 0 then [BwRecord(t, size)] else [])
            && (forall d :: d != c ==> KeptRecords(b', d) == KeptRecords(b, d) && (d in b'.states <==> d in b.states))
  {
    var b' := Inserted(b, c, size, t);
    if b.maxBw > 0 {
      assert KeptRecords(b', c) == KeptRecords(b, c) + [BwRecord(t, size)];
    }
  }

  lemma ErasedHistory(b: Bw, c: ConnId)
    ensures History(Erased(b, c), c) == History(b, c) && c !in Erased(b, c).states
    ensures forall d :: d != c ==>
              && KeptRecords(Erased(b, c), d) == KeptRecords(b, d) && GoneRecords(Erased(b, c), d) == GoneRecords(b, d)
              && (d in Erased(b, c).states <==> d in b.states) && (d in Erased(b, c).gone <==> d in b.gone)
  {
  }

  lemma BilledHistory(b: Bw, c: ConnId, n: uint32, t: Timeb, off: bool)
    ensures var b' := Billed(b, c, n, t, off);
            && b'.gone == b.gone
            && History(b', c) == History(b, c) + (if n > 0 && b.maxBw > 0 then [BwRecord(t, n)] else [])
            && (forall d :: d != c ==> KeptRecords(b', d) == KeptRecords(b, d) && (d in b'.states <==> d in b.states))
  {
    var b1 := if n > 0 then Inserted(b, c, n, t) else b;
    InsertedHistory(b, c, n, t);
    SwitchedHistories(b1, c, false);
    assert History(Switched(b1, c, false), c) == History(b1, c);
    assert forall d :: d in Switched(b1, c, false).states.Keys <==> d in b1.states.Keys;
  }

  // ---------- steps that send nothing ----------

  /** Connection `c` has logged nothing and keeps its history. */
  ghost predicate SameLogAt(s: State, s': State, c: ConnId)
  {
    && (c in s.conns ==> c in s'.conns && s'.conns[c].log == s.conns[c].log && s'.conns[c].wire == s.conns[c].wire
                         && (ClosedIn(s, c) ==> ClosedIn(s', c)))
    && (c in s'.conns && c !in s.conns ==> s'.conns[c].log == [] && s'.conns[c].wire == [])
    && NonEmpty(History(s'.bws, c)) == NonEmpty(History(s.bws, c))
    && (c in s'.bws.gone ==> c in s.bws.gone || ClosedIn(s', c))
    && (c in s'.bws.states ==> c in s.bws.states || c in s'.conns)
  }

  lemma SameLogAtTallies(s: State, s': State, c: ConnId, since: Option<int>)
    requires TalliedAt(s, c, since) && SameLogAt(s, s', c) && s.now <= s'.now
    ensures TalliedAt(s', c, since)
  {
    if c !in s.conns {
      assert History(s.bws, c) == [];
    }
  }

  lemma SameLogsTally(s: State, s': State, since: Option<int>)
    requires Tallied(s, since) && s.now <= s'.now
    requires forall c :: SameLogAt(s, s', c)
    ensures Tallied(s', since)
  {
    forall c
      ensures TalliedAt(s', c, since)
    {
      assert TalliedAt(s, c, since);
      SameLogAtTallies(s, s', c, since);
    }
  }

  /** One connection changed or appeared. */
  lemma ConnTallies(s: State, s': State, c: ConnId, since: Option<int>)
    requires Tallied(s, since) && s'.now == s.now && s'.bws == s.bws
    requires c in s'.conns && s'.conns == s.conns[c := s'.conns[c]]
    requires c in s.conns ==> s'.conns[c].log == s.conns[c].log && s'.conns[c].wire == s.conns[c].wire
    requires c in s.conns ==> s.conns[c].cbs.state == CsClosed ==> s'.conns[c].cbs.state == CsClosed
    requires c !in s.conns ==> s'.conns[c].log == [] && s'.conns[c].wire == []
    ensures Tallied(s', since)
  {
    SameLogsTally(s, s', since);
  }

  /** No connection changed, and nothing came on record. */
  lemma RestTallies(s: State, s': State, since: Option<int>)
    requires Tallied(s, since) && s.now <= s'.now && s'.conns == s.conns && SameHistories(s.bws, s'.bws)
    ensures Tallied(s', since)
  {
    forall c
      ensures SameLogAt(s, s', c)
    {
      assert KeptRecords(s'.bws, c) == KeptRecords(s.bws, c);
      assert c in s'.bws.states.Keys <==> c in s.bws.states.Keys;
    }
    SameLogsTally(s, s', since);
  }

  /** One connection closes and its account is erased. */
  lemma ErasedTallies(s: State, s': State, c: ConnId, since: Option<int>)
    requires Tallied(s, since) && s'.now == s.now && s'.bws == Erased(s.bws, c) && c in s.conns
    requires c in s'.conns && s'.conns == s.conns[c := s'.conns[c]] && ClosedIn(s', c)
    requires s'.conns[c].log == s.conns[c].log && s'.conns[c].wire == s.conns[c].wire
    ensures Tallied(s', since)
  {
    ErasedHistory(s.bws, c);
    SameLogsTally(s, s', since);
  }

  /** One connection gets an empty record. */
  lemma EmptyRecordTallies(s: State, s': State, c: ConnId, since: Option<int>)
    requires Tallied(s, since) && s'.now == s.now && s'.bws == Inserted(s.bws, c, 0, OfMs(s.now))
    requires c in s'.conns && s'.conns == s.conns[c := s'.conns[c]]
    requires c in s.conns ==> s'.conns[c].log == s.conns[c].log && s'.conns[c].wire == s.conns[c].wire
    requires c in s.conns ==> s.conns[c].cbs.state == CsClosed ==> s'.conns[c].cbs.state == CsClosed
    requires c !in s.conns ==> s'.conns[c].log == [] && s'.conns[c].wire == []
    ensures Tallied(s', since)
  {
    EmptyRecord(s.bws, c, OfMs(s.now));
    SameLogsTally(s, s', since);
  }

  lemma EmptyRecord(b: Bw, c: ConnId, t: Timeb)
    ensures var b' := Inserted(b, c, 0, t);
            && b'.gone == b.gone
            && (forall d :: NonEmpty(History(b', d)) == NonEmpty(History(b, d)))
            && (forall d :: d in b'.states ==> d in b.states || d == c)
  {
    var b' := Inserted(b, c, 0, t);
    InsertedHistory(b, c, 0, t);
    OneRecord(History(b, c), BwRecord(t, 0));
    forall d
      ensures NonEmpty(History(b', d)) == NonEmpty(History(b, d))
    {
      if d == c && b.maxBw == 0 {
        assert History(b', d) == History(b, d);
      }
    }
  }

  // ---------- sending ----------

  /** What was sent on `c` is logged and, under a limit, on record. */
  lemma SentTallies(s: State, s': State, c: ConnId, n: uint32, t: Timeb, off: bool, since: Option<int>)
    requires Tallied(s, since) && (since.Some? ==> s.bws.maxBw > 0) && s.now <= s'.now && 0 <= Ms(t) <= s'.now
    requires c in s.conns && c in s'.conns && s'.conns == s.conns[c := s'.conns[c]] && s'.conns[c].cbs == s.conns[c].cbs
    requires s'.bws == Billed(s.bws, c, n, t, off)
    requires s'.conns[c].log == s.conns[c].log + if n > 0 then [Taken(t, n, s.bws.maxBw > 0)] else []
    requires |s'.conns[c].wire| == |s.conns[c].wire| + n
    ensures Tallied(s', since)
  {
    BilledHistory(s.bws, c, n, t, off);
    forall d
      ensures TalliedAt(s', d, since)
    {
      assert TalliedAt(s, d, since);
      if d == c {
        SentHere(s.conns[c], s'.conns[c], s.now, s'.now, Taken(t, n, s.bws.maxBw > 0), since);
        RecordedHere(History(s.bws, c), History(s'.bws, c), BwRecord(t, n), s.bws.maxBw > 0);
      } else {
        assert SameLogAt(s, s', d);
        SameLogAtTallies(s, s', d, since);
      }
    }
  }

  lemma SentHere(k: Conn, k': Conn, now: nat, now': nat, x: Taken, since: Option<int>)
    requires Sizes(k.log) == |k.wire| && Dated(k.log, now, since) && now <= now' && 0 <= Ms(x.t) <= now'
    requires since.Some? ==> x.limited
    requires k'.log == k.log + (if x.size > 0 then [x] else []) && |k'.wire| == |k.wire| + x.size
    ensures Sizes(k'.log) == |k'.wire| && Dated(k'.log, now', since)
    ensures Limited(k'.log) == Limited(k.log) + if x.size > 0 && x.limited then [BwRecord(x.t, x.size)] else []
  {
    OneTaken(k.log, x);
    if x.size == 0 {
      assert k'.log == k.log;
    }
  }

  lemma RecordedHere(h: seq<BwRecord>, h': seq<BwRecord>, r: BwRecord, limited: bool)
    requires h' == h + if r.size > 0 && limited then [r] else []
    ensures NonEmpty(h') == NonEmpty(h) + if r.size > 0 && limited then [r] else []
  {
    OneRecord(h, r);
    if r.size == 0 || !limited {
      assert h' == h;
    }
  }

  lemma SendTallies(s: State, r: ReqId, guess: Option<uint32>, w: World, since: Option<int>)
    requires Tallied(s, since) && (since.Some? ==> s.bws.maxBw > 0) && ReqKnown(s, r) && s.reqs[r].phase == Pending
    ensures Tallied(DoSend(s, r, guess, w).s, since)
  {
    var s', c, n := DoSend(s, r, guess, w).s, s.reqs[r].conn, Takes(s, r, guess, w);
    DoSendBill(s, r, guess, w);
    DoSendDelivery(s, r, guess, w);
    DoSendOutcome(s, r, guess, w);
    MsOfMs(s'.now);
    assert s.conns[c].log + [] == s.conns[c].log;
    SentTallies(s, s', c, n, OfMs(s'.now), FallsShort(s, r, guess, w), since);
  }

  lemma AttemptTallies(s: State, c: ConnId, i: nat, guess: Option<uint32>, w: World, since: Option<int>)
    requires Inv(s) && Tallied(s, since) && (since.Some? ==> s.bws.maxBw > 0) && Listed(s, c, i)
    ensures Tallied(Attempt(s, c, i, guess, w).s, since)
  {
    ListedPending(s, c, i);
    AttemptState(s, c, i, guess, w);
    SendTallies(s, s.outgoings[c][i], guess, w, since);
    ListsTally(DoSend(s, s.outgoings[c][i], guess, w).s, Attempt(s, c, i, guess, w).s, since);
  }

  lemma ListsTally(s: State, s': State, since: Option<int>)
    requires Tallied(s, since) && s'.conns == s.conns && s'.bws == s.bws && s'.now == s.now
    ensures Tallied(s', since)
  {
    forall c
      ensures TalliedAt(s', c, since)
    {
      assert TalliedAt(s, c, since);
    }
  }

  lemma {:induction false} SendListTallies(s: State, c: ConnId, i: nat, guess: Option<uint32>, w: World, since: Option<int>)
    requires Inv(s) && Tallied(s, since) && (since.Some? ==> s.bws.maxBw > 0)
    ensures Tallied(SendList(s, c, i, guess, w), since)
    decreases if c in s.outgoings then |s.outgoings[c]| - i else 0
  {
    if Listed(s, c, i) {
      var out := Attempt(s, c, i, guess, w);
      AttemptInv(s, c, i, guess, w);
      AttemptTallies(s, c, i, guess, w, since);
      DoSendBill(s, s.outgoings[c][i], guess, w);
      if !out.done {
        SendListTallies(out.s, c, i + 1, out.guess, w, since);
      }
    }
  }

  lemma {:induction false} SendAllTallies(s: State, order: seq<ConnId>, limited: bool, w: World, since: Option<int>)
    requires Inv(s) && Tallied(s, since) && (since.Some? ==> s.bws.maxBw > 0)
    ensures Tallied(SendAll(s, order, limited, w), since)
    decreases |order|
  {
    if |order| > 0 {
      var guess := GuessFor(s, order[0], limited);
      SendListInv(s, order[0], 0, guess, w);
      SendListTallies(s, order[0], 0, guess, w, since);
      SendListKeepsLimit(s, order[0], 0, guess, w);
      SendAllTallies(SendList(s, order[0], 0, guess, w), order[1..], limited, w, since);
    }
  }

  lemma LimitedTurnTallies(s: State, tour: Tour, fpu: Fpu, since: Option<int>)
    requires Inv(s) && Tallied(s, since) && (since.Some? ==> s.bws.maxBw > 0)
    ensures Tallied(LimitedTurn(s, tour, fpu), since)
  {
    if s.bws.maxBw == 0 {
      SendAllTallies(s, tour.order, true, tour.second, since);
    } else {
      var s' := s.(bws := Recalculated(s.bws, OfMs(s.now), fpu));
      RecalculatedHistories(s.bws, OfMs(s.now), fpu);
      RestTallies(s, s', since);
      RecalculatedInv(s, fpu);
      SendAllTallies(s', tour.order, true, tour.second, since);
    }
  }

  lemma IdleTallies(s: State, tour: Tour, fpu: Fpu, since: Option<int>)
    requires Inv(s) && Tallied(s, since) && (since.Some? ==> s.bws.maxBw > 0)
    ensures Tallied(Idle(s, tour, fpu), since)
  {
    if s.bws.maxBw == 0 {
      SendAllInv(s, tour.order, false, tour.first);
      SendAllTallies(s, tour.order, false, tour.first, since);
      SendAllKeepsLimit(s, tour.order, false, tour.first);
      LimitedTurnTallies(SendAll(s, tour.order, false, tour.first), tour, fpu, since);
    } else {
      LimitedTurnTallies(s, tour, fpu, since);
    }
  }

  // ---------- closing, messages, events, accepting ----------

  lemma ClosedLog(s: State, c: ConnId)
    requires c in s.conns
    ensures var k := CloseConnection(s, c).conns[c]; k == s.conns[c].(cbs := k.cbs, refs := k.refs, recv := k.recv)
  {
  }

  lemma ClosingTallies(s: State, c: ConnId, since: Option<int>)
    requires Tallied(s, since) && c in s.conns
    ensures Tallied(CloseConnection(s, c), since)
  {
    ClosedLog(s, c);
    if s.conns[c].cbs.state != CsClosed {
      ClosedShape(s, c);
      ClosingErases(s, c);
      ErasedTallies(s, CloseConnection(s, c), c, since);
    } else {
      assert CloseConnection(s, c) == s;
    }
  }

  lemma CloseMessageTallies(s: State, c: ConnId, m: Msg, since: Option<int>)
    requires Tallied(s, since) && c in s.conns && Closes(m, c)
    ensures Tallied(Handle(s, m), since)
  {
    ClosedShape(s, c);
    ClosingTallies(s, c, since);
    AfterClosing(CloseConnection(s, c), c, m, Handle(s, m));
    ConnTallies(CloseConnection(s, c), Handle(s, m), c, since);
  }

  lemma RequestMessageTallies(s: State, m: Msg, since: Option<int>)
    requires Tallied(s, since) && (m.SendRequest? || m.BreakSend?) && ReqKnown(s, m.r)
    ensures Tallied(Handle(s, m), since)
  {
    if m.BreakSend? {
      UnrefShape2(s, Handle(s, m), m.r, s.reqs[m.r].Reported(false).(broken := true));
      ConnTallies(s, Handle(s, m), s.reqs[m.r].conn, since);
    } else {
      EnlistedShape(s, m.r);
      EnlistedKeepsBooks(s, m.r);
      ConnTallies(s, Handle(s, m), s.reqs[m.r].conn, since);
    }
  }

  lemma EnlistedKeepsBooks(s: State, r: ReqId)
    requires ReqKnown(s, r)
    ensures Enlisted(s, r).bws == s.bws && Enlisted(s, r).now == s.now
  {
  }

  lemma PopMessageTallies(s: State, since: Option<int>)
    requires Inv(s) && Tallied(s, since) && |s.queue| > 0 && Known(s, s.queue[0])
    requires s.queue[0].SendRequest? || s.queue[0].BreakSend? ==> ReqKnown(s, s.queue[0].r)
    ensures Tallied(PopMessage(s), since)
  {
    var s0, m := s.(queue := s.queue[1..]), s.queue[0];
    ListsTally(s, s0, since);
    match m
    case StopAccepting => ListsTally(s0, PopMessage(s), since);
    case Create(c) => ConnTallies(s0, PopMessage(s), c, since);
    case Close(c) => CloseMessageTallies(s0, c, m, since);
    case CloseWait(c) => CloseMessageTallies(s0, c, m, since);
    case SendRequest(r) => RequestMessageTallies(s0, m, since);
    case BreakSend(r) => RequestMessageTallies(s0, m, since);
  }

  lemma EstablishedTallies(s: State, c: ConnId, since: Option<int>)
    requires Tallied(s, since) && c in s.conns && s.conns[c].cbs.state != CsClosed && s.conns[c].cbs.connected
    ensures Tallied(ConnectionEstablished(s, c), since)
  {
    EmptyRecordTallies(s, ConnectionEstablished(s, c), c, since);
  }

  lemma WriteTallies(s: State, c: ConnId, w: World, since: Option<int>)
    requires Inv(s) && Tallied(s, since) && (since.Some? ==> s.bws.maxBw > 0)
    requires c in s.conns && s.conns[c].cbs.state != CsClosed
    ensures Tallied(WriteEvent(s, c, w), since)
  {
    WriteEventCases(s, c, w);
    if s.conns[c].cbs.connected {
      EstablishedTallies(s, c, since);
    } else {
      var s1 := s.(bws := Switched(s.bws, c, true));
      SwitchedHistories(s.bws, c, true);
      RestTallies(s, s1, since);
      BystanderInv(s, s1);
      SendListTallies(s1, c, 0, None, w, since);
    }
  }

  lemma ReadTallies(s: State, c: ConnId, res: RecvResult, since: Option<int>)
    requires Tallied(s, since) && c in s.conns
    ensures Tallied(RecvEvent(s, c, res), since)
  {
    var (cbs, open) := DoRecv(s.conns[c].cbs, res);
    var s' := WithConn(s, c, s.conns[c].(cbs := cbs));
    ConnTallies(s, s', c, since);
    if !open {
      ClosingTallies(s', c, since);
    }
  }

  lemma EventTallies(s: State, e: NetEvent, since: Option<int>)
    requires Inv(s) && Tallied(s, since) && (since.Some? ==> s.bws.maxBw > 0)
    requires e.c in s.conns && s.conns[e.c].cbs.state != CsClosed
    ensures Tallied(Event(s, e), since)
  {
    var s0 := Delivered(s, e.c, e.write);
    DeliveredInv(s, e.c, e.write);
    if e.write {
      ConnTallies(s, s0, e.c, since);
    }
    if e.close {
      ClosingTallies(s0, e.c, since);
    } else {
      var s1 := if e.write then WriteEvent(s0, e.c, e.w) else s0;
      if e.write {
        WriteTallies(s0, e.c, e.w, since);
      }
      ReadTallies(s1, e.c, e.res, since);
    }
  }

  lemma AcceptTallies(s: State, n: Newcomer, since: Option<int>)
    requires Tallied(s, since) && n.c !in s.conns
    ensures Tallied(AcceptConnection(s, n), since)
  {
    if s.accepted {
      EmptyRecordTallies(s, AcceptConnection(s, n), n.c, since);
    }
  }

  lemma {:induction false} AcceptAllTallies(s: State, news: seq<Newcomer>, since: Option<int>)
    requires Inv(s) && Tallied(s, since) && FreshNewcomers(s, news)
    ensures Tallied(AcceptAll(s, news), since)
  {
    if |news| > 0 {
      var init, last := news[..|news| - 1], news[|news| - 1];
      AcceptAllTallies(s, init, since);
      AcceptAllInv(s, init);
      assert last.c !in AcceptAll(s, init).conns;
      AcceptTallies(AcceptAll(s, init), last, since);
    }
  }

  // ---------- every step and every run ----------

  lemma HolderTallies(s: State, a: Action, since: Option<int>)
    requires Tallied(s, since) && Enabled(s, a)
    requires a.ClientResumes? || a.ClientAddrefs? || a.ClientReleases? || a.ClientCloses? || a.ClientClosesAndWaits?
          || a.RoomGrows? || a.SocketBreaks? || a.ClientSends? || a.ClientMakes? || a.ClientConnects?
    ensures Tallied(Next(s, a), since)
  {
    ConnTallies(s, Next(s, a), a.c, since);
  }

  lemma DialTallies(s: State, c: ConnId, read: bool, ok: bool, since: Option<int>)
    requires Inv(s) && Tallied(s, since) && c in s.conns && !s.conns[c].dialled
    ensures Tallied(Dial(s, c, read, ok), since)
  {
    assert ConnOk(s, c);
    ConnTallies(s, Dial(s, c, read, ok), c, since);
  }

  lemma BystanderTallies(s: State, a: Action, since: Option<int>)
    requires Tallied(s, since) && Enabled(s, a)
    requires a.ClientReleasesReq? || a.ClientBreaks? || a.ClientCounts? || a.ClientStopsAccepting? || a.ClientSetsLimit?
          || a.TimePasses?
    ensures Tallied(Next(s, a), since)
  {
    if a.ClientReleasesReq? {
      UnrefShape2(s, Next(s, a), a.r, s.reqs[a.r].(clientRef := false));
      ConnTallies(s, Next(s, a), s.reqs[a.r].conn, since);
    } else {
      RestTallies(s, Next(s, a), since);
    }
  }

  lemma ClientTallies(s: State, a: Action, since: Option<int>)
    requires Inv(s) && Tallied(s, since) && Enabled(s, a)
    requires !a.HandlesMessage? && !a.HandlesEvent? && !a.HandlesListener? && !a.Idles?
    ensures Tallied(Next(s, a), since)
  {
    if a.ClientDials? {
      DialTallies(s, a.c, a.read, a.ok, since);
    } else if a.ClientReleasesReq? || a.ClientBreaks? || a.ClientCounts? || a.ClientStopsAccepting? || a.ClientSetsLimit?
           || a.TimePasses? {
      BystanderTallies(s, a, since);
    } else {
      HolderTallies(s, a, since);
    }
  }

  lemma MessageTallies(s: State, since: Option<int>)
    requires Inv(s) && Tallied(s, since) && Enabled(s, HandlesMessage)
    ensures Tallied(Next(s, HandlesMessage), since)
  {
    NextMessageKnown(s);
    PopMessageTallies(s, since);
  }

  lemma StepTallies(s: State, a: Action, since: Option<int>)
    requires Inv(s) && Tallied(s, since) && Enabled(s, a) && (since.Some? ==> s.bws.maxBw > 0)
    ensures Tallied(Next(s, a), since)
  {
    if a.HandlesMessage? {
      MessageTallies(s, since);
    } else if a.HandlesEvent? || a.HandlesListener? || a.Idles? {
      ThreadTallies(s, a, since);
    } else {
      ClientTallies(s, a, since);
    }
  }

  lemma ThreadTallies(s: State, a: Action, since: Option<int>)
    requires Inv(s) && Tallied(s, since) && Enabled(s, a) && (since.Some? ==> s.bws.maxBw > 0)
    requires a.HandlesEvent? || a.HandlesListener? || a.Idles?
    ensures Tallied(Next(s, a), since)
  {
    match a
    case HandlesEvent(e) => EventTallies(s, e, since);
    case HandlesListener(news) => AcceptAllTallies(s, news, since);
    case Idles(tour, fpu) => IdleTallies(s, tour, fpu, since);
  }

  lemma {:induction false} RunTallies(s: State, run: seq<Action>)
    requires Inv(s) && Tallied(s, None) && OrderlyRun(s, run)
    ensures ValidRun(s, run) && Tallied(After(s, run), None)
    decreases |run|
  {
    if |run| > 0 {
      StepInv(s, run[0]);
      StepTallies(s, run[0], None);
      RunTallies(Next(s, run[0]), run[1..]);
    }
  }

  /** From a state with a limit on, in a run that never lifts it, every entry made is a limited one. */
  lemma {:induction false} LimitedRunTallies(s: State, run: seq<Action>, since: int)
    requires Inv(s) && Tallied(s, Some(since)) && s.bws.maxBw > 0 && OrderlyRun(s, run) && NeverLifted(run)
    ensures ValidRun(s, run) && Tallied(After(s, run), Some(since))
    decreases |run|
  {
    if |run| > 0 {
      StepInv(s, run[0]);
      StepTallies(s, run[0], Some(since));
      StepKeepsLimit(s, run[0]);
      LimitedRunTallies(Next(s, run[0]), run[1..], since);
    }
  }

  lemma InitialTallied(start: Start)
    ensures Tallied(Initial(start), None)
  {
  }

  /**
   In every reachable state, whatever limits were set: the log of every connection tells how its wire
   grew; what it accepted under a limit is record by record what the limiter ever had on record for it;
   and only accounts of closed connections have been erased.
   */
  lemma ReachedTallied(s: State, start: Start, run: seq<Action>)
    requires Reached(s, start, run)
    ensures Tallied(s, None)
  {
    InitialInv(start.total, start.unset, start.now);
    InitialTallied(start);
    RunTallies(Initial(start), run);
  }

  lemma SinceNow(s: State)
    requires Tallied(s, None)
    ensures Tallied(s, Some(s.now))
  {
    forall c
      ensures TalliedAt(s, c, Some(s.now))
    {
      assert TalliedAt(s, c, None);
    }
  }
}
