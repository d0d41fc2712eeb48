/** What every operation on the limiter does to the bytes it has on record. */
module LedgerProofs {
  import opened Bandwidth
  import opened BandwidthTheorems
  import opened BillingProofs
  import opened Clock
  import opened FloatModel
  import opened Ids
  import opened MapSums
  import opened SpanProofs

  // ---------- records ----------

  function Total(rs: seq<BwRecord>): nat
  {
    if |rs| == 0 then 0 else Total(rs[..|rs| - 1]) + rs[|rs| - 1].size
  }

  /** All bytes recorded for a connection since tracking began. */
  function Recorded(b: Bw, c: ConnId): nat
  {
    if c in b.states then Total(b.states[c].inserted) else 0
  }

  /** The same accounts or fewer, with nothing new in their windows nor in any second. */
  ghost predicate NoMore(b: Bw, t: Timeb, b': Bw, t': Timeb)
  {
    && AccountsOk(b', t') && Window(b', t') <= Window(b, t)
    && forall end: int :: InSecond(b', end) <= InSecond(b, end)
  }

  lemma LaterNoMore(b: Bw, t: Timeb, t': Timeb)
    requires AccountsOk(b, t) && Ms(t) <= Ms(t')
    ensures NoMore(b, t, b, t')
  {
    forall c | c in b.states
      ensures AccountOk(b.states[c], t')
    {
      TimePassesOverTheAccount(b.states[c], t, t');
    }
    WindowShrinks(b, t, t');
  }

  /** Another limit, at a later time. */
  lemma OnlyTheLimit(b: Bw, b': Bw, t: Timeb, t': Timeb)
    requires AccountsOk(b, t) && Ms(t) <= Ms(t') && b' == b.(maxBw := b'.maxBw)
    ensures NoMore(b, t, b', t')
  {
    LaterNoMore(b', t, t');
    assert Window(b', t) == Window(b, t);
    forall end: int
      ensures InSecond(b', end) == InSecond(b, end)
    {
      assert Spans(b'.states, end) == Spans(b.states, end);
    }
  }

  /** Accounts whose history did not change keep their window. */
  lemma SameHistoryNoMore(b: Bw, b': Bw, t: Timeb)
    requires AccountsOk(b', t)
    requires b'.states.Keys == b.states.Keys
    requires forall c :: c in b.states ==> b'.states[c].inserted == b.states[c].inserted
    ensures NoMore(b, t, b', t)
  {
    var before, after := FullWindows(b.states, t), FullWindows(b'.states, t);
    SumOfEqual(before, after);
    SameHistorySpans(b, b');
  }

  lemma SwitchedAccount(b: Bw, c: ConnId, active: bool, d: ConnId)
    ensures d in Switched(b, c, active).states <==> d in b.states
    ensures d in b.states ==> Switched(b, c, active).states[d] == b.states[d].(active := Switched(b, c, active).states[d].active)
  {
  }

  lemma SwitchedNoMore(b: Bw, c: ConnId, active: bool, t: Timeb)
    requires AccountsOk(b, t)
    ensures NoMore(b, t, Switched(b, c, active), t)
    ensures forall d :: Recorded(Switched(b, c, active), d) == Recorded(b, d)
  {
    var b' := Switched(b, c, active);
    forall d
      ensures d in b'.states.Keys <==> d in b.states.Keys
      ensures d in b.states.Keys ==> AccountOk(b'.states[d], t) && b'.states[d].inserted == b.states[d].inserted
    {
      SwitchedAccount(b, c, active, d);
      if d in b.states {
        OnlyActivity(b.states[d], b'.states[d], t);
      }
    }
    SameLedger(b, b', t);
  }

  lemma OnlyActivity(st: BwState, st': BwState, t: Timeb)
    requires AccountOk(st, t) && st' == st.(active := st'.active)
    ensures AccountOk(st', t)
  {
  }

  lemma SameLedger(b: Bw, b': Bw, t: Timeb)
    requires forall c :: c in b'.states.Keys <==> c in b.states.Keys
    requires forall c :: c in b.states.Keys ==> AccountOk(b'.states[c], t) && b'.states[c].inserted == b.states[c].inserted
    ensures NoMore(b, t, b', t)
    ensures forall d :: Recorded(b', d) == Recorded(b, d)
  {
    assert b'.states.Keys == b.states.Keys;
    SameHistoryNoMore(b, b', t);
  }

  /** Erasing takes its own account out of the window and out of every second, and nothing else. */
  lemma ErasedLedger(b: Bw, c: ConnId, t: Timeb)
    ensures Window(b, t) == Window(Erased(b, c), t) + WindowSum(KeptRecords(b, c), t)
    ensures forall end: int :: InSecond(b, end) == InSecond(Erased(b, c), end) + Span(KeptRecords(b, c), end)
    ensures forall d :: d != c ==> Recorded(Erased(b, c), d) == Recorded(b, d)
  {
    ErasedWindow(b, c, t);
    ErasedSeconds(b, c);
    ErasedOthers(b, c);
  }

  lemma ErasedOthers(b: Bw, c: ConnId)
    ensures forall d :: d != c ==> Recorded(Erased(b, c), d) == Recorded(b, d)
  {
  }

  lemma ErasedAccounts(b: Bw, c: ConnId, t: Timeb)
    requires AccountsOk(b, t)
    ensures AccountsOk(Erased(b, c), t)
  {
  }

  lemma ErasedSeconds(b: Bw, c: ConnId)
    ensures forall end: int :: InSecond(b, end) == InSecond(Erased(b, c), end) + Span(KeptRecords(b, c), end)
  {
    forall end: int
      ensures InSecond(b, end) == InSecond(Erased(b, c), end) + Span(KeptRecords(b, c), end)
    {
      ErasedSpans(b, c, end);
    }
  }

  lemma ErasedWindow(b: Bw, c: ConnId, t: Timeb)
    ensures Window(b, t) == Window(Erased(b, c), t) + WindowSum(KeptRecords(b, c), t)
  {
    if c in b.states {
      SumRemove(FullWindows(b.states, t), c);
      assert FullWindows(b.states, t) - {c} == FullWindows(b.states - {c}, t);
    }
  }

  lemma ErasedNoMore(b: Bw, c: ConnId, t: Timeb)
    requires AccountsOk(b, t)
    ensures NoMore(b, t, Erased(b, c), t)
    ensures forall d :: d != c ==> Recorded(Erased(b, c), d) == Recorded(b, d)
  {
    ErasedAccounts(b, c, t);
    ErasedLedger(b, c, t);
    forall end: int
      ensures InSecond(Erased(b, c), end) <= InSecond(b, end)
    {
      assert InSecond(b, end) == InSecond(Erased(b, c), end) + Span(KeptRecords(b, c), end);
    }
  }

  lemma RecalculatedAccount(b: Bw, t: Timeb, fpu: Fpu, c: ConnId)
    requires c in b.states && AccountOk(b.states[c], t)
    ensures c in Recalculated(b, t, fpu).states
    ensures AccountOk(Recalculated(b, t, fpu).states[c], t)
    ensures Recalculated(b, t, fpu).states[c].inserted == b.states[c].inserted
  {
    CountedKeepsTheAccount(b.states[c], t);
    RecalculatedState(b, t, fpu, c);
    OnlyTheGuess(Counted(b.states[c], t), Recalculated(b, t, fpu).states[c], t);
  }

  lemma RecalculatedState(b: Bw, t: Timeb, fpu: Fpu, c: ConnId)
    requires c in b.states
    ensures var states := Recalculated(b, t, fpu).states;
            c in states && states[c] == Counted(b.states[c], t).(guess := states[c].guess)
  {
  }

  lemma OnlyTheGuess(st: BwState, st': BwState, t: Timeb)
    requires AccountOk(st, t) && st' == st.(guess := st'.guess)
    ensures AccountOk(st', t)
  {
  }

  lemma RecalculatedKeys(b: Bw, t: Timeb, fpu: Fpu)
    ensures Recalculated(b, t, fpu).states.Keys == b.states.Keys
  {
  }

  lemma RecalculatedNoMore(b: Bw, t: Timeb, fpu: Fpu)
    requires AccountsOk(b, t)
    ensures NoMore(b, t, Recalculated(b, t, fpu), t)
    ensures forall d :: Recorded(Recalculated(b, t, fpu), d) == Recorded(b, d)
  {
    var b' := Recalculated(b, t, fpu);
    RecalculatedKeys(b, t, fpu);
    forall c | c in b.states.Keys
      ensures c in b'.states && AccountOk(b'.states[c], t)
      ensures b'.states[c].inserted == b.states[c].inserted
    {
      RecalculatedAccount(b, t, fpu, c);
    }
    SameLedger(b, b', t);
  }

  // ---------- inserting ----------

  lemma OneRecordMore(rs: seq<BwRecord>, r: BwRecord, t: Timeb)
    ensures WindowSum(rs + [r], t) == WindowSum(rs, t) + Weight(r, t)
    ensures Total(rs + [r]) == Total(rs) + r.size
  {
    assert (rs + [r])[..|rs|] == rs;
  }

  lemma InsertedAccount(st: BwState, size: uint32, t: Timeb)
    requires AccountOk(st, t)
    ensures var r := BwRecord(t, size);
            AccountOk(st.(records := st.records + [r], inserted := st.inserted + [r]), t)
  {
    var r := BwRecord(t, size);
    var dropped := |st.inserted| - |st.records|;
    assert (st.inserted + [r])[dropped..] == st.inserted[dropped..] + [r];
  }

  lemma OpenedLedger(b: Bw, c: ConnId, t: Timeb)
    requires AccountsOk(b, t)
    ensures AccountsOk(Opened(b, c), t)
    ensures Window(Opened(b, c), t) == Window(b, t)
    ensures forall d :: Recorded(Opened(b, c), d) == Recorded(b, d)
  {
    if c !in b.states {
      var st := BwState([], true, 0, b.unset, []);
      OpenedState(b, c, st);
      OneAccountOk(b, c, st, t);
      EmptyAccountMoved(b, c, st, t);
    }
  }

  lemma EmptyAccountMoved(b: Bw, c: ConnId, st: BwState, t: Timeb)
    requires c !in b.states && st.inserted == []
    ensures Window(b.(states := b.states[c := st]), t) == Window(b, t)
  {
    OneWindowMoved(b.states, c, st, t);
    SumUpdate(FullWindows(b.states, t), c, 0);
  }

  lemma OpenedState(b: Bw, c: ConnId, st: BwState)
    requires c !in b.states && st == BwState([], true, 0, b.unset, [])
    ensures Opened(b, c) == b.(states := b.states[c := st])
    ensures forall d :: Recorded(Opened(b, c), d) == Recorded(b, d)
  {
  }

  /** An inserted record is in the account and in the window, byte for byte. */
  lemma InsertedLedger(b: Bw, c: ConnId, size: uint32, t: Timeb)
    requires AccountsOk(b, t) && b.maxBw > 0
    ensures AccountsOk(Inserted(b, c, size, t), t)
    ensures Window(Inserted(b, c, size, t), t) == Window(b, t) + size
    ensures Recorded(Inserted(b, c, size, t), c) == Recorded(b, c) + size
    ensures forall d :: d != c ==> Recorded(Inserted(b, c, size, t), d) == Recorded(b, d)
  {
    OpenedLedger(b, c, t);
    InsertedOpen(Opened(b, c), c, size, t);
  }

  lemma InsertedOpen(b: Bw, c: ConnId, size: uint32, t: Timeb)
    requires AccountsOk(b, t) && c in b.states && b.maxBw > 0
    ensures AccountsOk(Inserted(b, c, size, t), t)
    ensures Window(Inserted(b, c, size, t), t) == Window(b, t) + size
    ensures Recorded(Inserted(b, c, size, t), c) == Recorded(b, c) + size
    ensures forall d :: d != c ==> Recorded(Inserted(b, c, size, t), d) == Recorded(b, d)
  {
    var st, r := b.states[c], BwRecord(t, size);
    var st' := st.(records := st.records + [r], inserted := st.inserted + [r]);
    InsertedState(b, c, size, t, st');
    OneRecordMore(st.inserted, r, t);
    InsertedAccount(st, size, t);
    FreshWeight(size, t);
    OneAccount(b, c, st', t, size);
  }

  lemma FreshWeight(size: uint32, t: Timeb)
    ensures Weight(BwRecord(t, size), t) == size
  {
    ExpiredIsOlderThanThePeriod(t, t);
  }

  lemma InsertedState(b: Bw, c: ConnId, size: uint32, t: Timeb, st: BwState)
    requires c in b.states && b.maxBw > 0
    requires st == b.states[c].(records := b.states[c].records + [BwRecord(t, size)],
                                inserted := b.states[c].inserted + [BwRecord(t, size)])
    ensures Inserted(b, c, size, t) == b.(states := b.states[c := st])
  {
  }

  /** One account replaced by one whose window holds `more` bytes more. */
  lemma OneAccount(b: Bw, c: ConnId, st: BwState, t: Timeb, more: nat)
    requires AccountsOk(b, t) && c in b.states && AccountOk(st, t)
    requires WindowSum(st.inserted, t) == WindowSum(b.states[c].inserted, t) + more
    ensures AccountsOk(b.(states := b.states[c := st]), t)
    ensures Window(b.(states := b.states[c := st]), t) == Window(b, t) + more
  {
    OneAccountOk(b, c, st, t);
    OneWindowMoved(b.states, c, st, t);
    SumUpdate(FullWindows(b.states, t), c, WindowSum(st.inserted, t));
  }

  lemma OneAccountOk(b: Bw, c: ConnId, st: BwState, t: Timeb)
    requires AccountsOk(b, t) && AccountOk(st, t)
    ensures AccountsOk(b.(states := b.states[c := st]), t)
  {
  }

  lemma OneWindowMoved(states: map<ConnId, BwState>, c: ConnId, st: BwState, t: Timeb)
    ensures FullWindows(states[c := st], t) == FullWindows(states, t)[c := WindowSum(st.inserted, t)]
  {
  }

  lemma InsertedWithoutLimit(b: Bw, c: ConnId, size: uint32, t: Timeb)
    requires b.maxBw == 0
    ensures Inserted(b, c, size, t) == b
  {
  }

  lemma EmptyInsertNoMore(b: Bw, c: ConnId, t: Timeb)
    requires AccountsOk(b, t)
    ensures NoMore(b, t, Inserted(b, c, 0, t), t)
  {
    if b.maxBw == 0 {
      InsertedWithoutLimit(b, c, 0, t);
    } else {
      InsertedLedger(b, c, 0, t);
      forall end: int
        ensures InSecond(Inserted(b, c, 0, t), end) <= InSecond(b, end)
      {
        InsertedSpans(b, c, 0, t, end);
      }
    }
  }

  lemma EmptyInsertRecords(b: Bw, c: ConnId, t: Timeb)
    requires AccountsOk(b, t)
    ensures forall d :: Recorded(Inserted(b, c, 0, t), d) == Recorded(b, d)
  {
    if b.maxBw == 0 {
      InsertedWithoutLimit(b, c, 0, t);
    } else {
      InsertedLedger(b, c, 0, t);
    }
  }

  // ---------- billing ----------

  /** The bytes of one `send`, with the clock moving on before it. */
  lemma BilledLedger(b: Bw, c: ConnId, n: uint32, t: Timeb, t': Timeb, off: bool)
    requires AccountsOk(b, t) && Ms(t) <= Ms(t')
    ensures var b' := Billed(b, c, n, t', off);
            && AccountsOk(b', t')
            && Window(b', t') <= Window(b, t) + n
            && (b.maxBw > 0 ==> Recorded(b', c) == Recorded(b, c) + n)
            && (forall d :: d != c ==> Recorded(b', d) == Recorded(b, d))
            && b'.maxBw == b.maxBw
  {
    LaterNoMore(b, t, t');
    var b1 := if n > 0 then Inserted(b, c, n, t') else b;
    RecordedLedger(b, c, n, t');
    SwitchedNoMore(b1, c, false, t');
  }

  lemma RecordedLedger(b: Bw, c: ConnId, n: uint32, t: Timeb)
    requires AccountsOk(b, t)
    ensures var b1 := if n > 0 then Inserted(b, c, n, t) else b;
            && AccountsOk(b1, t) && b1.maxBw == b.maxBw
            && Window(b1, t) <= Window(b, t) + n
            && (b.maxBw > 0 ==> Recorded(b1, c) == Recorded(b, c) + n)
            && (forall d :: d != c ==> Recorded(b1, d) == Recorded(b, d))
  {
    if n > 0 && b.maxBw > 0 {
      InsertedLedger(b, c, n, t);
    }
  }

  /** Bytes that fit the window keep every second within the limit. */
  lemma BilledLevel(b: Bw, c: ConnId, n: uint32, t: Timeb, t': Timeb, off: bool, from: int, limit: nat)
    requires AccountsOk(b, t) && Ms(t) <= Ms(t') && b.maxBw > 0
    requires Level(b, from, limit) && Window(b, t) + n <= limit
    ensures Level(Billed(b, c, n, t', off), from, limit)
  {
    LaterNoMore(b, t, t');
    var b1 := if n > 0 then Inserted(b, c, n, t') else b;
    if n > 0 {
      InsertedLedger(b, c, n, t');
      InsertedLevel(b, c, n, t', from, limit);
    }
    SwitchedNoMore(b1, c, false, t');
    NoMoreLevel(b1, t', Switched(b1, c, false), t', from, limit);
  }

  lemma NoMoreLevel(b: Bw, t: Timeb, b': Bw, t': Timeb, from: int, limit: nat)
    requires NoMore(b, t, b', t') && Level(b, from, limit)
    ensures Level(b', from, limit)
  {
    forall end: int | from <= end
      ensures InSecond(b', end) <= limit
    {
      assert InSecond(b', end) <= InSecond(b, end) <= limit;
    }
  }

  /** Only the account of `c` moved, and no guess. */
  lemma BilledGuesses(b: Bw, c: ConnId, n: uint32, t: Timeb, off: bool)
    ensures var b' := Billed(b, c, n, t, off);
            && (forall d :: d != c ==> Guess(b', d) == Guess(b, d))
            && (forall d :: d != c ==> (d in b'.states <==> d in b.states))
  {
  }

  // ---------- budgets of a walk ----------

  /** The guesses of the connections still to be visited. */
  function GuessesOf(states: map<ConnId, BwState>, todo: set<ConnId>): map<ConnId, nat>
  {
    map c | c in states && c in todo :: states[c].guess
  }

  ghost function Budget(b: Bw, todo: set<ConnId>): nat
  {
    Sum(GuessesOf(b.states, todo))
  }

  lemma WholeBudget(b: Bw, todo: set<ConnId>)
    ensures Budget(b, todo) <= Sum(Guesses(b.states))
  {
    SumSubsetLe(GuessesOf(b.states, todo), Guesses(b.states));
  }

  /** Visiting one connection spends at most its own guess of the budget. */
  lemma BudgetVisits(b: Bw, b': Bw, c: ConnId, todo: set<ConnId>)
    requires c in todo
    requires forall d :: d != c ==> Guess(b', d) == Guess(b, d) && (d in b'.states <==> d in b.states)
    ensures Budget(b', todo - {c}) + Guess(b, c) == Budget(b, todo)
  {
    var before, after := GuessesOf(b.states, todo), GuessesOf(b'.states, todo - {c});
    forall d | d in after
      ensures d in before && after[d] == before[d]
    {
      assert Guess(b', d) == Guess(b, d);
    }
    forall d | d in before && d != c
      ensures d in after
    {
      assert d in b'.states <==> d in b.states;
    }
    assert after == before - {c};
    if c in b.states {
      SumRemove(before, c);
    } else {
      assert before - {c} == before;
    }
  }
}
