/** The limit bounds what goes out in any second, over all runs. */
module RateBoundProofs {
  import opened Bandwidth
  import opened BandwidthTheorems
  import opened BillingProofs
  import opened CalmStepProofs
  import opened ClientStepProofs
  import opened Clock
  import opened DeliveryProofs
  import opened DispatcherInvariant
  import opened DispatcherState
  import opened DispatcherSteps
  import opened FloatModel
  import opened Ids
  import opened LedgerProofs
  import opened SendStepProofs
  import opened SpanProofs

  // ---------- what a walk spends ----------

  /** Every byte that went out on `d` is on record. */
  ghost predicate PaidAt(s: State, s': State, d: ConnId)
  {
    && (d in s'.conns <==> d in s.conns)
    && (d in s.conns ==> s'.conns[d].cbs == s.conns[d].cbs
                         && |s'.conns[d].wire| - |s.conns[d].wire| == Recorded(s'.bws, d) - Recorded(s.bws, d))
    && (d in s'.bws.states ==> d in s.bws.states || d in s'.conns)
  }

  ghost predicate Paid(s: State, s': State)
  {
    forall d :: PaidAt(s, s', d)
  }

  /** At most `budget` more bytes are in the window. */
  ghost predicate Spent(s: State, s': State, budget: nat)
  {
    && BankOk(s') && InWindow(s') <= InWindow(s) + budget
    && s.now <= s'.now && s'.bws.maxBw == s.bws.maxBw
  }

  /** The guesses of all connections but `c` are as they were. */
  ghost predicate OthersGuesses(b: Bw, b': Bw, c: ConnId)
  {
    forall d :: d != c ==> Guess(b', d) == Guess(b, d) && (d in b'.states <==> d in b.states)
  }

  lemma SpentTransitive(a: State, b: State, c: State, m: nat, n: nat)
    requires Spent(a, b, m) && Spent(b, c, n)
    ensures Spent(a, c, m + n)
  {
  }

  lemma PaidTransitive(a: State, b: State, c: State)
    requires Paid(a, b) && Paid(b, c)
    ensures Paid(a, c)
  {
    forall d
      ensures PaidAt(a, c, d)
    {
      assert PaidAt(a, b, d) && PaidAt(b, c, d);
    }
  }

  lemma NothingSpent(s: State)
    requires BankOk(s)
    ensures Spent(s, s, 0) && Paid(s, s)
  {
  }

  lemma SendSpends(s: State, r: ReqId, guess: Option<uint32>, w: World)
    requires BankOk(s) && ReqKnown(s, r) && s.reqs[r].phase == Pending
    ensures Spent(s, DoSend(s, r, guess, w).s, Takes(s, r, guess, w))
    ensures OthersGuesses(s.bws, DoSend(s, r, guess, w).s.bws, s.reqs[r].conn)
  {
    var s', c, n := DoSend(s, r, guess, w).s, s.reqs[r].conn, Takes(s, r, guess, w);
    DoSendBill(s, r, guess, w);
    MsOfMs(s.now);
    MsOfMs(s'.now);
    BilledLedger(s.bws, c, n, TimeOf(s), TimeOf(s'), FallsShort(s, r, guess, w));
    BilledGuesses(s.bws, c, n, TimeOf(s'), FallsShort(s, r, guess, w));
  }

  lemma BilledKeys(b: Bw, c: ConnId, n: uint32, t: Timeb, off: bool)
    ensures forall d :: d in Billed(b, c, n, t, off).states ==> d in b.states || d == c
  {
  }

  lemma SendPays(s: State, r: ReqId, guess: Option<uint32>, w: World)
    requires BankOk(s) && ReqKnown(s, r) && s.reqs[r].phase == Pending && s.bws.maxBw > 0
    ensures Paid(s, DoSend(s, r, guess, w).s)
  {
    var s', c, n := DoSend(s, r, guess, w).s, s.reqs[r].conn, Takes(s, r, guess, w);
    DoSendBill(s, r, guess, w);
    DoSendDelivery(s, r, guess, w);
    DoSendOutcome(s, r, guess, w);
    MsOfMs(s.now);
    MsOfMs(s'.now);
    BilledLedger(s.bws, c, n, TimeOf(s), TimeOf(s'), FallsShort(s, r, guess, w));
    BilledKeys(s.bws, c, n, TimeOf(s'), FallsShort(s, r, guess, w));
    PaidOne(s, s', c, n);
  }

  lemma PaidOne(s: State, s': State, c: ConnId, n: nat)
    requires c in s.conns && c in s'.conns && s'.conns == s.conns[c := s'.conns[c]]
    requires s'.conns[c].cbs == s.conns[c].cbs
    requires |s'.conns[c].wire| == |s.conns[c].wire| + n
    requires Recorded(s'.bws, c) == Recorded(s.bws, c) + n
    requires forall d :: d != c ==> Recorded(s'.bws, d) == Recorded(s.bws, d)
    requires forall d :: d in s'.bws.states ==> d in s.bws.states || d == c
    ensures Paid(s, s')
  {
  }

  ghost predicate PendingAt(s: State, c: ConnId, i: nat)
  {
    Listed(s, c, i) && s.reqs[s.outgoings[c][i]].conn == c && s.reqs[s.outgoings[c][i]].phase == Pending
  }

  lemma AttemptSpends(s: State, c: ConnId, i: nat, guess: Option<uint32>, w: World)
    requires BankOk(s) && PendingAt(s, c, i)
    ensures var out, n := Attempt(s, c, i, guess, w), Takes(s, s.outgoings[c][i], guess, w);
            && Spent(s, out.s, n) && OthersGuesses(s.bws, out.s.bws, c)
            && (guess.Some? ==> n <= guess.value && out.guess == Some(guess.value - n))
  {
    AttemptState(s, c, i, guess, w);
    SendSpends(s, s.outgoings[c][i], guess, w);
    DoSendDelivery(s, s.outgoings[c][i], guess, w);
  }

  lemma AttemptPays(s: State, c: ConnId, i: nat, guess: Option<uint32>, w: World)
    requires BankOk(s) && PendingAt(s, c, i) && s.bws.maxBw > 0
    ensures Paid(s, Attempt(s, c, i, guess, w).s)
  {
    AttemptState(s, c, i, guess, w);
    SendPays(s, s.outgoings[c][i], guess, w);
    SamePaid(s, DoSend(s, s.outgoings[c][i], guess, w).s, Attempt(s, c, i, guess, w).s);
  }

  lemma SamePaid(s: State, a: State, b: State)
    requires Paid(s, a) && b.conns == a.conns && b.bws == a.bws
    ensures Paid(s, b)
  {
    forall d
      ensures PaidAt(s, b, d)
    {
      assert PaidAt(s, a, d);
    }
  }

  ghost predicate Walked(s: State, s': State, c: ConnId, budget: nat)
  {
    Spent(s, s', budget) && Paid(s, s') && OthersGuesses(s.bws, s'.bws, c)
  }

  lemma WalkedTransitive(a: State, b: State, c: State, x: ConnId, m: nat, n: nat)
    requires Walked(a, b, x, m) && Walked(b, c, x, n)
    ensures Walked(a, c, x, m + n)
  {
    SpentTransitive(a, b, c, m, n);
    PaidTransitive(a, b, c);
    OthersGuessesTransitive(a.bws, b.bws, c.bws, x);
  }

  lemma WalkedLess(s: State, s': State, c: ConnId, m: nat, n: nat)
    requires Walked(s, s', c, m) && m <= n
    ensures Walked(s, s', c, n)
  {
  }

  lemma AttemptWalks(s: State, c: ConnId, i: nat, guess: uint32, w: World)
    requires BankOk(s) && PendingAt(s, c, i) && s.bws.maxBw > 0
    ensures var out, n := Attempt(s, c, i, Some(guess), w), Takes(s, s.outgoings[c][i], Some(guess), w);
            out.guess.Some? && out.guess.value + n == guess && Walked(s, out.s, c, n)
  {
    AttemptSpends(s, c, i, Some(guess), w);
    AttemptPays(s, c, i, Some(guess), w);
  }

  lemma NextPending(s: State, c: ConnId, i: nat, guess: Option<uint32>, w: World)
    requires Inv(s) && Listed(s, c, i)
    ensures PendingAt(s, c, i) && Inv(Attempt(s, c, i, guess, w).s)
  {
    ListedPending(s, c, i);
    AttemptInv(s, c, i, guess, w);
  }

  /** A walk over one list spends at most the guess it was given. */
  lemma {:induction false} SendListSpends(s: State, c: ConnId, i: nat, guess: uint32, w: World)
    requires Inv(s) && BankOk(s) && s.bws.maxBw > 0
    ensures Walked(s, SendList(s, c, i, Some(guess), w), c, guess)
    decreases if c in s.outgoings then |s.outgoings[c]| - i else 0
  {
    if !Listed(s, c, i) {
      NothingSpent(s);
      WalkedLess(s, s, c, 0, guess);
    } else {
      var out, n := Attempt(s, c, i, Some(guess), w), Takes(s, s.outgoings[c][i], Some(guess), w);
      NextPending(s, c, i, Some(guess), w);
      AttemptWalks(s, c, i, guess, w);
      if out.done {
        WalkedLess(s, out.s, c, n, guess);
      } else {
        SendListSpends(out.s, c, i + 1, out.guess.value, w);
        WalkedTransitive(s, out.s, SendList(out.s, c, i + 1, out.guess, w), c, n, out.guess.value);
      }
    }
  }

  lemma OthersGuessesTransitive(a: Bw, b: Bw, c: Bw, x: ConnId)
    requires OthersGuesses(a, b, x) && OthersGuesses(b, c, x)
    ensures OthersGuesses(a, c, x)
  {
  }

  predicate Distinct(order: seq<ConnId>)
  {
    forall i, j :: 0 <= i < j < |order| ==> order[i] != order[j]
  }

  function Members(order: seq<ConnId>): set<ConnId>
  {
    set c | c in order
  }

  /** A walk over all lists, each visited once, spends at most the guesses together. */
  lemma {:induction false} SendAllSpends(s: State, order: seq<ConnId>, w: World)
    requires Inv(s) && BankOk(s) && s.bws.maxBw > 0 && Distinct(order)
    ensures var s' := SendAll(s, order, true, w);
            Spent(s, s', Budget(s.bws, Members(order))) && Paid(s, s')
    decreases |order|
  {
    if |order| == 0 {
      NothingSpent(s);
    } else {
      var guess := Guess(s.bws, order[0]);
      var s1 := SendList(s, order[0], 0, Some(guess), w);
      SendListInv(s, order[0], 0, Some(guess), w);
      SendListSpends(s, order[0], 0, guess, w);
      BudgetVisits(s.bws, s1.bws, order[0], Members(order));
      assert Members(order[1..]) == Members(order) - {order[0]};
      SendAllSpends(s1, order[1..], w);
      SpentTransitive(s, s1, SendAll(s1, order[1..], true, w), guess, Budget(s1.bws, Members(order[1..])));
      PaidTransitive(s, s1, SendAll(s1, order[1..], true, w));
    }
  }

  // ---------- idle turns under a limit ----------

  lemma VisitsOnce(s: State, tour: Tour)
    requires Visits(s, tour.order)
    ensures Distinct(tour.order)
  {
  }

  lemma RecalcSpendsNothing(s: State, fpu: Fpu)
    requires BankOk(s)
    ensures Spent(s, s.(bws := Recalculated(s.bws, TimeOf(s), fpu)), 0)
    ensures Paid(s, s.(bws := Recalculated(s.bws, TimeOf(s), fpu)))
  {
    RecalculatedNoMore(s.bws, TimeOf(s), fpu);
    RecalculatedKeys(s.bws, TimeOf(s), fpu);
    SameAccountsPaid(s, Recalculated(s.bws, TimeOf(s), fpu));
    assert Recalculated(s.bws, TimeOf(s), fpu).maxBw == s.bws.maxBw;
  }

  lemma SameAccountsPaid(s: State, b: Bw)
    requires b.states.Keys == s.bws.states.Keys
    requires forall d :: Recorded(b, d) == Recorded(s.bws, d)
    ensures Paid(s, s.(bws := b))
  {
    forall d
      ensures PaidAt(s, s.(bws := b), d)
    {
      assert d in b.states.Keys <==> d in s.bws.states.Keys;
    }
  }

  /** Above the limit an idle turn sends nothing at all. */
  lemma IdleAboveTheLimit(s: State, tour: Tour, fpu: Fpu)
    requires BankOk(s) && s.bws.maxBw < InWindow(s) < TWO_TO_THE_32 && s.bws.maxBw > 0
    ensures Idle(s, tour, fpu) == s.(bws := Recalculated(s.bws, TimeOf(s), fpu))
    ensures Spent(s, Idle(s, tour, fpu), 0) && Paid(s, Idle(s, tour, fpu))
  {
    RecalcReportsTheExcess(s.bws, TimeOf(s), fpu);
    RecalcSpendsNothing(s, fpu);
  }

  /** Within the limit an idle turn stays within it. */
  lemma IdleWithinTheLimit(s: State, tour: Tour, fpu: Fpu)
    requires Inv(s) && BankOk(s) && InWindow(s) <= s.bws.maxBw && s.bws.maxBw > 0
    requires Distinct(tour.order) && Sound(fpu)
    ensures BankOk(Idle(s, tour, fpu)) && InWindow(Idle(s, tour, fpu)) <= s.bws.maxBw
    ensures Idle(s, tour, fpu).bws.maxBw == s.bws.maxBw && s.now <= Idle(s, tour, fpu).now
    ensures Paid(s, Idle(s, tour, fpu))
  {
    var s' := s.(bws := Recalculated(s.bws, TimeOf(s), fpu));
    BudgetSafety(s.bws, TimeOf(s), fpu);
    RecalcSpendsNothing(s, fpu);
    BystanderInv(s, s');
    RecalcWindow(s, fpu);
    WholeBudget(s'.bws, Members(tour.order));
    SendAllSpends(s', tour.order, tour.second);
    PaidTransitive(s, s', SendAll(s', tour.order, true, tour.second));
  }

  lemma RecalcWindow(s: State, fpu: Fpu)
    requires BankOk(s)
    ensures Window(Recalculated(s.bws, TimeOf(s), fpu), TimeOf(s)) <= Window(s.bws, TimeOf(s))
  {
    RecalculatedNoMore(s.bws, TimeOf(s), fpu);
  }

  // ---------- no second ever holds more ----------

  lemma AttemptLevel(s: State, c: ConnId, i: nat, guess: Option<uint32>, w: World, from: int, limit: nat)
    requires BankOk(s) && PendingAt(s, c, i) && s.bws.maxBw > 0
    requires Level(s.bws, from, limit) && InWindow(s) + Takes(s, s.outgoings[c][i], guess, w) <= limit
    ensures Level(Attempt(s, c, i, guess, w).s.bws, from, limit)
  {
    var r := s.outgoings[c][i];
    var s' := DoSend(s, r, guess, w).s;
    AttemptState(s, c, i, guess, w);
    DoSendBill(s, r, guess, w);
    MsOfMs(s.now);
    MsOfMs(s'.now);
    BilledLevel(s.bws, c, Takes(s, r, guess, w), TimeOf(s), TimeOf(s'), FallsShort(s, r, guess, w), from, limit);
  }

  /** As long as the window has room for the guess, a walk over one list keeps every second within the limit. */
  lemma {:induction false} SendListLevel(s: State, c: ConnId, i: nat, guess: uint32, w: World, from: int, limit: nat)
    requires Inv(s) && BankOk(s) && s.bws.maxBw > 0
    requires Level(s.bws, from, limit) && InWindow(s) + guess <= limit
    ensures Level(SendList(s, c, i, Some(guess), w).bws, from, limit)
    decreases if c in s.outgoings then |s.outgoings[c]| - i else 0
  {
    if Listed(s, c, i) {
      var out := Attempt(s, c, i, Some(guess), w);
      NextPending(s, c, i, Some(guess), w);
      AttemptWalks(s, c, i, guess, w);
      AttemptLevel(s, c, i, Some(guess), w, from, limit);
      if !out.done {
        SendListLevel(out.s, c, i + 1, out.guess.value, w, from, limit);
      }
    }
  }

  lemma {:induction false} SendAllLevel(s: State, order: seq<ConnId>, w: World, from: int, limit: nat)
    requires Inv(s) && BankOk(s) && s.bws.maxBw > 0 && Distinct(order)
    requires Level(s.bws, from, limit) && InWindow(s) + Budget(s.bws, Members(order)) <= limit
    ensures Level(SendAll(s, order, true, w).bws, from, limit)
    decreases |order|
  {
    if |order| > 0 {
      var guess := Guess(s.bws, order[0]);
      var s1 := SendList(s, order[0], 0, Some(guess), w);
      SendListInv(s, order[0], 0, Some(guess), w);
      SendListSpends(s, order[0], 0, guess, w);
      BudgetVisits(s.bws, s1.bws, order[0], Members(order));
      assert Members(order[1..]) == Members(order) - {order[0]};
      SendListLevel(s, order[0], 0, guess, w, from, limit);
      SendAllLevel(s1, order[1..], w, from, limit);
    }
  }

  lemma IdleLevel(s: State, tour: Tour, fpu: Fpu, from: int, limit: nat)
    requires Inv(s) && BankOk(s) && InWindow(s) < TWO_TO_THE_32 && 0 < s.bws.maxBw <= limit
    requires Distinct(tour.order) && Sound(fpu) && Level(s.bws, from, limit)
    ensures Level(Idle(s, tour, fpu).bws, from, limit)
  {
    var s' := s.(bws := Recalculated(s.bws, TimeOf(s), fpu));
    RecalculatedNoMore(s.bws, TimeOf(s), fpu);
    NoMoreLevel(s.bws, TimeOf(s), s'.bws, TimeOf(s), from, limit);
    if InWindow(s) > s.bws.maxBw {
      IdleAboveTheLimit(s, tour, fpu);
    } else {
      BudgetSafety(s.bws, TimeOf(s), fpu);
      BystanderInv(s, s');
      WholeBudget(s'.bws, Members(tour.order));
      SendAllLevel(s', tour.order, tour.second, from, limit);
    }
  }
}
