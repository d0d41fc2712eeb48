/** What an idle turn sends on one connection under a limit, and which connections are never sent anything. */
module GrantProofs {
  import opened Bandwidth
  import opened BandwidthTheorems
  import opened BillingProofs
  import opened CallbackProtocol
  import opened CalmStepProofs
  import opened ClientStepProofs
  import opened Clock
  import opened DeliveryProofs
  import opened DispatcherInvariant
  import opened DispatcherState
  import opened DispatcherSteps
  import opened EventStepProofs
  import opened FloatModel
  import opened Ids
  import opened ProgressProofs
  import opened RateBoundProofs
  import opened RateRunProofs
  import opened SendStepProofs
  import opened TrackingProofs
  import opened WritabilityProofs

  // ---------- what one walk hands to the socket ----------

  /** What a walk with a guess sends on `c`: of the first unfinished request, what the guess and the room allow. */
  function Grant(s: State, c: ConnId, i: nat, guess: nat): nat
    requires c in s.conns
  {
    var k := s.conns[c];
    if k.cbs.state == CsClosed || k.sock.dead then 0 else Min(Min(FirstRest(s, c, i), guess), k.sock.room)
  }

  /** The socket of `c` has taken `n` more bytes. */
  predicate Grown(s: State, s': State, c: ConnId, n: nat)
    requires c in s.conns
  {
    c in s'.conns && |s'.conns[c].wire| == |s.conns[c].wire| + n
  }

  lemma OneGrant(s: State, r: ReqId, guess: uint32, w: World)
    requires ReqKnown(s, r) && s.reqs[r].phase == Pending && w.refill(r) == 0
    ensures var out, n, c := DoSend(s, r, Some(guess), w), Takes(s, r, Some(guess), w), s.reqs[r].conn;
            && n <= guess && out.guess.Some? && out.guess.value == guess - n && Grown(s, out.s, c, n)
            && (!out.done ==> out.s.conns[c].cbs == s.conns[c].cbs)
            && (!out.done ==> s.reqs[r].Full() || Stuck(out.s.conns[c].sock, out.guess))
            && (out.done <== s.conns[c].cbs.state == CsClosed)
            && (s.reqs[r].Full() && s.conns[c].cbs.state != CsClosed ==> out == SendOut(s, Some(guess), false))
  {
    DoSendDelivery(s, r, Some(guess), w);
    DoSendOutcome(s, r, Some(guess), w);
  }

  lemma FirstGrant(s: State, c: ConnId, i: nat, guess: uint32, w: World)
    requires Listed(s, c, i) && s.reqs[s.outgoings[c][i]].conn == c && w.refill(s.outgoings[c][i]) == 0
    requires s.conns[c].cbs.state == CsClosed || !s.reqs[s.outgoings[c][i]].Full()
    ensures Takes(s, s.outgoings[c][i], Some(guess), w) == Grant(s, c, i, guess)
  {
  }

  lemma AttemptGrants(s: State, c: ConnId, i: nat, guess: uint32, w: World)
    requires Wf(s) && Listed(s, c, i) && Quiet(w)
    ensures var out, r := Attempt(s, c, i, Some(guess), w), s.outgoings[c][i];
            var n := Takes(s, r, Some(guess), w);
            && c in s.conns && n <= guess && out.guess.Some? && out.guess.value == guess - n && Grown(s, out.s, c, n)
            && (s.reqs[r].Full() && s.conns[c].cbs.state != CsClosed ==> out == SendOut(s, Some(guess), false))
            && (s.conns[c].cbs.state == CsClosed ==> out.done)
            && (!out.done && !s.reqs[r].Full() ==> Stuck(out.s.conns[c].sock, out.guess))
  {
    ListedPending(s, c, i);
    assert w.refill(s.outgoings[c][i]) == 0;
    AttemptState(s, c, i, Some(guess), w);
    OneGrant(s, s.outgoings[c][i], guess, w);
  }

  /** Nothing goes to a socket that is stuck. */
  lemma StuckGrant(s: State, c: ConnId, i: nat, guess: uint32)
    requires c in s.conns && Stuck(s.conns[c].sock, Some(guess))
    ensures Grant(s, c, i, guess) == 0
  {
  }

  lemma FullGrant(s: State, c: ConnId, i: nat, guess: uint32)
    requires c in s.conns && Listed(s, c, i) && s.reqs[s.outgoings[c][i]].Full()
    ensures Grant(s, c, i + 1, guess) == Grant(s, c, i, guess)
  {
  }

  /** What one attempt sends is the grant, but for what the rest of the walk is still granted. */
  ghost predicate Splits(s: State, c: ConnId, i: nat, guess: uint32, out: SendOut)
  {
    && c in s.conns && c in out.s.conns && out.guess.Some?
    && |out.s.conns[c].wire| + (if out.done then 0 else Grant(out.s, c, i + 1, out.guess.value))
       == |s.conns[c].wire| + Grant(s, c, i, guess)
  }

  lemma FullSplits(s: State, c: ConnId, i: nat, guess: uint32)
    requires c in s.conns && Listed(s, c, i) && s.reqs[s.outgoings[c][i]].Full()
    ensures Splits(s, c, i, guess, SendOut(s, Some(guess), false))
  {
    FullGrant(s, c, i, guess);
  }

  lemma UnfinishedSplits(s: State, c: ConnId, i: nat, guess: uint32, out: SendOut)
    requires c in s.conns && c in out.s.conns && out.guess.Some?
    requires Grown(s, out.s, c, Grant(s, c, i, guess))
    requires !out.done ==> Stuck(out.s.conns[c].sock, out.guess)
    ensures Splits(s, c, i, guess, out)
  {
    if !out.done {
      StuckGrant(out.s, c, i + 1, out.guess.value);
    }
  }

  lemma GrantSplits(s: State, c: ConnId, i: nat, guess: uint32, w: World)
    requires Wf(s) && Listed(s, c, i) && Quiet(w)
    ensures Splits(s, c, i, guess, Attempt(s, c, i, Some(guess), w))
  {
    var r := s.outgoings[c][i];
    ListedPending(s, c, i);
    AttemptGrants(s, c, i, guess, w);
    assert w.refill(r) == 0;
    if s.reqs[r].Full() && s.conns[c].cbs.state != CsClosed {
      FullSplits(s, c, i, guess);
    } else {
      FirstGrant(s, c, i, guess, w);
      UnfinishedSplits(s, c, i, guess, Attempt(s, c, i, Some(guess), w));
    }
  }

  /** A walk over the list of `c` sends exactly the grant. */
  lemma {:induction false} SendListGrants(s: State, c: ConnId, i: nat, guess: uint32, w: World)
    requires Inv(s) && Quiet(w) && c in s.conns
    ensures Grown(s, SendList(s, c, i, Some(guess), w), c, Grant(s, c, i, guess))
    decreases if c in s.outgoings then |s.outgoings[c]| - i else 0
  {
    if Listed(s, c, i) {
      var out := Attempt(s, c, i, Some(guess), w);
      AttemptInv(s, c, i, Some(guess), w);
      GrantSplits(s, c, i, guess, w);
      if !out.done {
        SendListGrants(out.s, c, i + 1, out.guess.value, w);
      }
    }
  }

  // ---------- what the walks over the other lists leave alone ----------

  /** The connection, its pending list and its requests are as they were. */
  ghost predicate SameWork(s: State, s': State, c: ConnId)
  {
    && c in s.conns && c in s'.conns && s'.conns[c] == s.conns[c]
    && (c in s'.outgoings <==> c in s.outgoings) && (c in s.outgoings ==> s'.outgoings[c] == s.outgoings[c])
    && forall r :: r in s.reqs && s.reqs[r].conn == c ==> r in s'.reqs && s'.reqs[r] == s.reqs[r]
  }

  lemma AttemptElsewhere(s: State, d: ConnId, i: nat, guess: Option<uint32>, w: World, c: ConnId)
    requires Inv(s) && Listed(s, d, i) && c in s.conns && c != d
    ensures SameWork(s, Attempt(s, d, i, guess, w).s, c)
  {
    ListedPending(s, d, i);
    AttemptState(s, d, i, guess, w);
    DoSendOutcome(s, s.outgoings[d][i], guess, w);
  }

  lemma SameWorkTransitive(a: State, b: State, s: State, c: ConnId)
    requires SameWork(a, b, c) && SameWork(b, s, c)
    ensures SameWork(a, s, c)
  {
  }

  lemma {:induction false} SendListElsewhere(s: State, d: ConnId, i: nat, guess: Option<uint32>, w: World, c: ConnId)
    requires Inv(s) && c in s.conns && c != d
    ensures SameWork(s, SendList(s, d, i, guess, w), c)
    decreases if d in s.outgoings then |s.outgoings[d]| - i else 0
  {
    if Listed(s, d, i) {
      var out := Attempt(s, d, i, guess, w);
      AttemptInv(s, d, i, guess, w);
      AttemptElsewhere(s, d, i, guess, w, c);
      if !out.done {
        SendListElsewhere(out.s, d, i + 1, out.guess, w, c);
        SameWorkTransitive(s, out.s, SendList(out.s, d, i + 1, out.guess, w), c);
      }
    }
  }

  lemma SameListed(s: State, s': State, c: ConnId, i: nat)
    requires Wf(s) && SameWork(s, s', c)
    ensures Listed(s', c, i) <==> Listed(s, c, i)
    ensures Listed(s, c, i) ==> s'.outgoings[c] == s.outgoings[c] && s'.reqs[s.outgoings[c][i]] == s.reqs[s.outgoings[c][i]]
  {
    if c in s.outgoings && i < |s.outgoings[c]| {
      ListedPending(s, c, i);
    }
  }

  lemma {:induction false} SameWorkSameRest(s: State, s': State, c: ConnId, i: nat)
    requires Wf(s) && SameWork(s, s', c)
    ensures FirstRest(s', c, i) == FirstRest(s, c, i)
    decreases if c in s.outgoings then |s.outgoings[c]| - i else 0
  {
    SameListed(s, s', c, i);
    if Listed(s, c, i) {
      SameWorkSameRest(s, s', c, i + 1);
    }
  }

  lemma {:induction false} OthersWalk(s: State, order: seq<ConnId>, w: World, c: ConnId)
    requires Inv(s) && c in s.conns && c !in order
    ensures SameWork(s, SendAll(s, order, true, w), c)
    decreases |order|
  {
    if |order| > 0 {
      var guess := GuessFor(s, order[0], true);
      var s1 := SendList(s, order[0], 0, guess, w);
      SendListInv(s, order[0], 0, guess, w);
      SendListElsewhere(s, order[0], 0, guess, w, c);
      OthersWalk(s1, order[1..], w, c);
      SameWorkTransitive(s, s1, SendAll(s1, order[1..], true, w), c);
    }
  }

  /** A walk over all lists sends on each connection what its own guess grants. */
  lemma {:induction false} SendAllGrants(s: State, order: seq<ConnId>, w: World, c: ConnId)
    requires Inv(s) && BankOk(s) && s.bws.maxBw > 0 && Quiet(w) && Distinct(order)
    requires c in s.conns && c in order
    ensures Grown(s, SendAll(s, order, true, w), c, Grant(s, c, 0, Guess(s.bws, c)))
    decreases |order|
  {
    var d, guess := order[0], Guess(s.bws, order[0]);
    var s1 := SendList(s, d, 0, Some(guess), w);
    SendListInv(s, d, 0, Some(guess), w);
    SendListSpends(s, d, 0, guess, w);
    if d == c {
      SendListGrants(s, c, 0, guess, w);
      OthersWalk(s1, order[1..], w, c);
    } else {
      SendListElsewhere(s, d, 0, Some(guess), w, c);
      SendAllGrants(s1, order[1..], w, c);
      GrantCarriesOver(s, s1, SendAll(s1, order[1..], true, w), c, Guess(s.bws, c));
    }
  }

  lemma GrantCarriesOver(s: State, s1: State, s2: State, c: ConnId, guess: uint32)
    requires Wf(s) && SameWork(s, s1, c) && Grown(s1, s2, c, Grant(s1, c, 0, guess))
    ensures Grown(s, s2, c, Grant(s, c, 0, guess))
  {
    SameWorkSameRest(s, s1, c, 0);
  }

  lemma UnlistedGrant(s: State, c: ConnId, guess: nat)
    requires c in s.conns && c !in s.outgoings
    ensures Grant(s, c, 0, guess) == 0
  {
  }

  lemma SameWorkAfterRecalc(s: State, b: Bw, c: ConnId)
    requires c in s.conns
    ensures SameWork(s, s.(bws := b), c)
  {
  }

  lemma WalkAfterRecalc(s: State, tour: Tour, fpu: Fpu, c: ConnId)
    requires Inv(s) && BankOk(s) && s.bws.maxBw > 0 && Visits(s, tour.order) && Sound(fpu) && Quiet(tour.second)
    requires c in s.conns
    ensures var s' := s.(bws := Recalculated(s.bws, TimeOf(s), fpu));
            Grown(s, SendAll(s', tour.order, true, tour.second), c, Grant(s', c, 0, Guess(s'.bws, c)))
  {
    var s' := s.(bws := Recalculated(s.bws, TimeOf(s), fpu));
    BystanderInv(s, s');
    RecalcSpendsNothing(s, fpu);
    if c in tour.order {
      VisitsOnce(s, tour);
      SendAllGrants(s', tour.order, tour.second, c);
    } else {
      UnlistedGrant(s', c, Guess(s'.bws, c));
      OthersWalk(s', tour.order, tour.second, c);
    }
  }

  lemma GrantAfterRecalc(s: State, b: Bw, c: ConnId, guess: nat)
    requires Wf(s) && c in s.conns
    ensures Grant(s.(bws := b), c, 0, guess) == Grant(s, c, 0, guess)
  {
    SameWorkAfterRecalc(s, b, c);
    SameWorkSameRest(s, s.(bws := b), c, 0);
  }

  /** The two branches of an idle turn under a limit. */
  lemma TurnBranches(s: State, tour: Tour, fpu: Fpu)
    requires BankSound(s) && s.bws.maxBw > 0
    ensures var s' := s.(bws := Recalculated(s.bws, TimeOf(s), fpu));
            Idle(s, tour, fpu) == if InWindow(s) > s.bws.maxBw then s' else SendAll(s', tour.order, true, tour.second)
  {
    RecalcReportsTheExcess(s.bws, TimeOf(s), fpu);
  }

  /**
   Under a limit an idle turn sends on a connection exactly the least of three: what is left of its
   first unfinished request, its guess, and the room of its socket; nothing above the limit.
   */
  lemma TurnSends(s: State, tour: Tour, fpu: Fpu, c: ConnId)
    requires Inv(s) && BankSound(s) && s.bws.maxBw > 0 && Visits(s, tour.order) && Sound(fpu) && Quiet(tour.second)
    requires c in s.conns
    ensures Grown(s, Idle(s, tour, fpu), c,
                  if InWindow(s) > s.bws.maxBw then 0 else Grant(s, c, 0, Guess(Recalculated(s.bws, TimeOf(s), fpu), c)))
  {
    var b := Recalculated(s.bws, TimeOf(s), fpu);
    TurnBranches(s, tour, fpu);
    if InWindow(s) <= s.bws.maxBw {
      WalkAfterRecalc(s, tour, fpu, c);
      GrantAfterRecalc(s, b, c, Guess(b, c));
    }
  }

  // ---------- who gets something after a quiet second ----------

  /** The connection could send at once: it is open, its socket has room, and a request is waiting. */
  predicate Ready(s: State, c: ConnId)
  {
    && c in s.conns && s.conns[c].cbs.state != CsClosed && !s.conns[c].sock.dead && s.conns[c].sock.room > 0
    && FirstRest(s, c, 0) > 0
  }

  predicate TrackedAndOn(b: Bw, c: ConnId)
  {
    c in b.states && b.states[c].active
  }

  lemma EmptyAccount(b: Bw, t: Timeb, c: ConnId)
    requires AccountsOk(b, t) && Window(b, t) == 0 && c in b.states
    ensures Counted(b.states[c], t).curBw == 0
  {
    OneWindow(b, c, t);
    CountedIsTheWindow(b.states[c], t);
  }

  lemma NobodyServed(states: map<ConnId, BwState>, cap: uint32)
    requires forall c :: c in states ==> states[c].curBw == 0
    ensures Weakest(states, LeastServed(states, cap)) == Active(states)
  {
    LeastServedIsExact(states, cap);
    if Active(states) != {} {
      var c :| c in Active(states);
      assert LeastServed(states, cap) <= states[c].curBw;
    }
  }

  lemma EverybodyIsLeastServed(b: Bw, t: Timeb, fpu: Fpu)
    requires AccountsOk(b, t) && Window(b, t) == 0
    ensures Weakest(CountedAll(b.states, t), SplitOf(b, t, fpu).minBw) == Active(b.states)
  {
    forall c | c in b.states
      ensures Counted(b.states[c], t).curBw == 0
    {
      EmptyAccount(b, t, c);
    }
    NobodyServed(CountedAll(b.states, t), b.maxBw);
    SameActive(b.states, t);
  }

  lemma EveryActiveGuess(b: Bw, t: Timeb, fpu: Fpu, c: ConnId)
    requires Sound(fpu) && AccountsOk(b, t) && Window(b, t) == 0 && b.maxBw >= 10 * |Active(b.states)| && b.maxBw > 0
    ensures Guess(Recalculated(b, t, fpu), c) > 0 <==> TrackedAndOn(b, c)
  {
    EverybodyIsLeastServed(b, t, fpu);
    if TrackedAndOn(b, c) {
      LeastServedAdvance(b, t, fpu, c);
    } else {
      BudgetSafety(b, t, fpu);
    }
  }

  /**
   After a second without sending, and with ten bytes of the limit per active connection, an idle
   turn sends on a connection that is ready exactly when the limiter tracks it and has it switched on.
   */
  lemma ExactlyTheTrackedAreServed(s: State, start: Start, run: seq<Action>, tour: Tour, fpu: Fpu, c: ConnId)
    requires Reached(s, start, run)
    requires s.bws.maxBw > 0 && Visits(s, tour.order) && Sound(fpu) && Quiet(tour.second)
    requires InWindow(s) == 0 && s.bws.maxBw >= 10 * |Active(s.bws.states)| && Ready(s, c)
    ensures c in Idle(s, tour, fpu).conns
    ensures |Idle(s, tour, fpu).conns[c].wire| > |s.conns[c].wire| <==> TrackedAndOn(s.bws, c)
  {
    ReachedInv(s, start, run);
    ReachedSound(s, start, run);
    TurnSends(s, tour, fpu, c);
    EveryActiveGuess(s.bws, TimeOf(s), fpu, c);
  }

  // ---------- no guess, no bytes ----------

  predicate SameData(s: State, s': State)
  {
    forall r :: r in s.reqs ==> r in s'.reqs && s'.reqs[r].data == s.reqs[r].data
  }

  lemma NoGuessNoBytes(s: State, r: ReqId, w: World)
    requires ReqKnown(s, r) && s.reqs[r].phase == Pending
    ensures var out, c := DoSend(s, r, Some(0), w), s.reqs[r].conn;
            && c in out.s.conns && out.s.conns[c].wire == s.conns[c].wire
            && out.s.bws == s.bws && out.guess == Some(0)
            && out.s.conns[c].calls == s.conns[c].calls && SameData(s, out.s)
  {
    DoSendBill(s, r, Some(0), w);
    DoSendDelivery(s, r, Some(0), w);
    DoSendOutcome(s, r, Some(0), w);
    assert Takes(s, r, Some(0), w) == 0;
    var q := s.reqs[r];
    assert q.data[q.sent..q.sent + 0] == [];
    assert s.conns[q.conn].wire + [] == s.conns[q.conn].wire;
  }

  lemma {:induction false} NoGuessSilentList(s: State, c: ConnId, i: nat, w: World)
    requires Inv(s) && c in s.conns
    ensures var s' := SendList(s, c, i, Some(0), w);
            && c in s'.conns && s'.conns[c].wire == s.conns[c].wire && s'.bws == s.bws
            && s'.conns[c].calls == s.conns[c].calls && SameData(s, s')
    decreases if c in s.outgoings then |s.outgoings[c]| - i else 0
  {
    if Listed(s, c, i) {
      ListedPending(s, c, i);
      AttemptState(s, c, i, Some(0), w);
      NoGuessNoBytes(s, s.outgoings[c][i], w);
      AttemptInv(s, c, i, Some(0), w);
      var out := Attempt(s, c, i, Some(0), w);
      if !out.done {
        NoGuessSilentList(out.s, c, i + 1, w);
      }
    }
  }

  /** Walking another connection's list leaves this connection's wire and guess alone. */
  lemma OtherListSilent(s: State, d: ConnId, guess: uint32, w: World, c: ConnId)
    requires Inv(s) && BankOk(s) && s.bws.maxBw > 0 && c in s.conns && d in s.conns && d != c
    ensures var s' := SendList(s, d, 0, Some(guess), w);
            c in s'.conns && s'.conns[c] == s.conns[c] && Guess(s'.bws, c) == Guess(s.bws, c)
  {
    SendListTouchesOnly(s, d, 0, Some(guess), w);
    SendListSpends(s, d, 0, guess, w);
  }

  lemma {:induction false} NoGuessSilentWalk(s: State, order: seq<ConnId>, w: World, c: ConnId)
    requires Inv(s) && BankOk(s) && s.bws.maxBw > 0 && c in s.conns && Guess(s.bws, c) == 0
    requires forall d :: d in order ==> d in s.conns
    ensures var s' := SendAll(s, order, true, w);
            c in s'.conns && s'.conns[c].wire == s.conns[c].wire
    decreases |order|
  {
    if |order| > 0 {
      var d := order[0];
      var guess := Guess(s.bws, d);
      var s1 := SendList(s, d, 0, Some(guess), w);
      SendListInv(s, d, 0, Some(guess), w);
      SendListSpends(s, d, 0, guess, w);
      if d == c {
        NoGuessSilentList(s, c, 0, w);
      } else {
        OtherListSilent(s, d, guess, w, c);
      }
      NoGuessSilentWalk(s1, order[1..], w, c);
    }
  }

  lemma NoGuessAfterRecalc(s: State, fpu: Fpu, c: ConnId)
    requires BankOk(s) && s.bws.maxBw > 0 && InWindow(s) <= s.bws.maxBw && Sound(fpu)
    requires c !in s.bws.states || !s.bws.states[c].active
    ensures Guess(Recalculated(s.bws, TimeOf(s), fpu), c) == 0
  {
    BudgetSafety(s.bws, TimeOf(s), fpu);
  }

  lemma SilentWithinTheLimit(s: State, s': State, tour: Tour, fpu: Fpu, c: ConnId)
    requires Inv(s) && BankSound(s) && s.bws.maxBw > 0 && Visits(s, tour.order) && Sound(fpu)
    requires c in s.conns && (c !in s.bws.states || !s.bws.states[c].active)
    requires InWindow(s) <= s.bws.maxBw && s' == s.(bws := Recalculated(s.bws, TimeOf(s), fpu))
    ensures var s'' := SendAll(s', tour.order, true, tour.second);
            c in s''.conns && s''.conns[c].wire == s.conns[c].wire
  {
    NoGuessAfterRecalc(s, fpu, c);
    RecalcSpendsNothing(s, fpu);
    BystanderInv(s, s');
    forall d | d in tour.order
      ensures d in s'.conns
    {
      assert ListKnown(s, d, s.outgoings[d]);
    }
    NoGuessSilentWalk(s', tour.order, tour.second, c);
  }

  /**
   Under a limit an idle turn sends nothing on a connection that the limiter does not track, because
   it was established while there was no limit, or has switched off.
   */
  lemma SilentUnderTheLimit(s: State, tour: Tour, fpu: Fpu, c: ConnId)
    requires Inv(s) && BankSound(s) && s.bws.maxBw > 0 && Visits(s, tour.order) && Sound(fpu)
    requires c in s.conns && (c !in s.bws.states || !s.bws.states[c].active)
    ensures c in Idle(s, tour, fpu).conns && Idle(s, tour, fpu).conns[c].wire == s.conns[c].wire
  {
    TurnBranches(s, tour, fpu);
    if InWindow(s) <= s.bws.maxBw {
      SilentWithinTheLimit(s, s.(bws := Recalculated(s.bws, TimeOf(s), fpu)), tour, fpu, c);
    }
  }

  // ---------- over whole runs ----------

  /** Established or closed, and unknown to the limiter. */
  predicate Unnoticed(s: State, c: ConnId)
  {
    c in s.conns && s.conns[c].cbs.state != CsWait4Connect && c !in s.bws.states
  }

  lemma StepSendsNothing(s: State, a: Action, c: ConnId)
    requires Inv(s) && BankSound(s) && Enabled(s, a) && s.bws.maxBw > 0 && Unnoticed(s, c)
    ensures c in Next(s, a).conns && Next(s, a).conns[c].wire == s.conns[c].wire
  {
    if a.Idles? {
      SilentUnderTheLimit(s, a.tour, a.fpu, c);
    } else {
      AnyLimitCalm(s, a);
      CalmSendsNothing(s, Next(s, a));
    }
  }

  lemma StepLeavesUnnoticed(s: State, a: Action, c: ConnId)
    requires Inv(s) && TrackedConnected(s) && Enabled(s, a) && Orderly(s, a) && Unnoticed(s, c)
    ensures Unnoticed(Next(s, a), c)
  {
    StepTracks(s, a);
    StepFollows(s, a);
    assert ConnOk(s, c);
  }

  /** An unnoticed connection in a state that meets the invariants and has a limit. */
  ghost predicate Starved(s: State, c: ConnId)
  {
    Inv(s) && BankSound(s) && TrackedConnected(s) && s.bws.maxBw > 0 && Unnoticed(s, c)
  }

  lemma StepStarves(s: State, a: Action, c: ConnId)
    requires Starved(s, c) && Enabled(s, a) && Orderly(s, a) && (a.ClientSetsLimit? ==> a.bytes > 0)
    ensures Starved(Next(s, a), c) && Next(s, a).conns[c].wire == s.conns[c].wire
  {
    StepInv(s, a);
    StepSound(s, a);
    StepTracks(s, a);
    StepKeepsLimit(s, a);
    StepSendsNothing(s, a, c);
    StepLeavesUnnoticed(s, a, c);
  }

  lemma {:induction false} UnnoticedForGood(s: State, run: seq<Action>, c: ConnId)
    requires Starved(s, c) && OrderlyRun(s, run) && NeverLifted(run)
    ensures ValidRun(s, run) && Unnoticed(After(s, run), c) && After(s, run).conns[c].wire == s.conns[c].wire
    decreases |run|
  {
    if |run| > 0 {
      StepStarves(s, run[0], c);
      UnnoticedForGood(Next(s, run[0]), run[1..], c);
    }
  }

  /**
   A connection established while there was no limit never sends again while there is one: from any
   reachable state on, in every run in which the limit is never lifted, it stays untracked and its
   socket is given nothing.
   */
  lemma NeverServedUnderALimit(s: State, start: Start, before: seq<Action>, run: seq<Action>, c: ConnId)
    requires Reached(s, start, before) && s.bws.maxBw > 0 && Unnoticed(s, c)
    requires OrderlyRun(s, run) && NeverLifted(run)
    ensures ValidRun(s, run) && Unnoticed(After(s, run), c) && After(s, run).conns[c].wire == s.conns[c].wire
  {
    ReachedInv(s, start, before);
    ReachedSound(s, start, before);
    ReachedTracked(s, start, before);
    UnnoticedForGood(s, run, c);
  }
}
