/** Runs in which every closing gives the budget back: any number of bytes at one instant under a limit of ten. */
module ReopenedFinding {
  import opened AcceptingProofs
  import opened AllSocketsProofs
  import opened Bandwidth
  import opened BandwidthTheorems
  import opened BillingProofs
  import opened CallbackProtocol
  import opened CalmStepProofs
  import opened Clock
  import opened DispatcherInvariant
  import opened DispatcherState
  import opened DispatcherSteps
  import opened EventStepProofs
  import opened FloatModel
  import opened GrantProofs
  import opened Ids
  import opened LedgerProofs
  import opened LogProofs
  import opened MapSums
  import opened ProgressProofs
  import opened RateRunProofs
  import opened Scenarios
  import opened SpanProofs
  import opened ThreadStepProofs
  import opened TrackingProofs
  import opened WritabilityProofs

  // ---------- turns in which no time passes ----------

  lemma {:induction false} ListTakesNoTime(s: State, c: ConnId, i: nat, guess: Option<uint32>)
    ensures SendList(s, c, i, guess, CALM).now == s.now
    decreases if c in s.outgoings then |s.outgoings[c]| - i else 0
  {
    if Listed(s, c, i) {
      var out := Attempt(s, c, i, guess, CALM);
      DoSendBill(s, s.outgoings[c][i], guess, CALM);
      if !out.done {
        ListTakesNoTime(out.s, c, i + 1, out.guess);
      }
    }
  }

  lemma {:induction false} WalkTakesNoTime(s: State, order: seq<ConnId>, limited: bool)
    ensures SendAll(s, order, limited, CALM).now == s.now
    decreases |order|
  {
    if |order| > 0 {
      ListTakesNoTime(s, order[0], 0, GuessFor(s, order[0], limited));
      WalkTakesNoTime(SendList(s, order[0], 0, GuessFor(s, order[0], limited), CALM), order[1..], limited);
    }
  }

  lemma TurnTakesNoTime(s: State, order: seq<ConnId>, fpu: Fpu)
    requires s.bws.maxBw > 0
    ensures Idle(s, Tour(order, CALM, CALM), fpu).now == s.now
  {
    WalkTakesNoTime(s.(bws := Recalculated(s.bws, OfMs(s.now), fpu)), order, true);
  }

  // ---------- one round ----------

  function Below(n: nat): (ks: set<nat>)
    ensures forall i: nat :: i in ks <==> i < n
    ensures |ks| == n
  {
    if n == 0 then {} else Below(n - 1) + {n - 1}
  }

  /** `n` connections have sent a byte each and are closed; no time has passed, and the limiter tracks nobody. */
  ghost predicate Round(s: State, n: nat)
  {
    Desk(s, n) && s.bws.states == map[] && OnePerConn(s, n)
  }

  /** What the rounds have in common; `m` is the number of connections made. */
  ghost predicate Desk(s: State, m: nat)
  {
    && s.now == 0 && s.bws.maxBw == 10 && s.queue == [] && s.accepted
    && s.conns.Keys == Below(m) && s.reqs.Keys == Below(m) && s.outgoings.Keys == Below(m)
  }

  ghost predicate OnePerConn(s: State, n: nat)
  {
    forall c: nat :: c < n ==> ClosedIn(s, c) && |s.conns[c].wire| == 1
  }

  /** The next connection is accepted and has one byte to send. */
  ghost predicate Working(s: State, n: nat)
  {
    Desk(s, n + 1) && OnePerConn(s, n) && OnlyAccount(s.bws, n, TimeOf(s)) && Newest(s, n, 0) && Asked(s, n)
  }

  /** The limiter tracks one connection, switched on, and its window is empty. */
  ghost predicate OnlyAccount(b: Bw, n: ConnId, t: Timeb)
  {
    b.states.Keys == {n} && b.states[n].active && AccountsOk(b, t) && Window(b, t) == 0
  }

  /** The connection made last is open and has sent `sent` bytes. */
  ghost predicate Newest(s: State, n: ConnId, sent: nat)
  {
    && n in s.conns && s.conns[n].cbs == JustAccepted(false) && |s.conns[n].wire| == sent
    && s.conns[n].issued && s.conns[n].dialled && s.conns[n].recv && s.conns[n].clientRefs == 1
  }

  /** One byte waits, and there is room for one. */
  ghost predicate Asked(s: State, n: ConnId)
  {
    && n in s.conns && s.conns[n].sock == Sock(1, true, false)
    && n in s.outgoings && s.outgoings[n] == [n] && ReqKnown(s, n) && s.reqs[n].data == [7] && s.reqs[n].sent == 0
  }

  lemma Grows(n: nat)
    ensures Below(n + 1) == Below(n) + {n} && n !in Below(n)
  {
  }

  lemma FirstRecord(b: Bw, n: ConnId, t: Timeb)
    requires b.states == map[] && b.maxBw > 0
    ensures OnlyAccount(Inserted(b, n, 0, t), n, t) && Inserted(b, n, 0, t).maxBw == b.maxBw
  {
    assert FullWindows(b.states, t) == map[];
    InsertedLedger(b, n, 0, t);
    FirstKey(b, n, t);
  }

  lemma FirstKey(b: Bw, n: ConnId, t: Timeb)
    requires b.states == map[] && b.maxBw > 0
    ensures var b' := Inserted(b, n, 0, t); b'.states.Keys == {n} && b'.states[n].active && b'.maxBw == b.maxBw
  {
  }

  /** The connection is accepted. */
  ghost predicate Greeted(s: State, s1: State, n: ConnId)
  {
    && s1 == s.(conns := s1.conns, bws := Inserted(s.bws, n, 0, OfMs(s.now)), counter := s1.counter)
    && s1.conns == s.conns[n := NewConn(JustAccepted(false), 3, true, Sock(1, true, false), FromListener, true, true)]
  }

  lemma AcceptGreets(s: State, n: ConnId)
    requires s.accepted
    ensures Greeted(s, AcceptConnection(s, Newcomer(n, false, 1)), n)
  {
  }

  lemma GreetedAndAsked(s: State, s1: State, s2: State, n: nat)
    requires Round(s, n) && Greeted(s, s1, n) && Requested(s1, s2, n, n, [7], false)
    ensures Working(s2, n)
  {
    NextIsFresh(s, n);
    NewAccount(s, s1, s2, n);
    DeskGrows(s, s1, s2, n);
    OldOnesGreet(s, s1, s2, n);
    AskedFirst(s, s1, s2, n);
  }

  lemma NewAccount(s: State, s1: State, s2: State, n: nat)
    requires s.bws.states == map[] && s.bws.maxBw == 10 && s.now == 0
    requires Greeted(s, s1, n) && Requested(s1, s2, n, n, [7], false)
    ensures OnlyAccount(s2.bws, n, TimeOf(s2)) && s2.bws.maxBw == 10
  {
    FirstRecord(s.bws, n, OfMs(0));
  }

  lemma OldOnesGreet(s: State, s1: State, s2: State, n: nat)
    requires OnePerConn(s, n) && Greeted(s, s1, n) && Requested(s1, s2, n, n, [7], false)
    ensures OnePerConn(s2, n)
  {
    OldOnesStay(s, s1, n);
    OldOnesStay(s1, s2, n);
  }

  lemma DeskGrows(s: State, s1: State, s2: State, n: nat)
    requires Desk(s, n) && Greeted(s, s1, n) && Requested(s1, s2, n, n, [7], false)
    requires s2.bws.maxBw == 10
    ensures Desk(s2, n + 1)
  {
    Grows(n);
    KeysGrow(s.conns, n, s1.conns[n]);
    KeysGrow(s1.conns, n, s2.conns[n]);
    KeysGrow(s.reqs, n, s2.reqs[n]);
    KeysGrow(s.outgoings, n, s2.outgoings[n]);
  }

  lemma KeysGrow<V>(m: map<nat, V>, k: nat, v: V)
    ensures m[k := v].Keys == m.Keys + {k}
  {
  }

  lemma OldOnesStay(s: State, s': State, n: nat)
    requires OnePerConn(s, n)
    requires forall c :: c != n && c in s.conns ==> c in s'.conns && s'.conns[c] == s.conns[c]
    ensures OnePerConn(s', n)
  {
    forall c: nat | c < n
      ensures ClosedIn(s', c) && |s'.conns[c].wire| == 1
    {
      assert ClosedIn(s, c);
    }
  }

  lemma AskedFirst(s: State, s1: State, s2: State, n: nat)
    requires n !in s.outgoings && Greeted(s, s1, n) && Requested(s1, s2, n, n, [7], false)
    ensures Newest(s2, n, 0) && Asked(s2, n)
  {
    assert [] + [n] == [n];
  }

  /** The connection `n` has sent its byte. */
  ghost predicate Served(s: State, n: nat)
  {
    Desk(s, n + 1) && OnePerConn(s, n) && s.bws.states.Keys == {n} && Newest(s, n, 1)
  }

  function UpTo(n: nat): seq<ConnId>
  {
    seq(n + 1, i => i)
  }

  lemma UpToVisits(s: State, n: nat)
    requires s.outgoings.Keys == Below(n + 1)
    ensures Visits(s, UpTo(n))
  {
    forall c: int
      ensures c in UpTo(n) <==> c in s.outgoings
    {
      assert c in s.outgoings <==> c in s.outgoings.Keys;
      if 0 <= c < n + 1 {
        assert UpTo(n)[c] == c;
      }
    }
  }

  function Turn(n: nat): Tour
  {
    Tour(UpTo(n), CALM, CALM)
  }

  lemma NewestIsGranted(s: State, n: nat, guess: nat)
    requires Newest(s, n, 0) && Asked(s, n) && guess > 0
    ensures Grant(s, n, 0, guess) == 1
  {
    assert Listed(s, n, 0);
    assert FirstRest(s, n, 0) == 1;
  }

  lemma OnlyOneIsGranted(b: Bw, n: ConnId, t: Timeb, fpu: Fpu)
    requires OnlyAccount(b, n, t) && b.maxBw == 10 && Sound(fpu)
    ensures Guess(Recalculated(b, t, fpu), n) > 0
  {
    assert Active(b.states) == {n};
    EveryActiveGuess(b, t, fpu, n);
  }

  /** The turn grants the byte of the new connection. */
  lemma TurnWire(s: State, n: nat, fpu: Fpu)
    requires Inv(s) && BankSound(s) && Desk(s, n + 1) && Newest(s, n, 0) && Asked(s, n) && Sound(fpu)
    requires InWindow(s) == 0 && Guess(Recalculated(s.bws, TimeOf(s), fpu), n) > 0
    ensures n in Idle(s, Turn(n), fpu).conns && |Idle(s, Turn(n), fpu).conns[n].wire| == 1
  {
    UpToVisits(s, n);
    TurnSends(s, Turn(n), fpu, n);
    NewestIsGranted(s, n, Guess(Recalculated(s.bws, TimeOf(s), fpu), n));
  }

  /** And nothing to the closed ones. */
  lemma ClosedWire(s: State, s': State, tour: Tour, fpu: Fpu, c: ConnId)
    requires Inv(s) && BankSound(s) && s.bws.maxBw > 0 && Visits(s, tour.order) && Quiet(tour.second) && Sound(fpu)
    requires ClosedIn(s, c) && s' == Idle(s, tour, fpu)
    ensures c in s'.conns && |s'.conns[c].wire| == |s.conns[c].wire|
  {
    TurnSends(s, tour, fpu, c);
  }

  lemma TurnServes(s: State, n: nat, fpu: Fpu)
    requires Inv(s) && BankSound(s) && Working(s, n) && Sound(fpu)
    ensures Served(Idle(s, Turn(n), fpu), n)
  {
    OnlyOneIsGranted(s.bws, n, TimeOf(s), fpu);
    TurnWire(s, n, fpu);
    UpToVisits(s, n);
    ClosedWires(s, Idle(s, Turn(n), fpu), Turn(n), fpu, n);
    TurnFrame(s, n, fpu);
    TurnKeepsLives(s, Idle(s, Turn(n), fpu), n);
  }

  lemma ClosedWires(s: State, s': State, tour: Tour, fpu: Fpu, n: nat)
    requires Inv(s) && BankSound(s) && s.bws.maxBw > 0 && Visits(s, tour.order) && Quiet(tour.second) && Sound(fpu)
    requires OnePerConn(s, n) && s' == Idle(s, tour, fpu)
    ensures forall c: nat :: c < n ==> c in s'.conns && |s'.conns[c].wire| == 1
  {
    forall c: nat | c < n
      ensures c in s'.conns && |s'.conns[c].wire| == 1
    {
      assert ClosedIn(s, c);
      ClosedWire(s, s', tour, fpu, c);
    }
  }

  lemma TurnFrame(s: State, n: nat, fpu: Fpu)
    requires Inv(s) && Desk(s, n + 1)
    ensures var s' := Idle(s, Turn(n), fpu);
            && Lives(s') == Lives(s) && SameFrame(s, s') && SameTracked(s, s')
            && s'.now == 0 && s'.bws.maxBw == 10 && SameKeys(s, s')
  {
    TurnTakesNoTime(s, UpTo(n), fpu);
    IdleKeepsFrame(s, Turn(n), fpu);
    IdleKeepsLimit(s, Turn(n), fpu);
    IdleTracks(s, Turn(n), fpu);
    TurnKeepsReqs(s, n, fpu);
  }

  lemma TurnKeepsReqs(s: State, n: nat, fpu: Fpu)
    ensures SameKeys(s, Idle(s, Turn(n), fpu))
  {
  }

  lemma TurnKeepsLives(s: State, s': State, n: nat)
    requires Working(s, n) && Lives(s') == Lives(s) && SameFrame(s, s') && SameTracked(s, s')
    requires s'.now == 0 && s'.bws.maxBw == 10 && SameKeys(s, s')
    requires n in s'.conns && |s'.conns[n].wire| == 1
    requires forall c: nat :: c < n ==> c in s'.conns && |s'.conns[c].wire| == 1
    ensures Served(s', n)
  {
    LifeOf(s, s', n);
    forall c: nat | c < n
      ensures ClosedIn(s', c)
    {
      assert ClosedIn(s, c);
      LifeOf(s, s', c);
    }
  }

  lemma ServedAndClosed(s: State, n: nat)
    requires Served(s, n) && !s.crashed
    ensures CloseConn(s, n).queue == [Close(n)] && n in CloseConn(s, n).conns && CloseConn(s, n).conns[n].issued
    ensures Round(PopMessage(CloseConn(s, n)), n + 1)
  {
    Grows(n);
    var s1 := CloseConn(s, n);
    assert s1.queue[1..] == [];
    HandledClosing(s1.(queue := []), n, Close(n));
    CloseShape(s1.(queue := []), n, Close(n));
    ClosedAccount(s1, n);
    ClosedRound(s, PopMessage(s1), n);
  }

  /** The account of the closed connection is gone, and so is what it counted for. */
  lemma ClosedAccount(s: State, n: nat)
    requires n in s.conns && s.conns[n].cbs.state == CsConnected && s.bws.states.Keys == {n} && s.queue == [Close(n)]
    requires s.conns[n].recv && !s.crashed
    ensures PopMessage(s).bws.states == map[] && PopMessage(s).bws.maxBw == s.bws.maxBw
  {
    var s0 := s.(queue := s.queue[1..]);
    ClosingErases(s0, n);
    AfterClosing(CloseConnection(s0, n), n, Close(n), Handle(s0, Close(n)));
    assert Erased(s.bws, n).states.Keys == {};
  }

  lemma ClosedRound(s: State, s': State, n: nat)
    requires Served(s, n)
    requires n in s'.conns && s'.conns == CloseConn(s, n).conns[n := s'.conns[n]]
    requires s'.conns[n] == ClosedBy(CloseConn(s, n).conns[n], Close(n))
    requires s' == s.(conns := s'.conns, bws := s'.bws, counter := s'.counter, crashed := s'.crashed)
    requires s'.bws.states == map[] && s'.bws.maxBw == 10
    ensures Round(s', n + 1)
  {
    Grows(n);
    forall c: nat | c < n + 1
      ensures ClosedIn(s', c) && |s'.conns[c].wire| == 1
    {
      if c < n {
        assert ClosedIn(s, c);
      }
    }
  }

  // ---------- the run ----------

  /** The limit of ten is set first and never lifted. */
  predicate SetOnce(run: seq<Action>)
  {
    |run| > 0 && run[0] == ClientSetsLimit(10) && NeverLifted(run)
  }

  lemma SetOnceMore(run: seq<Action>, a: Action)
    requires SetOnce(run) && !a.ClientSetsLimit?
    ensures SetOnce(run + [a])
  {
    assert (run + [a])[0] == run[0];
  }

  lemma OpenRound(s: State, run: seq<Action>, n: nat) returns (s': State, run': seq<Action>)
    requires Reached(s, START, run) && SetOnce(run) && Round(s, n)
    ensures Reached(s', START, run') && SetOnce(run') && Inv(s') && Working(s', n)
  {
    var run1 := GreetNext(s, run, n);
    var s1 := AcceptConnection(s, Newcomer(n, false, 1));
    AcceptGreets(s, n);
    NextIsFresh(s, n);
    s', run' := OneRequest(s1, START, run1, n, n, [7], false);
    GreetedAndAsked(s, s1, s', n);
    SetOnceMore(run1, ClientSends(n, n, [7], false));
    SetOnceMore(run1 + [ClientSends(n, n, [7], false)], HandlesMessage);
  }

  lemma GreetNext(s: State, run: seq<Action>, n: nat) returns (run': seq<Action>)
    requires Reached(s, START, run) && SetOnce(run) && Desk(s, n)
    ensures Reached(AcceptConnection(s, Newcomer(n, false, 1)), START, run') && SetOnce(run')
  {
    var a := HandlesListener([Newcomer(n, false, 1)]);
    ReachedInv(s, START, run);
    NextIsFresh(s, n);
    AcceptOne(s, Newcomer(n, false, 1));
    ReachedNext(s, START, run, a);
    SetOnceMore(run, a);
    run' := run + [a];
  }

  lemma NextIsFresh(s: State, n: nat)
    requires Desk(s, n)
    ensures n !in s.conns && n !in s.reqs && n !in s.outgoings
    ensures FreshNewcomers(s, [Newcomer(n, false, 1)])
  {
    assert n !in s.conns.Keys && n !in s.reqs.Keys && n !in s.outgoings.Keys;
  }

  lemma ServeRound(s: State, run: seq<Action>, n: nat, fpu: Fpu) returns (s': State, run': seq<Action>)
    requires Reached(s, START, run) && SetOnce(run) && Inv(s) && Working(s, n) && Sound(fpu)
    ensures Reached(s', START, run') && SetOnce(run') && Inv(s') && Served(s', n)
  {
    UpToVisits(s, n);
    ReachedSound(s, START, run);
    TurnServes(s, n, fpu);
    SetOnceMore(run, Idles(Turn(n), fpu));
    s', run' := Step(s, START, run, Idles(Turn(n), fpu));
  }

  lemma CloseIsEnabled(s: State, n: nat)
    requires Newest(s, n, 1) && !s.crashed
    ensures Enabled(s, ClientCloses(n)) && Orderly(s, ClientCloses(n)) && Next(s, ClientCloses(n)) == CloseConn(s, n)
  {
  }

  lemma CloseRound(s: State, run: seq<Action>, n: nat) returns (s': State, run': seq<Action>)
    requires Reached(s, START, run) && SetOnce(run) && Inv(s) && Served(s, n)
    ensures Reached(s', START, run') && SetOnce(run') && Round(s', n + 1)
  {
    ServedAndClosed(s, n);
    CloseIsEnabled(s, n);
    SetOnceMore(run, ClientCloses(n));
    SetOnceMore(run + [ClientCloses(n)], HandlesMessage);
    ReachedNext(s, START, run, ClientCloses(n));
    s' := PopMessage(CloseConn(s, n));
    run' := HandlesClose(CloseConn(s, n), START, run + [ClientCloses(n)], n);
  }

  lemma FirstRound() returns (s: State, run: seq<Action>)
    ensures Reached(s, START, run) && SetOnce(run) && Round(s, 0)
  {
    assert Reached(BLANK, START, []);
    s, run := Step(BLANK, START, [], ClientSetsLimit(10));
  }

  lemma {:induction false} Rounds(n: nat, fpu: Fpu) returns (s: State, run: seq<Action>)
    requires Sound(fpu)
    ensures Reached(s, START, run) && SetOnce(run) && Round(s, n)
  {
    if n == 0 {
      s, run := FirstRound();
    } else {
      var s1, run1 := Rounds(n - 1, fpu);
      var s2, run2 := OpenRound(s1, run1, n - 1);
      var s3, run3 := ServeRound(s2, run2, n - 1, fpu);
      s, run := CloseRound(s3, run3, n - 1);
    }
  }

  // ---------- what they have sent ----------

  lemma {:induction false} EverythingCounts(log: seq<Taken>)
    requires Dated(log, 0, Some(-1))
    ensures Span(Limited(log), 0) == Sizes(log) == LogSpan(log, 0)
  {
    if |log| > 0 {
      var init, last := log[..|log| - 1], log[|log| - 1];
      assert last.limited && Ms(last.t) == 0;
      EverythingCounts(init);
      OneSpanMore(Limited(init), BwRecord(last.t, last.size), 0);
    }
  }

  lemma LimitedFromTheStart(s: State, run: seq<Action>)
    requires Reached(s, START, run) && SetOnce(run)
    ensures Tallied(s, Some(-1))
  {
    var s1 := Next(BLANK, run[0]);
    StepInv(BLANK, run[0]);
    LimitedRunTallies(s1, run[1..], -1);
  }

  lemma RoundAccepted(s: State, n: nat)
    requires Round(s, n) && Tallied(s, Some(-1))
    ensures AcceptedUnderALimit(s, 0) == n == Accepted(s, 0)
  {
    forall c | c in s.conns
      ensures LimitedSpans(s.conns, 0)[c] == 1 == LogSpans(s.conns, 0)[c]
    {
      assert c in Below(n) && ClosedIn(s, c);
      assert TalliedAt(s, c, Some(-1));
      EverythingCounts(s.conns[c].log);
    }
    SumConstantOn(LimitedSpans(s.conns, 0), Below(n), 1);
    SumConstantOn(LogSpans(s.conns, 0), Below(n), 1);
  }

  /**
   For every `n` there is a run under a limit of ten bytes a second, set before anything else and never
   changed, after which the sockets have accepted `n` bytes at one instant: each connection sends one
   byte and is closed, its account is erased, and the next one gets the same budget again.
   */
  lemma AnyNumberOfBytesAtOnce(n: nat, fpu: Fpu) returns (s: State, run: seq<Action>)
    requires Sound(fpu)
    ensures Reached(s, START, run) && SetOnce(run) && s.bws.maxBw == 10 && s.now == START.now
    ensures Accepted(s, s.now) == AcceptedUnderALimit(s, s.now) == ByTheClosed(s, s.now) == n && InSecond(s.bws, s.now) == 0
  {
    s, run := Rounds(n, fpu);
    LimitedFromTheStart(s, run);
    RoundAccepted(s, n);
    TrackedAndClosed(s, START, run, 0);
    NothingTracked(s, 0, 0);
  }
}
