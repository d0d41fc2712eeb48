/** The rate bound over whole runs. */
module RateRunProofs {
  import opened Bandwidth
  import opened BandwidthTheorems
  import opened CalmStepProofs
  import opened Clock
  import opened DispatcherInvariant
  import opened DispatcherState
  import opened DispatcherSteps
  import opened EventStepProofs
  import opened FloatModel
  import opened Ids
  import opened LedgerProofs
  import opened RateBoundProofs
  import opened SpanProofs
  import opened TrackingProofs

  // ---------- the limiter's books are sound in every run ----------

  ghost predicate BankSound(s: State)
  {
    BankOk(s) && InWindow(s) < TWO_TO_THE_32
  }

  /** Time may pass while the accounts stay as they are. */
  lemma SameAccountsSound(s: State, s': State)
    requires BankSound(s) && s'.bws == s.bws && s.now <= s'.now
    ensures BankSound(s') && InWindow(s') <= InWindow(s)
  {
    MsOfMs(s.now);
    MsOfMs(s'.now);
    LaterNoMore(s.bws, TimeOf(s), TimeOf(s'));
  }

  lemma CalmSound(s: State, s': State)
    requires BankSound(s) && Calm(s, s')
    ensures BankSound(s') && InWindow(s') <= InWindow(s)
  {
  }

  lemma FreeWriteSound(s: State, c: ConnId, w: World)
    requires BankSound(s) && c in s.conns && s.bws.maxBw == 0 && !ClosedIn(s, c)
    ensures BankSound(WriteEvent(s, c, w)) && InWindow(WriteEvent(s, c, w)) <= InWindow(s)
  {
    if s.conns[c].cbs.connected {
      EstablishedCalm(s, c);
      CalmSound(s, ConnectionEstablished(s, c));
    } else {
      var s1 := s.(bws := Switched(s.bws, c, true));
      FreeListKeepsAccounts(s1, c, 0, None, w);
      SameAccountsSound(s, SendList(s1, c, 0, None, w));
    }
  }

  lemma FreeEventSound(s: State, e: NetEvent)
    requires BankSound(s) && e.c in s.conns && s.bws.maxBw == 0 && !ClosedIn(s, e.c)
    ensures BankSound(Event(s, e)) && InWindow(Event(s, e)) <= InWindow(s)
  {
    var s0 := Delivered(s, e.c, e.write);
    SameAccountsSound(s, s0);
    CloseCalm(s0, e.c);
    FreeWriteSound(s0, e.c, e.w);
    var s1 := if e.write then WriteEvent(s0, e.c, e.w) else s0;
    RecvEventCalm(s1, e.c, e.res);
  }

  lemma IdleSound(s: State, tour: Tour, fpu: Fpu)
    requires Inv(s) && BankSound(s) && Visits(s, tour.order) && Sound(fpu)
    ensures BankSound(Idle(s, tour, fpu))
    ensures InWindow(Idle(s, tour, fpu)) <= InWindow(s) || InWindow(Idle(s, tour, fpu)) <= s.bws.maxBw
  {
    if s.bws.maxBw == 0 {
      FreeIdleKeepsAccounts(s, tour, fpu);
      SameAccountsSound(s, Idle(s, tour, fpu));
    } else if InWindow(s) <= s.bws.maxBw {
      VisitsOnce(s, tour);
      IdleWithinTheLimit(s, tour, fpu);
    } else {
      IdleAboveTheLimit(s, tour, fpu);
    }
  }

  /** Whatever the limit, a step adds to the window only what still fits the limit. */
  lemma StepSound(s: State, a: Action)
    requires Inv(s) && BankSound(s) && Enabled(s, a)
    ensures BankSound(Next(s, a))
    ensures InWindow(Next(s, a)) <= InWindow(s) || InWindow(Next(s, a)) <= s.bws.maxBw
  {
    if a.Idles? {
      IdleSound(s, a.tour, a.fpu);
    } else if a.HandlesEvent? && s.bws.maxBw == 0 {
      FreeEventSound(s, a.e);
    } else {
      AnyLimitCalm(s, a);
      CalmSound(s, Next(s, a));
    }
  }

  lemma AnyLimitCalm(s: State, a: Action)
    requires Inv(s) && BankOk(s) && Enabled(s, a) && !a.Idles?
    requires a.HandlesEvent? ==> s.bws.maxBw > 0
    ensures Calm(s, Next(s, a))
  {
    if a.HandlesMessage? {
      MessageCalm(s);
    } else if a.HandlesEvent? {
      EventCalm(s, a.e);
    } else if a.HandlesListener? {
      AcceptAllCalm(s, a.news);
    } else {
      ClientCalm(s, a);
    }
  }

  // ---------- runs under a limit ----------

  /** Nobody lifts the limit or sets one above `b`. */
  predicate LimitsUpTo(run: seq<Action>, b: nat)
  {
    forall i :: 0 <= i < |run| && run[i].ClientSetsLimit? ==> 0 < run[i].bytes <= b
  }

  /** Nobody sets another limit. */
  predicate LimitStays(run: seq<Action>)
  {
    forall i :: 0 <= i < |run| ==> !run[i].ClientSetsLimit?
  }

  /** The window, and every second that ends at `from` or later, hold at most `b`. */
  ghost predicate Within(s: State, from: int, b: nat)
  {
    InWindow(s) <= b && Level(s.bws, from, b)
  }

  lemma StepStaysWithin(s: State, a: Action, from: int, b: nat)
    requires Inv(s) && BankSound(s) && Enabled(s, a) && 0 < s.bws.maxBw <= b && Within(s, from, b)
    ensures Within(Next(s, a), from, b)
  {
    StepSound(s, a);
    if a.Idles? {
      VisitsOnce(s, a.tour);
      IdleLevel(s, a.tour, a.fpu, from, b);
    } else {
      AnyLimitCalm(s, a);
      NoMoreLevel(s.bws, TimeOf(s), Next(s, a).bws, TimeOf(Next(s, a)), from, b);
    }
  }

  /** Once within `b`, every run whose limits are at most `b` stays within it. */
  lemma {:induction false} RunStaysWithin(s: State, run: seq<Action>, from: int, b: nat)
    requires Inv(s) && BankSound(s) && OrderlyRun(s, run) && LimitsUpTo(run, b)
    requires 0 < s.bws.maxBw <= b && Within(s, from, b)
    ensures ValidRun(s, run) && BankSound(After(s, run)) && Within(After(s, run), from, b)
    decreases |run|
  {
    if |run| > 0 {
      StepInv(s, run[0]);
      StepSound(s, run[0]);
      StepKeepsLimit(s, run[0]);
      StepStaysWithin(s, run[0], from, b);
      RunStaysWithin(Next(s, run[0]), run[1..], from, b);
    }
  }

  /** No socket has been given a byte, neither those of before nor those that have come since. */
  ghost predicate NothingSent(s: State, s': State)
  {
    && (forall c :: c in s.conns ==> c in s'.conns && s'.conns[c].wire == s.conns[c].wire)
    && (forall c :: c in s'.conns && c !in s.conns ==> s'.conns[c].wire == [])
  }

  /** Above the limit no step sends anything. */
  lemma StepAboveTheLimit(s: State, a: Action)
    requires Inv(s) && BankSound(s) && Enabled(s, a)
    requires 0 < s.bws.maxBw < InWindow(s)
    ensures NothingSent(s, Next(s, a)) && InWindow(Next(s, a)) <= InWindow(s)
  {
    if a.Idles? {
      IdleAboveTheLimit(s, a.tour, a.fpu);
    } else {
      AnyLimitCalm(s, a);
      CalmSound(s, Next(s, a));
      CalmSendsNothing(s, Next(s, a));
    }
  }

  lemma CalmSendsNothing(s: State, s': State)
    requires Calm(s, s')
    ensures NothingSent(s, s')
  {
    forall c | c in s.conns
      ensures c in s'.conns && s'.conns[c].wire == s.conns[c].wire
    {
      assert CalmAt(s, s', c);
    }
    forall c | c in s'.conns && c !in s.conns
      ensures s'.conns[c].wire == []
    {
      assert CalmAt(s, s', c);
    }
  }

  lemma WindowLevel(s: State, b: nat)
    requires InWindow(s) <= b
    ensures Within(s, s.now, b)
  {
    MsOfMs(s.now);
    forall end: int | s.now <= end
      ensures InSecond(s.bws, end) <= b
    {
      LaterSeconds(s.bws, TimeOf(s), end);
    }
  }

  /** Once the limit has been lowered below the window, nothing is sent as long as the window exceeds it. */
  lemma {:induction false} RunAboveTheLimit(s: State, run: seq<Action>)
    requires Inv(s) && BankSound(s) && OrderlyRun(s, run) && LimitStays(run) && s.bws.maxBw > 0
    ensures ValidRun(s, run) && BankSound(After(s, run))
    ensures After(s, run).bws.maxBw == s.bws.maxBw
    ensures InWindow(After(s, run)) > s.bws.maxBw ==> NothingSent(s, After(s, run))
    decreases |run|
  {
    if |run| > 0 {
      var s1 := Next(s, run[0]);
      StepInv(s, run[0]);
      StepSound(s, run[0]);
      StepKeepsLimit(s, run[0]);
      RunAboveTheLimit(s1, run[1..]);
      if InWindow(s) > s.bws.maxBw {
        StepAboveTheLimit(s, run[0]);
      } else {
        WindowLevel(s, s.bws.maxBw);
        RunStaysWithin(s, run, s.now, s.bws.maxBw);
      }
    }
  }

  // ---------- from the start ----------

  lemma InitialSound(start: Start)
    ensures BankSound(Initial(start)) && InWindow(Initial(start)) == 0
  {
    assert FullWindows(map[], TimeOf(Initial(start))) == map[];
  }

  lemma {:induction false} RunSound(s: State, run: seq<Action>)
    requires Inv(s) && BankSound(s) && OrderlyRun(s, run)
    ensures ValidRun(s, run) && BankSound(After(s, run))
    decreases |run|
  {
    if |run| > 0 {
      StepInv(s, run[0]);
      StepSound(s, run[0]);
      RunSound(Next(s, run[0]), run[1..]);
    }
  }

  /** In every reachable state each account agrees with its whole history and the windows fit 32 bits. */
  lemma ReachedSound(s: State, start: Start, run: seq<Action>)
    requires Reached(s, start, run)
    ensures BankSound(s)
  {
    InitialInv(start.total, start.unset, start.now);
    InitialSound(start);
    RunSound(Initial(start), run);
  }

  /**
   The rate bound. Take any reachable state with a limit and a window of at most `b` bytes. Whatever
   clients, kernel, clock and arithmetic do from there on, as long as the limit is not lifted and stays
   at most `b`, the tracked connections have at most `b` bytes in every second that ends then or later,
   at whatever instant it ends, inside a walk or not.
   */
  lemma RateBound(mid: State, start: Start, before: seq<Action>, more: seq<Action>, b: nat)
    requires Reached(mid, start, before) && 0 < mid.bws.maxBw <= b && InWindow(mid) <= b
    requires OrderlyRun(mid, more) && LimitsUpTo(more, b)
    ensures ValidRun(mid, more) && InWindow(After(mid, more)) <= b
    ensures forall end: int :: mid.now <= end ==> InSecond(After(mid, more).bws, end) <= b
  {
    ReachedInv(mid, start, before);
    ReachedSound(mid, start, before);
    WindowLevel(mid, b);
    RunStaysWithin(mid, more, mid.now, b);
  }

  lemma NothingTracked(s: State, from: int, b: nat)
    requires s.bws.states == map[]
    ensures Within(s, from, b)
  {
    assert FullWindows(map[], TimeOf(s)) == map[];
    forall end: int | from <= end
      ensures InSecond(s.bws, end) <= b
    {
      assert Spans(map[], end) == map[];
    }
  }

  /** A limit set while nobody is tracked, as before the first connection, holds for every second whatsoever. */
  lemma FirstLimit(s: State, start: Start, before: seq<Action>, b: uint32, run: seq<Action>)
    requires Reached(s, start, before) && s.bws.states == map[] && b > 0
    requires OrderlyRun(WithLimit(s, b), run) && LimitsUpTo(run, b)
    ensures ValidRun(WithLimit(s, b), run) && InWindow(After(WithLimit(s, b), run)) <= b
    ensures forall end: int :: InSecond(After(WithLimit(s, b), run).bws, end) <= b
  {
    ReachedInv(s, start, before);
    ReachedSound(s, start, before);
    StepInv(s, ClientSetsLimit(b));
    StepSound(s, ClientSetsLimit(b));
    RunInv(WithLimit(s, b), run);
    forall end: int
      ensures InSecond(After(WithLimit(s, b), run).bws, end) <= b && InWindow(After(WithLimit(s, b), run)) <= b
    {
      NothingTracked(WithLimit(s, b), end, b);
      RunStaysWithin(WithLimit(s, b), run, end, b);
    }
  }

  /**
   Lowering the limit to `b`: from any reachable state on, nothing is sent as long as the window
   exceeds `b`; and once the window is within `b`, so is every second that ends then or later.
   */
  lemma LoweredLimit(s: State, start: Start, before: seq<Action>, b: uint32, first: seq<Action>, more: seq<Action>)
    requires Reached(s, start, before) && b > 0
    requires OrderlyRun(WithLimit(s, b), first) && LimitStays(first)
    requires ValidRun(WithLimit(s, b), first)
    requires OrderlyRun(After(WithLimit(s, b), first), more) && LimitsUpTo(more, b)
    requires ValidRun(After(WithLimit(s, b), first), more)
    ensures var low := WithLimit(s, b);
            var mid := After(low, first);
            && (InWindow(mid) > b ==> NothingSent(low, mid))
            && (InWindow(mid) <= b ==> Within(After(mid, more), mid.now, b))
  {
    var low := WithLimit(s, b);
    ReachedInv(s, start, before);
    ReachedSound(s, start, before);
    StepInv(s, ClientSetsLimit(b));
    StepSound(s, ClientSetsLimit(b));
    RunAboveTheLimit(low, first);
    RunInv(low, first);
    if InWindow(After(low, first)) <= b {
      WindowLevel(After(low, first), b);
      RunStaysWithin(After(low, first), more, After(low, first).now, b);
    }
  }
}
