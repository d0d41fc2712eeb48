/** Exactly how long the Linux dispatcher accepts connections. */
module AcceptingProofs {
  import opened Bandwidth
  import opened ClientStepProofs
  import opened Clock
  import opened DispatcherInvariant
  import opened DispatcherState
  import opened DispatcherSteps
  import opened EventStepProofs
  import opened FloatModel
  import opened Ids
  import opened ProgressProofs
  import opened SendStepProofs
  import opened ThreadStepProofs

  // ---------- idle turns leave the frame alone ----------

  lemma {:induction false} SendAllKeepsFrame(s: State, order: seq<ConnId>, limited: bool, w: World)
    requires Inv(s)
    ensures SameFrame(s, SendAll(s, order, limited, w))
    decreases |order|
  {
    if |order| > 0 {
      var guess := GuessFor(s, order[0], limited);
      SendListInv(s, order[0], 0, guess, w);
      SendListKeepsFrame(s, order[0], 0, guess, w);
      SendAllKeepsFrame(SendList(s, order[0], 0, guess, w), order[1..], limited, w);
    }
  }

  lemma LimitedTurnKeepsFrame(s: State, tour: Tour, fpu: Fpu)
    requires Inv(s)
    ensures SameFrame(s, LimitedTurn(s, tour, fpu))
  {
    if s.bws.maxBw == 0 {
      SendAllKeepsFrame(s, tour.order, true, tour.second);
    } else {
      RecalculatedInv(s, fpu);
      SendAllKeepsFrame(s.(bws := Recalculated(s.bws, OfMs(s.now), fpu)), tour.order, true, tour.second);
    }
  }

  lemma IdleKeepsFrame(s: State, tour: Tour, fpu: Fpu)
    requires Inv(s)
    ensures SameFrame(s, Idle(s, tour, fpu))
  {
    SendAllInv(s, tour.order, false, tour.first);
    SendAllKeepsFrame(s, tour.order, false, tour.first);
    LimitedTurnKeepsFrame(if s.bws.maxBw == 0 then SendAll(s, tour.order, false, tour.first) else s, tour, fpu);
  }

  // ---------- what each step does to `accepted` ----------

  /** The step handles the message of a `stop_accepting`. */
  predicate HandlesStop(s: State, a: Action)
  {
    a.HandlesMessage? && |s.queue| > 0 && s.queue[0] == StopAccepting
  }

  lemma ClosingKeepsAccepted(s: State, c: ConnId)
    requires c in s.conns
    ensures CloseConnection(s, c).accepted == s.accepted
  {
  }

  lemma PopAccepted(s: State)
    requires |s.queue| > 0 && Known(s, s.queue[0])
    requires s.queue[0].SendRequest? || s.queue[0].BreakSend? ==> ReqKnown(s, s.queue[0].r)
    ensures PopMessage(s).accepted <==> s.accepted && s.queue[0] != StopAccepting
  {
    var s0, m := s.(queue := s.queue[1..]), s.queue[0];
    if m.Close? || m.CloseWait? {
      CloseShape(s0, m.c, m);
    } else if m.BreakSend? {
      UnrefShape2(s0, Handle(s0, m), m.r, s.reqs[m.r].Reported(false).(broken := true));
    }
  }

  lemma ReadKeepsAccepted(s: State, c: ConnId, res: RecvResult)
    requires c in s.conns
    ensures RecvEvent(s, c, res).accepted == s.accepted
  {
    ClosingKeepsAccepted(WithConn(s, c, s.conns[c].(cbs := DoRecv(s.conns[c].cbs, res).0)), c);
  }

  lemma WriteKeepsAccepted(s: State, c: ConnId, w: World)
    requires Inv(s) && c in s.conns
    ensures WriteEvent(s, c, w).accepted == s.accepted
  {
    var s1 := s.(bws := Switched(s.bws, c, true));
    WriteEventCases(s, c, w);
    BystanderInv(s, s1);
    SendListKeepsFrame(s1, c, 0, None, w);
  }

  lemma EventKeepsAccepted(s: State, e: NetEvent)
    requires Inv(s) && e.c in s.conns
    ensures Event(s, e).accepted == s.accepted
  {
    var s0 := Delivered(s, e.c, e.write);
    DeliveredInv(s, e.c, e.write);
    ClosingKeepsAccepted(s0, e.c);
    WriteKeepsAccepted(s0, e.c, e.w);
    ReadKeepsAccepted(if e.write then WriteEvent(s0, e.c, e.w) else s0, e.c, e.res);
  }

  /** While accepting goes on every newcomer becomes a connection, and afterwards none does. */
  lemma {:induction false} NewcomersAccepted(s: State, news: seq<Newcomer>)
    requires forall i :: 0 <= i < |news| ==> news[i].c !in s.conns
    ensures AcceptAll(s, news).accepted == s.accepted
    ensures AcceptAll(s, news).conns.Keys == s.conns.Keys + if s.accepted then set i | 0 <= i < |news| :: news[i].c else {}
  {
    if |news| > 0 {
      var init := news[..|news| - 1];
      NewcomersAccepted(s, init);
      assert forall i :: 0 <= i < |init| ==> init[i] == news[i];
    }
  }

  lemma ClientKeepsAccepted(s: State, a: Action)
    requires Enabled(s, a)
    requires !a.HandlesMessage? && !a.HandlesEvent? && !a.HandlesListener? && !a.Idles?
    ensures Next(s, a).accepted == s.accepted
  {
    if a.ClientReleasesReq? {
      UnrefShape2(s, Next(s, a), a.r, s.reqs[a.r].(clientRef := false));
    }
  }

  lemma ThreadKeepsAccepted(s: State, a: Action)
    requires Inv(s) && Enabled(s, a) && (a.HandlesEvent? || a.HandlesListener? || a.Idles?)
    ensures Next(s, a).accepted == s.accepted
  {
    match a
    case HandlesEvent(e) => EventKeepsAccepted(s, e);
    case HandlesListener(news) => NewcomersAccepted(s, news);
    case Idles(tour, fpu) => IdleKeepsFrame(s, tour, fpu);
  }

  lemma StepAccepted(s: State, a: Action)
    requires Inv(s) && Enabled(s, a)
    ensures Next(s, a).accepted <==> s.accepted && !HandlesStop(s, a)
  {
    if a.HandlesMessage? {
      NextMessageKnown(s);
      PopAccepted(s);
    } else if a.HandlesEvent? || a.HandlesListener? || a.Idles? {
      ThreadKeepsAccepted(s, a);
    } else {
      ClientKeepsAccepted(s, a);
    }
  }

  // ---------- runs ----------

  /** Somewhere in the run the message of a `stop_accepting` is handled. */
  ghost predicate StopHandled(s: State, run: seq<Action>)
    requires ValidRun(s, run)
    decreases |run|
  {
    |run| > 0 && (HandlesStop(s, run[0]) || StopHandled(Next(s, run[0]), run[1..]))
  }

  lemma {:induction false} RunAccepted(s: State, run: seq<Action>)
    requires Inv(s) && OrderlyRun(s, run) && ValidRun(s, run)
    ensures After(s, run).accepted <==> s.accepted && !StopHandled(s, run)
    decreases |run|
  {
    if |run| > 0 {
      StepInv(s, run[0]);
      StepAccepted(s, run[0]);
      RunAccepted(Next(s, run[0]), run[1..]);
    }
  }

  /** After any run, newcomers are accepted exactly when no message of a `stop_accepting` has been handled in it. */
  lemma AcceptedExactlyUntilTheStop(s: State, start: Start, run: seq<Action>, news: seq<Newcomer>)
    requires Reached(s, start, run) && FreshNewcomers(s, news) && news != []
    ensures ValidRun(Initial(start), run) && Enabled(s, HandlesListener(news))
    ensures (forall i :: 0 <= i < |news| ==> news[i].c in Next(s, HandlesListener(news)).conns) <==> !StopHandled(Initial(start), run)
    ensures StopHandled(Initial(start), run) ==> Next(s, HandlesListener(news)).conns.Keys == s.conns.Keys
  {
    ReachedInv(s, start, run);
    InitialInv(start.total, start.unset, start.now);
    RunAccepted(Initial(start), run);
    NewcomersAccepted(s, news);
    assert news[0].c !in s.conns;
  }
}
