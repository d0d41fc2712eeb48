/**
 The wake-up protocol: any number of threads push a message and then stop the reactor, one
 thread takes a token and then pops a message. The two halves of either side interleave freely.
 */
module WakeUpProtocol {
  import opened Reactors

  datatype Consumer = Waiting | Awake | Exited

  /** `pushed` and `popped` are the history of the queue; `posting` are threads between push and stop. */
  datatype Protocol<M> = Protocol(
    queue: seq<M>,
    reactor: Reactor,
    posting: set<ThreadId>,
    consumer: Consumer,
    pushed: seq<M>,
    popped: seq<M>,
    exit: M)

  datatype Action<M> = Push(t: ThreadId, m: M) | Stop(t: ThreadId) | TakeToken | TimeOut | Pop

  ghost predicate Enabled<M>(p: Protocol<M>, a: Action<M>)
  {
    match a
    case Push(t, _) => t !in p.posting
    case Stop(t) => t in p.posting
    case TakeToken => p.consumer == Waiting && p.reactor.tokens > 0
    case TimeOut => p.consumer == Waiting && p.reactor.tokens == 0
    case Pop => p.consumer == Awake
  }

  ghost function Next<M>(p: Protocol<M>, a: Action<M>): Protocol<M>
    requires Enabled(p, a)
  {
    match a
    case Push(t, m) => p.(queue := p.queue + [m], pushed := p.pushed + [m], posting := p.posting + {t})
    case Stop(t) => p.(reactor := p.reactor.Stopped(t), posting := p.posting - {t})
    case TakeToken => p.(reactor := p.reactor.TokenTaken(), consumer := Awake)
    case TimeOut => p
    case Pop =>
      if |p.queue| == 0 then p.(consumer := Waiting)
      else
        p.(queue := p.queue[1..],
           popped := p.popped + [p.queue[0]],
           consumer := if p.queue[0] == p.exit then Exited else Waiting)
  }

  ghost predicate Initial<M(!new)>(p: Protocol<M>)
  {
    && p.queue == p.pushed == p.popped == []
    && p.reactor.tokens == 0 && p.posting == {} && p.consumer == Waiting
  }

  ghost predicate ValidRun<M>(p: Protocol<M>, run: seq<Action<M>>)
    decreases |run|
  {
    |run| == 0 || (Enabled(p, run[0]) && ValidRun(Next(p, run[0]), run[1..]))
  }

  ghost function After<M>(p: Protocol<M>, run: seq<Action<M>>): Protocol<M>
    requires ValidRun(p, run)
    decreases |run|
  {
    if |run| == 0 then p else After(Next(p, run[0]), run[1..])
  }

  /** Every message in the queue is announced by a token, by the thread about to write one, or by the consumer's waking. */
  ghost predicate Balanced<M>(p: Protocol<M>)
  {
    |p.queue| == p.reactor.tokens + |p.posting| + if p.consumer == Awake then 1 else 0
  }

  /** Messages leave in the order they came, none twice, and nothing is popped after the exit. */
  ghost predicate InOrder<M(!new)>(p: Protocol<M>)
  {
    && p.pushed == p.popped + p.queue
    && (forall i :: 0 <= i < |p.popped| - 1 ==> p.popped[i] != p.exit)
    && (p.consumer == Exited <==> |p.popped| > 0 && p.popped[|p.popped| - 1] == p.exit)
  }

  /** One step keeps the balance, except a stop by a thread the pipe ignores. */
  lemma StepBalance<M(!new)>(p: Protocol<M>, a: Action<M>)
    requires Enabled(p, a) && Balanced(p)
    ensures Balanced(Next(p, a)) <==> !(a.Stop? && p.reactor.Ignores(a.t))
  {
    match a {
      case Push(t, m) =>
      case Stop(t) =>
        assert |p.posting - {t}| == |p.posting| - 1;
      case TakeToken =>
      case TimeOut =>
      case Pop =>
    }
  }

  lemma StepOrder<M(!new)>(p: Protocol<M>, a: Action<M>)
    requires Enabled(p, a) && InOrder(p)
    ensures InOrder(Next(p, a))
  {
    if a.Pop? && p.queue != [] {
      assert p.queue == [p.queue[0]] + p.queue[1..];
    }
  }

  /** No thread that posts is one the reactor ignores. */
  ghost predicate NobodyIgnored<M(!new)>(p: Protocol<M>, run: seq<Action<M>>)
  {
    forall i :: 0 <= i < |run| && run[i].Stop? ==> !p.reactor.Ignores(run[i].t)
  }

  lemma StepKeepsTheThreads<M(!new)>(p: Protocol<M>, a: Action<M>)
    requires Enabled(p, a)
    ensures forall t :: Next(p, a).reactor.Ignores(t) == p.reactor.Ignores(t)
    ensures Next(p, a).exit == p.exit
  {
  }

  /**
   Tokens match messages after every run and under every interleaving, so a token never finds
   an empty queue; what was pushed is what was popped followed by what is still queued.
   */
  lemma {:induction false} TokensMatchMessages<M(!new)>(p: Protocol<M>, run: seq<Action<M>>)
    requires ValidRun(p, run) && NobodyIgnored(p, run)
    requires Balanced(p) && InOrder(p)
    ensures Balanced(After(p, run)) && InOrder(After(p, run))
    ensures After(p, run).consumer == Awake ==> After(p, run).queue != []
    decreases |run|
  {
    if |run| > 0 {
      StepBalance(p, run[0]);
      StepOrder(p, run[0]);
      StepKeepsTheThreads(p, run[0]);
      var next, rest := Next(p, run[0]), run[1..];
      forall i | 0 <= i < |rest| && rest[i].Stop?
        ensures !next.reactor.Ignores(rest[i].t)
      {
        assert rest[i] == run[i + 1];
      }
      TokensMatchMessages(next, rest);
    }
  }

  lemma InitialIsBalanced<M(!new)>(p: Protocol<M>)
    requires Initial(p)
    ensures Balanced(p) && InOrder(p)
  {
  }

  /** No message is stranded: when nobody is posting and no token is left, the consumer has popped everything. */
  lemma NothingIsStranded<M(!new)>(p: Protocol<M>, run: seq<Action<M>>)
    requires Initial(p) && ValidRun(p, run) && NobodyIgnored(p, run)
    ensures var q := After(p, run);
            q.reactor.tokens == 0 && q.posting == {} && q.consumer != Awake ==> q.popped == q.pushed
  {
    InitialIsBalanced(p);
    TokensMatchMessages(p, run);
    assert After(p, run).popped + [] == After(p, run).popped;
  }

  /**
   The dispatchers register no thread with the pipe, and the port ignores none of those registered
   with it: whoever posts, no message is stranded.
   */
  lemma DispatchersStrandNothing<M(!new)>(p: Protocol<M>, run: seq<Action<M>>)
    requires Initial(p) && ValidRun(p, run)
    requires p.reactor.LinuxPipe? ==> p.reactor.threads == {}
    ensures var q := After(p, run);
            q.reactor.tokens == 0 && q.posting == {} && q.consumer != Awake ==> q.popped == q.pushed
  {
    NothingIsStranded(p, run);
  }

  /** A thread registered with the pipe would strand its message: one push and one stop suffice. */
  lemma AnIgnoredThreadStrandsItsMessage<M(!new)>(p: Protocol<M>, t: ThreadId, m: M)
    requires Initial(p) && p.reactor.Ignores(t)
    ensures ValidRun(p, [Push(t, m), Stop(t)])
    ensures var q := After(p, [Push(t, m), Stop(t)]);
            q.reactor.tokens == 0 && q.posting == {} && q.consumer == Waiting && q.queue == [m]
  {
    var run := [Push(t, m), Stop(t)];
    var mid := Next(p, run[0]);
    assert run[1..] == [Stop(t)];
    assert ValidRun(mid, run[1..]);
    assert {t} - {t} == {};
    assert After(mid, run[1..]) == After(Next(mid, Stop(t)), []);
  }
}
