/** The bandwidth limiter as an object updated in place. */
module BandwidthLimiter {
  import opened Bandwidth
  import opened Clock
  import opened FloatModel
  import opened Ids
  import opened MapSums

  class Bwstop {
    var maxBw: uint32
    var curBw: uint32
    var states: map<ConnId, BwState>
    const unset: uint32
    var gone: map<ConnId, seq<BwRecord>>

    ghost function Abs(): Bw
      reads this
    {
      Bw(maxBw, curBw, states, unset, gone)
    }

    constructor (limit: uint32, unset: uint32)
      ensures Abs() == NewBw(limit, curBw, unset)
    {
      maxBw := limit;
      states, gone := map[], map[];
      this.unset := unset;
    }

    method SetLimit(bytes: uint32)
      modifies this
      ensures Abs() == old(Abs()).(maxBw := bytes)
    {
      maxBw := bytes;
    }

    method Find(c: ConnId)
      modifies this
      ensures Abs() == Opened(old(Abs()), c) && c in states
    {
      if c !in states {
        states := states[c := BwState([], true, 0, unset, [])];
      }
    }

    method On(c: ConnId)
      modifies this
      ensures Abs() == Switched(old(Abs()), c, true)
    {
      if maxBw == 0 {
        return;
      }
      if c in states {
        states := states[c := states[c].(active := true)];
      }
    }

    method Off(c: ConnId)
      modifies this
      ensures Abs() == Switched(old(Abs()), c, false)
    {
      if maxBw == 0 {
        return;
      }
      if c in states {
        states := states[c := states[c].(active := false)];
      }
    }

    method Insert(c: ConnId, size: uint32, now: Timeb)
      modifies this
      ensures Abs() == Inserted(old(Abs()), c, size, now)
    {
      if maxBw == 0 {
        return;
      }
      Find(c);
      var record := BwRecord(now, size);
      var st := states[c];
      states := states[c := st.(records := st.records + [record], inserted := st.inserted + [record])];
    }

    method Erase(c: ConnId)
      modifies this
      ensures Abs() == Erased(old(Abs()), c)
    {
      if c in states {
        gone := gone[c := (if c in gone then gone[c] else []) + states[c].inserted];
        states := states - {c};
      }
    }

    method GuessOf(c: ConnId) returns (guess: uint32)
      ensures guess == Guess(Abs(), c)
    {
      if c in states {
        return states[c].guess;
      }
      return 0;
    }

    /** One account of the counting loop: sums the valid records and remembers the last expired one. */
    static method CountWindow(records: seq<BwRecord>, now: Timeb) returns (sum: uint32, kept: seq<BwRecord>)
      ensures sum == Wrap(WindowSum(records, now))
      ensures kept == Pruned(records, now)
    {
      sum := 0;
      var unused, zed := false, 0;
      var i := 0;
      while i < |records|
        invariant 0 <= i <= |records|
        invariant sum == Wrap(WindowSum(records[..i], now))
        invariant ExpiredEnd(records[..i], now) == if unused then zed + 1 else 0
        invariant unused ==> 0 <= zed < i
      {
        assert records[..i + 1][..i] == records[..i];
        if !Expired(records[i].t, now) {
          sum := Wrap(sum + records[i].size);
        } else {
          zed := i;
          unused := true;
        }
        i := i + 1;
      }
      assert records[..i] == records;
      kept := if unused then records[zed..] else records;
    }

    /** Counts every window, finds the least served, and splits the slack; true when the limit is exceeded. */
    method Recalc(now: Timeb, fpu: Fpu) returns (exceeded: bool)
      modifies this
      ensures maxBw == 0 ==> Abs() == old(Abs()) && !exceeded
      ensures maxBw > 0 ==> Abs() == Recalculated(old(Abs()), now, fpu) && exceeded == (curBw > maxBw)
    {
      if maxBw == 0 {
        return false;
      }
      var minBw, minCount := CountAll(now);
      var split := MakeSplit(maxBw, curBw, minBw, minCount, fpu);
      SplitAll(split, fpu);
      exceeded := curBw > maxBw;
    }

    /** The part of the counting loop that looks for the least served. */
    static method Search(st: BwState, minBw: uint32, minCount: nat,
                         ghost counted: map<ConnId, BwState>, ghost c: ConnId, ghost cap: uint32)
      returns (minBw': uint32, minCount': nat)
      requires c !in counted && Found(counted, cap, minBw, minCount)
      ensures Found(counted[c := st], cap, minBw', minCount')
    {
      SearchStep(counted, c, st, cap, minBw, minCount);
      minBw', minCount' := minBw, minCount;
      if !st.active {
        return;
      }
      if minBw == st.curBw {
        minCount' := minCount + 1;
      }
      if minBw > st.curBw {
        minBw' := st.curBw;
        minCount' := 1;
      }
    }

    /** The part of the counting loop that sums the windows. */
    method Count(c: ConnId, now: Timeb, ghost windows: map<ConnId, nat>)
      requires c in states && c !in windows
      requires curBw == Wrap(Sum(windows))
      modifies `states, `curBw
      ensures states == old(states)[c := Counted(old(states)[c], now)]
      ensures curBw == Wrap(Sum(windows[c := WindowSum(old(states)[c].records, now)]))
    {
      var st := states[c];
      var sum, kept := CountWindow(st.records, now);
      CountedShape(st, now, kept, sum);
      states := states[c := st.(records := kept, curBw := sum, guess := 0)];
      GrandTotal(windows, c, WindowSum(st.records, now), curBw, sum);
      curBw := Wrap(curBw + sum);
    }

    /** The counting loop over all accounts, in whatever order the map gives them. */
    method CountAll(now: Timeb) returns (minBw: uint32, minCount: nat)
      modifies `states, `curBw
      ensures states == CountedAll(old(states), now)
      ensures curBw == Wrap(Sum(Windows(old(states), now)))
      ensures Found(states, maxBw, minBw, minCount)
    {
      minBw, minCount := maxBw, 0;
      curBw := 0;
      ghost var was := states;
      ghost var counted: map<ConnId, BwState> := map[];
      ghost var windows: map<ConnId, nat> := map[];
      var todo := states.Keys;
      while todo != {}
        invariant todo <= was.Keys
        invariant states == was + counted
        invariant CountedSoFar(was, was.Keys - todo, counted, windows, now)
        invariant curBw == Wrap(Sum(windows))
        invariant Found(counted, maxBw, minBw, minCount)
        decreases todo
      {
        var c :| c in todo;
        assert states[c] == was[c];
        Count(c, now, windows);
        MergeUpdate(was, counted, c, Counted(was[c], now));
        CountedStep(was, was.Keys - todo, counted, windows, c, now);
        windows := windows[c := WindowSum(was[c].records, now)];
        minBw, minCount := Search(states[c], minBw, minCount, counted, c, maxBw);
        counted := counted[c := Counted(was[c], now)];
        assert was.Keys - (todo - {c}) == was.Keys - todo + {c};
        todo := todo - {c};
      }
      assert was.Keys - {} == was.Keys;
      AllCounted(was, counted, windows, now);
      assert was + counted == counted;
    }

    /** The splitting loop over all accounts; it divides by the count of the least served without looking. */
    method SplitAll(split: Split, fpu: Fpu)
      requires split.minCount == |Weakest(states, split.minBw)|
      modifies `states
      ensures states == GuessedAll(old(states), split, fpu)
    {
      ghost var was := states;
      var todo := states.Keys;
      while todo != {}
        invariant states.Keys == was.Keys && todo <= was.Keys
        invariant forall c :: c in todo ==> states[c] == was[c]
        invariant forall c :: c in was.Keys - todo ==> states[c] == was[c].(guess := split.GuessFor(was[c], fpu))
        decreases todo
      {
        var c :| c in todo;
        if states[c].active {
          var guess := split.ShareOf(states[c], fpu);
          if split.minBw == states[c].curBw {
            assert c in Weakest(was, split.minBw);
            guess := Wrap(guess + split.bonus / split.minCount);
          }
          states := states[c := states[c].(guess := guess)];
        }
        todo := todo - {c};
      }
    }
  }

  lemma CountedShape(st: BwState, now: Timeb, kept: seq<BwRecord>, sum: uint32)
    requires kept == Pruned(st.records, now) && sum == Wrap(WindowSum(st.records, now))
    ensures st.(records := kept, curBw := sum, guess := 0) == Counted(st, now)
  {
  }

  lemma GrandTotal(windows: map<ConnId, nat>, c: ConnId, window: nat, total: uint32, sum: uint32)
    requires c !in windows && total == Wrap(Sum(windows)) && sum == Wrap(window)
    ensures Wrap(total + sum) == Wrap(Sum(windows[c := window]))
  {
    SumUpdate(windows, c, window);
    WrapAdds(Sum(windows), window);
  }

  lemma MergeUpdate<V>(was: map<ConnId, V>, counted: map<ConnId, V>, c: ConnId, v: V)
    ensures (was + counted)[c := v] == was + counted[c := v]
  {
  }

  /** The accounts in `done` have been counted. */
  ghost predicate CountedSoFar(was: map<ConnId, BwState>, done: set<ConnId>,
                               counted: map<ConnId, BwState>, windows: map<ConnId, nat>, now: Timeb)
  {
    && counted.Keys == windows.Keys == done
    && done <= was.Keys
    && (forall c :: c in done ==> counted[c] == Counted(was[c], now))
    && (forall c :: c in done ==> windows[c] == WindowSum(was[c].records, now))
  }

  lemma CountedStep(was: map<ConnId, BwState>, done: set<ConnId>,
                    counted: map<ConnId, BwState>, windows: map<ConnId, nat>, c: ConnId, now: Timeb)
    requires CountedSoFar(was, done, counted, windows, now)
    requires c in was && c !in done
    ensures CountedSoFar(was, done + {c}, counted[c := Counted(was[c], now)],
                         windows[c := WindowSum(was[c].records, now)], now)
  {
  }

  lemma AllCounted(was: map<ConnId, BwState>, counted: map<ConnId, BwState>, windows: map<ConnId, nat>, now: Timeb)
    requires CountedSoFar(was, was.Keys, counted, windows, now)
    ensures counted == CountedAll(was, now) && windows == Windows(was, now)
  {
    var all := CountedAll(was, now);
    assert all.Keys == counted.Keys;
    forall c | c in counted
      ensures counted[c] == all[c]
    {
    }
    assert counted == all;
  }

  /** The windows of the active accounts. */
  ghost function ActiveWindows(states: map<ConnId, BwState>): set<nat>
  {
    set c | c in Active(states) :: states[c].curBw
  }

  lemma ActiveWindowsStep(states: map<ConnId, BwState>, c: ConnId, st: BwState)
    requires c !in states
    ensures ActiveWindows(states[c := st]) == ActiveWindows(states) + if st.active then {st.curBw} else {}
  {
    var next := states[c := st];
    forall v | v in ActiveWindows(states)
      ensures v in ActiveWindows(next)
    {
      var d :| d in Active(states) && states[d].curBw == v;
      assert d in Active(next) && next[d].curBw == v;
    }
    if st.active {
      assert c in Active(next) && next[c].curBw == st.curBw;
    }
    forall v | v in ActiveWindows(next)
      ensures v in ActiveWindows(states) || (st.active && v == st.curBw)
    {
      var d :| d in Active(next) && next[d].curBw == v;
      if d != c {
        assert d in Active(states) && states[d].curBw == v;
      }
    }
  }

  lemma WeakestStep(states: map<ConnId, BwState>, c: ConnId, st: BwState, minBw: nat)
    requires c !in states
    ensures Weakest(states[c := st], minBw)
         == Weakest(states, minBw) + if st.active && st.curBw == minBw then {c} else {}
  {
    var next := states[c := st];
    forall d
      ensures d in Weakest(next, minBw)
         <==> d in Weakest(states, minBw) + if st.active && st.curBw == minBw then {c} else {}
    {
    }
  }

  /** What the one-pass search has found so far. */
  ghost predicate Found(states: map<ConnId, BwState>, cap: uint32, minBw: nat, minCount: nat)
  {
    minBw == LeastServed(states, cap) && minCount == |Weakest(states, minBw)|
  }

  lemma NoneBelowTheMinimum(states: map<ConnId, BwState>, cap: uint32, v: nat)
    requires v < LeastServed(states, cap)
    ensures Weakest(states, v) == {}
  {
    forall c | c in Active(states)
      ensures states[c].curBw != v
    {
      assert states[c].curBw in ActiveWindows(states);
    }
  }

  /** One step of the one-pass minimum search. */
  lemma SearchStep(states: map<ConnId, BwState>, c: ConnId, st: BwState, cap: uint32, minBw: nat, minCount: nat)
    requires c !in states && Found(states, cap, minBw, minCount)
    ensures !st.active || st.curBw > minBw ==> Found(states[c := st], cap, minBw, minCount)
    ensures st.active && st.curBw == minBw ==> Found(states[c := st], cap, minBw, minCount + 1)
    ensures st.active && st.curBw < minBw ==> Found(states[c := st], cap, st.curBw, 1)
  {
    ActiveWindowsStep(states, c, st);
    var next := states[c := st];
    WeakestStep(states, c, st, minBw);
    var m := LeastServed(next, cap);
    assert m == MinUpTo(ActiveWindows(next), cap);
    assert minBw == MinUpTo(ActiveWindows(states), cap);
    if st.active {
      assert st.curBw in ActiveWindows(next);
      if st.curBw < minBw {
        assert m == st.curBw;
        NoneBelowTheMinimum(states, cap, st.curBw);
        WeakestStep(states, c, st, st.curBw);
      } else {
        assert m == minBw;
      }
    } else {
      assert ActiveWindows(next) == ActiveWindows(states);
    }
  }
}
