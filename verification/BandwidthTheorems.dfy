/** What the limiter's account and split guarantee, for every account and every sound arithmetic. */
module BandwidthTheorems {
  import opened Bandwidth
  import opened Clock
  import opened FloatModel
  import opened Ids
  import opened MapSums

  // ---------- the window agrees with the whole history ----------

  /** Times never decrease along the records and none lies in the future. */
  ghost predicate InOrder(rs: seq<BwRecord>, now: Timeb)
  {
    && (forall i, j :: 0 <= i < j < |rs| ==> Ms(rs[i].t) <= Ms(rs[j].t))
    && (forall i :: 0 <= i < |rs| ==> Ms(rs[i].t) <= Ms(now))
  }

  /** The kept records are a suffix of all that were inserted, and what was dropped has expired. */
  ghost predicate AccountOk(st: BwState, now: Timeb)
  {
    var dropped := |st.inserted| - |st.records|;
    && dropped >= 0
    && st.records == st.inserted[dropped..]
    && InOrder(st.inserted, now)
    && (forall i :: 0 <= i < dropped ==> Expired(st.inserted[i].t, now))
  }

  lemma {:induction false} WindowSumSplits(a: seq<BwRecord>, b: seq<BwRecord>, now: Timeb)
    ensures WindowSum(a + b, now) == WindowSum(a, now) + WindowSum(b, now)
  {
    if |b| == 0 {
      assert a + b == a;
    } else {
      WindowSumSplits(a, b[..|b| - 1], now);
      assert (a + b)[..|a + b| - 1] == a + b[..|b| - 1];
    }
  }

  lemma {:induction false} NothingLeftOfTheExpired(rs: seq<BwRecord>, now: Timeb)
    requires forall i :: 0 <= i < |rs| ==> Expired(rs[i].t, now)
    ensures WindowSum(rs, now) == 0
  {
    if |rs| > 0 {
      NothingLeftOfTheExpired(rs[..|rs| - 1], now);
    }
  }

  /** Pruning loses nothing that counts: the window of the kept records is the window of the whole history. */
  lemma WindowAgreesWithHistory(st: BwState, now: Timeb)
    requires AccountOk(st, now)
    ensures WindowSum(st.records, now) == WindowSum(st.inserted, now)
  {
    var dropped := |st.inserted| - |st.records|;
    WindowSumSplits(st.inserted[..dropped], st.inserted[dropped..], now);
    NothingLeftOfTheExpired(st.inserted[..dropped], now);
    assert st.inserted == st.inserted[..dropped] + st.inserted[dropped..];
  }

  lemma ExpiredBefore(rs: seq<BwRecord>, now: Timeb, i: nat, j: nat)
    requires InOrder(rs, now) && i <= j < |rs| && Expired(rs[j].t, now)
    ensures Expired(rs[i].t, now)
  {
    ExpiredIsOlderThanThePeriod(rs[i].t, now);
    ExpiredIsOlderThanThePeriod(rs[j].t, now);
  }

  lemma PruningKeepsTheAccount(st: BwState, now: Timeb)
    requires AccountOk(st, now)
    ensures AccountOk(Counted(st, now), now)
  {
    var dropped := |st.inserted| - |st.records|;
    var n := ExpiredEnd(st.records, now);
    if n > 0 {
      assert st.records[n - 1] == st.inserted[dropped + n - 1];
      forall i | 0 <= i < dropped + n - 1
        ensures Expired(st.inserted[i].t, now)
      {
        ExpiredBefore(st.inserted, now, i, dropped + n - 1);
      }
      assert st.records[n - 1..] == st.inserted[dropped + n - 1..];
    }
  }

  /** A recount keeps the account sound and leaves at most one expired record, the oldest kept. */
  lemma CountedKeepsTheAccount(st: BwState, now: Timeb)
    requires AccountOk(st, now)
    ensures AccountOk(Counted(st, now), now)
    ensures forall i :: 0 < i < |Counted(st, now).records| ==> !Expired(Counted(st, now).records[i].t, now)
    ensures Counted(st, now).curBw == Wrap(WindowSum(st.inserted, now))
    ensures WindowSum(Counted(st, now).records, now) == WindowSum(st.inserted, now)
  {
    PruningKeepsTheAccount(st, now);
    WindowAgreesWithHistory(st, now);
    WindowAgreesWithHistory(Counted(st, now), now);
    var n := ExpiredEnd(st.records, now);
    forall i | 0 < i < |Pruned(st.records, now)|
      ensures !Expired(Pruned(st.records, now)[i].t, now)
    {
      assert n == 0 || Pruned(st.records, now)[i] == st.records[n - 1 + i];
    }
  }

  lemma {:induction false} WindowOnlyShrinks(rs: seq<BwRecord>, now: Timeb, later: Timeb)
    requires Ms(now) <= Ms(later)
    ensures WindowSum(rs, later) <= WindowSum(rs, now)
  {
    if |rs| > 0 {
      WindowOnlyShrinks(rs[..|rs| - 1], now, later);
      ExpiredIsOlderThanThePeriod(rs[|rs| - 1].t, now);
      ExpiredIsOlderThanThePeriod(rs[|rs| - 1].t, later);
    }
  }

  lemma TimePassesOverTheAccount(st: BwState, now: Timeb, later: Timeb)
    requires AccountOk(st, now) && Ms(now) <= Ms(later)
    ensures AccountOk(st, later)
  {
    var dropped := |st.inserted| - |st.records|;
    forall i | 0 <= i < dropped
      ensures Expired(st.inserted[i].t, later)
    {
      ExpiredIsOlderThanThePeriod(st.inserted[i].t, now);
      ExpiredIsOlderThanThePeriod(st.inserted[i].t, later);
    }
  }

  // ---------- all accounts together ----------

  ghost predicate AccountsOk(b: Bw, now: Timeb)
  {
    forall c :: c in b.states ==> AccountOk(b.states[c], now)
  }

  /** Bytes recorded for the tracked connections and still valid, counted from the full history. */
  ghost function Window(b: Bw, now: Timeb): nat
  {
    Sum(FullWindows(b.states, now))
  }

  function FullWindows(states: map<ConnId, BwState>, now: Timeb): map<ConnId, nat>
  {
    map c | c in states :: WindowSum(states[c].inserted, now)
  }

  lemma WindowIsWhatRecalcCounts(b: Bw, now: Timeb)
    requires AccountsOk(b, now)
    ensures Sum(Windows(b.states, now)) == Window(b, now)
  {
    var kept, full := Windows(b.states, now), FullWindows(b.states, now);
    forall c | c in kept
      ensures kept[c] == full[c]
    {
      KeptWindow(b, c, now);
    }
    SumOfEqual(kept, full);
  }

  lemma KeptWindow(b: Bw, c: ConnId, now: Timeb)
    requires AccountsOk(b, now) && c in b.states
    ensures Windows(b.states, now)[c] == FullWindows(b.states, now)[c]
  {
    WindowAgreesWithHistory(b.states[c], now);
  }

  lemma WindowShrinks(b: Bw, now: Timeb, later: Timeb)
    requires Ms(now) <= Ms(later)
    ensures Window(b, later) <= Window(b, now)
  {
    var before, after := FullWindows(b.states, now), FullWindows(b.states, later);
    forall c | c in b.states
      ensures after[c] <= before[c]
    {
      WindowOnlyShrinks(b.states[c].inserted, now, later);
    }
    SumSubsetLe(after, before);
  }

  // ---------- the minimum search ----------

  /** The minimum search is exact, and it counts nobody only when everybody is above the limit. */
  lemma LeastServedIsExact(states: map<ConnId, BwState>, cap: uint32)
    ensures LeastServed(states, cap) <= cap
    ensures forall c :: c in Active(states) ==> LeastServed(states, cap) <= states[c].curBw
    ensures LeastServed(states, cap) < cap ==> Weakest(states, LeastServed(states, cap)) != {}
    ensures Weakest(states, LeastServed(states, cap)) == {} <==>
              forall c :: c in Active(states) ==> states[c].curBw > cap
  {
    var windows := set c | c in Active(states) :: states[c].curBw;
    var minBw := LeastServed(states, cap);
    assert minBw == MinUpTo(windows, cap);
    forall c | c in Active(states)
      ensures minBw <= states[c].curBw
    {
      assert states[c].curBw in windows;
    }
    if minBw in windows {
      var c :| c in Active(states) && states[c].curBw == minBw;
      assert c in Weakest(states, minBw);
    } else {
      assert Weakest(states, minBw) == {} by {
        forall c | c in Active(states)
          ensures states[c].curBw != minBw
        {
          assert states[c].curBw in windows;
        }
      }
    }
  }

  // ---------- the split ----------

  function Shares(states: map<ConnId, BwState>, split: Split, fpu: Fpu): map<ConnId, nat>
  {
    map c | c in states :: if states[c].active then split.ShareOf(states[c], fpu) else 0
  }

  function Bonuses(states: map<ConnId, BwState>, split: Split): map<ConnId, nat>
  {
    map c | c in states :: if c in Weakest(states, split.minBw) && split.minCount > 0 then split.bonus / split.minCount else 0
  }

  function Guesses(states: map<ConnId, BwState>): map<ConnId, nat>
  {
    map c | c in states :: states[c].guess
  }

  function Currents(states: map<ConnId, BwState>): map<ConnId, nat>
  {
    map c | c in states :: states[c].curBw
  }

  /** A split made for these accounts within the limit. */
  ghost predicate Fits(states: map<ConnId, BwState>, split: Split, maxBw: uint32, fpu: Fpu)
  {
    && split == MakeSplit(maxBw, split.curBw, split.minBw, split.minCount, fpu)
    && split.curBw == Sum(Currents(states)) <= maxBw
    && split.minBw == LeastServed(states, maxBw)
    && split.minCount == |Weakest(states, split.minBw)|
    && (forall c :: c in states ==> states[c].guess == 0)
  }

  lemma SplitIsWithinTheSlack(split: Split, states: map<ConnId, BwState>, maxBw: uint32, fpu: Fpu)
    requires Sound(fpu) && Fits(states, split, maxBw, fpu)
    ensures fpu.tenth(maxBw - split.curBw) <= maxBw - split.curBw
    ensures split.excess + (if split.minCount > 0 then split.bonus else 0) == maxBw - split.curBw
    ensures forall heads: nat :: maxBw - split.curBw >= 10 * heads ==> split.bonus >= heads
  {
    assert TenthSound(fpu, maxBw - split.curBw);
  }

  lemma OneOfTheSum(states: map<ConnId, BwState>, c: ConnId)
    requires c in states
    ensures states[c].curBw <= Sum(Currents(states))
  {
    SumRemove(Currents(states), c);
  }

  lemma ScaledTotal(cur: nat, excess: nat)
    requires cur > 0
    ensures Scaled(cur, HighScale(cur, excess)) == excess as real + 0.5
    ensures Scaled(cur, LowScale(cur, excess)) == excess as real - 0.5
  {
    var high, unit, c := HighScale(cur, excess), Ratio(1.0, cur as real), cur as real;
    assert Times(high, c) == excess as real + 0.5;
    assert Times(unit, c) == 1.0;
    ScaledDifference(c, high, unit);
  }

  lemma ScaledDifference(c: real, high: real, unit: real)
    ensures c * (high - unit) == Times(high, c) - Times(unit, c)
    ensures c * high == Times(high, c)
  {
  }

  lemma ShareIsSound(states: map<ConnId, BwState>, split: Split, maxBw: uint32, fpu: Fpu, c: ConnId)
    requires Sound(fpu) && Fits(states, split, maxBw, fpu) && split.curBw > 0
    requires c in states && states[c].active
    ensures split.ShareOf(states[c], fpu) == fpu.share(states[c].curBw, split.curBw, split.excess) <= split.excess
    ensures split.ShareOf(states[c], fpu) as real <= Scaled(states[c].curBw, HighScale(split.curBw, split.excess))
    ensures split.ShareOf(states[c], fpu) as real > Scaled(states[c].curBw, LowScale(split.curBw, split.excess)) - 1.0
  {
    OneOfTheSum(states, c);
    RawShare(fpu, states[c].curBw, split.curBw, split.excess);
    UnwrappedShare(split, states[c], fpu);
  }

  lemma UnwrappedShare(split: Split, st: BwState, fpu: Fpu)
    requires split.curBw > 0 && fpu.share(st.curBw, split.curBw, split.excess) < TWO_TO_THE_32
    ensures split.ShareOf(st, fpu) == fpu.share(st.curBw, split.curBw, split.excess)
  {
    WrapFits(fpu.share(st.curBw, split.curBw, split.excess));
  }

  lemma RawShare(fpu: Fpu, c: nat, cur: nat, excess: nat)
    requires Sound(fpu) && c <= cur && cur > 0 && excess < TWO_TO_THE_32
    ensures fpu.share(c, cur, excess) <= excess
    ensures Scaled(c, LowScale(cur, excess)) - 1.0 < fpu.share(c, cur, excess) as real <= Scaled(c, HighScale(cur, excess))
  {
    assert ShareSound(fpu, c, cur, excess);
    ScaledTotal(cur, excess);
    ScaledMonotone(c, cur, HighScale(cur, excess));
  }

  lemma ScaledMonotone(v: nat, w: nat, f: real)
    requires v <= w && f >= 0.0
    ensures Scaled(v, f) <= Scaled(w, f)
    ensures Scaled(v, f) >= 0.0
  {
  }

  // ---------- errors of any kind that stay below one byte together ----------

  /**
   The shares exceed their fractions of the excess by errors that sum to less than one, and the bonus
   does not exceed the slack.
   */
  ghost predicate Tame(states: map<ConnId, BwState>, split: Split, maxBw: uint32, fpu: Fpu, eps: map<ConnId, real>)
  {
    && split.curBw <= maxBw && fpu.tenth(maxBw - split.curBw) <= maxBw - split.curBw
    && eps.Keys == states.Keys && (forall c :: c in eps ==> eps[c] >= 0.0) && RealSum(eps) < 1.0
    && (split.curBw > 0 ==> forall c :: c in Active(states) ==>
          fpu.share(states[c].curBw, split.curBw, split.excess) as real <= Fraction(states[c].curBw, split) + eps[c])
  }

  /** The exact share of the excess. */
  ghost function Fraction(c: nat, split: Split): real
    requires split.curBw > 0
  {
    Scaled(c, Ratio(split.excess as real, split.curBw as real))
  }

  lemma FractionOfAll(c: nat, split: Split)
    requires split.curBw > 0
    ensures Fraction(split.curBw, split) == split.excess as real
    ensures c <= split.curBw ==> 0.0 <= Fraction(c, split) <= split.excess as real
  {
    ExactTotal(split.curBw, split.excess);
    if c <= split.curBw {
      ScaledMonotone(c, split.curBw, Ratio(split.excess as real, split.curBw as real));
    }
  }

  /** No share wraps. */
  lemma TameShare(states: map<ConnId, BwState>, split: Split, maxBw: uint32, fpu: Fpu, eps: map<ConnId, real>, c: ConnId)
    requires Fits(states, split, maxBw, fpu) && Tame(states, split, maxBw, fpu, eps) && c in Active(states)
    ensures split.ShareOf(states[c], fpu) <= split.excess
    ensures split.curBw > 0 ==> split.ShareOf(states[c], fpu) as real <= Fraction(states[c].curBw, split) + eps[c]
  {
    if split.curBw > 0 {
      OneOfTheSum(states, c);
      OneOfTheRealSum(eps);
      FractionOfAll(states[c].curBw, split);
      UnwrappedShare(split, states[c], fpu);
    }
  }

  lemma SharesFitTheExcess(states: map<ConnId, BwState>, split: Split, maxBw: uint32, fpu: Fpu, eps: map<ConnId, real>)
    requires Fits(states, split, maxBw, fpu) && Tame(states, split, maxBw, fpu, eps)
    ensures Sum(Shares(states, split, fpu)) <= split.excess
  {
    var shares, currents := Shares(states, split, fpu), Currents(states);
    if split.curBw == 0 {
      assert forall c :: c in shares ==> shares[c] == 0;
      SumConstantOn(shares, {}, 0);
    } else {
      forall c | c in shares
        ensures shares[c] as real <= Fraction(currents[c], split) + eps[c]
      {
        OneOfTheSum(states, c);
        FractionOfAll(currents[c], split);
        if states[c].active {
          TameShare(states, split, maxBw, fpu, eps, c);
        }
      }
      SumAtMostScaled(shares, currents, Ratio(split.excess as real, split.curBw as real), eps);
      FractionOfAll(0, split);
    }
  }

  /** Half of each fraction is an error a sound arithmetic keeps to. */
  lemma SoundIsTame(states: map<ConnId, BwState>, split: Split, maxBw: uint32, fpu: Fpu) returns (eps: map<ConnId, real>)
    requires Sound(fpu) && Fits(states, split, maxBw, fpu)
    ensures Tame(states, split, maxBw, fpu, eps)
  {
    SplitIsWithinTheSlack(split, states, maxBw, fpu);
    var half := if split.curBw > 0 then Ratio(0.5, split.curBw as real) else 0.0;
    eps := map c | c in states :: Scaled(states[c].curBw, half);
    RealSumScales(eps, Currents(states), half);
    HalfOfAll(split.curBw);
    forall c | c in eps
      ensures eps[c] >= 0.0
    {
      ScaledMonotone(states[c].curBw, states[c].curBw, half);
    }
    if split.curBw > 0 {
      forall c | c in Active(states)
        ensures fpu.share(states[c].curBw, split.curBw, split.excess) as real <= Fraction(states[c].curBw, split) + eps[c]
      {
        OneOfTheSum(states, c);
        RawShare(fpu, states[c].curBw, split.curBw, split.excess);
        HighIsFractionAndHalf(states[c].curBw, split.curBw, split.excess);
      }
    }
  }

  lemma HalfOfAll(cur: nat)
    ensures cur > 0 ==> Scaled(cur, Ratio(0.5, cur as real)) == 0.5
    ensures Scaled(0, 0.0) == 0.0
  {
    if cur > 0 {
      assert Times(Ratio(0.5, cur as real), cur as real) == 0.5;
      ScaledDifference(cur as real, Ratio(0.5, cur as real), 0.0);
    }
  }

  lemma HighIsFractionAndHalf(c: nat, cur: nat, excess: nat)
    requires cur > 0
    ensures Scaled(c, HighScale(cur, excess)) == Scaled(c, Ratio(excess as real, cur as real)) + Scaled(c, Ratio(0.5, cur as real))
  {
    RatioAdds(excess as real, 0.5, cur as real);
    Distribute(Ratio(excess as real, cur as real), Ratio(0.5, cur as real), c as real);
  }

  lemma RatioAdds(a: real, b: real, c: real)
    requires a >= 0.0 && b >= 0.0 && c > 0.0
    ensures Ratio(a + b, c) == Ratio(a, c) + Ratio(b, c)
  {
  }

  lemma BonusesAddUp(states: map<ConnId, BwState>, split: Split)
    requires split.minCount == |Weakest(states, split.minBw)|
    ensures Sum(Bonuses(states, split)) <= split.bonus
    ensures split.minCount == 0 ==> Sum(Bonuses(states, split)) == 0
    ensures split.minCount > 0 ==> Sum(Bonuses(states, split)) >= split.bonus - (split.minCount - 1)
  {
    var each := if split.minCount > 0 then split.bonus / split.minCount else 0;
    var weakest := Weakest(states, split.minBw);
    SumConstantOn(Bonuses(states, split), weakest, each);
    if split.minCount > 0 {
      DivisionTimes(split.bonus, split.minCount);
    } else {
      assert weakest == {};
    }
  }

  lemma DivisionTimes(a: nat, b: nat)
    requires b > 0
    ensures a - (b - 1) <= b * (a / b) <= a
  {
  }

  lemma GuessIsShareAndBonus(states: map<ConnId, BwState>, split: Split, maxBw: uint32, fpu: Fpu, eps: map<ConnId, real>)
    requires Fits(states, split, maxBw, fpu) && Tame(states, split, maxBw, fpu, eps)
    ensures var guesses := Guesses(GuessedAll(states, split, fpu));
            guesses.Keys == states.Keys
            && forall c :: c in states ==> guesses[c] == Shares(states, split, fpu)[c] + Bonuses(states, split)[c]
  {
    TheSlackIsSplit(states, split, maxBw, fpu);
    forall c | c in states
      ensures Guesses(GuessedAll(states, split, fpu))[c] == Shares(states, split, fpu)[c] + Bonuses(states, split)[c]
    {
      if states[c].active {
        TameShare(states, split, maxBw, fpu, eps, c);
      }
      OneGuess(states, split, fpu, c);
    }
  }

  lemma OneGuess(states: map<ConnId, BwState>, split: Split, fpu: Fpu, c: ConnId)
    requires c in states && states[c].guess == 0 && split.minCount == |Weakest(states, split.minBw)|
    requires states[c].active ==> split.ShareOf(states[c], fpu) <= split.excess
    requires split.excess + (if split.minCount > 0 then split.bonus else 0) < TWO_TO_THE_32
    ensures Guesses(GuessedAll(states, split, fpu))[c] == Shares(states, split, fpu)[c] + Bonuses(states, split)[c]
  {
    if states[c].active {
      BonusIsWithin(states, split, c);
      var bonus := Bonuses(states, split)[c];
      assert bonus == if split.minBw == states[c].curBw && split.minCount > 0 then split.bonus / split.minCount else 0;
      WrapFits(split.ShareOf(states[c], fpu) + bonus);
    }
  }

  lemma BonusIsWithin(states: map<ConnId, BwState>, split: Split, c: ConnId)
    requires c in states && split.minCount == |Weakest(states, split.minBw)|
    ensures Bonuses(states, split)[c] <= if split.minCount > 0 then split.bonus else 0
  {
    SumRemove(Bonuses(states, split), c);
    BonusesAddUp(states, split);
  }

  lemma GuessSumSplits(states: map<ConnId, BwState>, split: Split, maxBw: uint32, fpu: Fpu, eps: map<ConnId, real>)
    requires Fits(states, split, maxBw, fpu) && Tame(states, split, maxBw, fpu, eps)
    ensures Sum(Guesses(GuessedAll(states, split, fpu)))
         == Sum(Shares(states, split, fpu)) + Sum(Bonuses(states, split))
  {
    GuessIsShareAndBonus(states, split, maxBw, fpu, eps);
    SumSplit(Guesses(GuessedAll(states, split, fpu)), Shares(states, split, fpu), Bonuses(states, split));
  }

  /** When the active accounts carry the whole window, truncation costs their shares less than one byte each. */
  lemma SharesFromBelow(states: map<ConnId, BwState>, split: Split, fpu: Fpu, low: real)
    requires Active(states) != {}
    requires forall c :: c in states && !states[c].active ==> states[c].curBw == 0
    requires forall c :: c in Active(states) ==> split.ShareOf(states[c], fpu) as real > Scaled(states[c].curBw, low) - 1.0
    ensures Sum(Shares(states, split, fpu)) as real > Scaled(Sum(Currents(states)), low) - |Active(states)| as real
  {
    var shares, currents := Shares(states, split, fpu), Currents(states);
    var busyShares := map c | c in Active(states) :: shares[c];
    var busyCurrents := map c | c in Active(states) :: currents[c];
    SumSubsetLe(busyShares, shares);
    SumOverTheBusy(currents, busyCurrents);
    assert busyShares.Keys == Active(states);
    assert |busyShares| == |busyShares.Keys|;
    assert busyShares != map[];
    SumAboveScaled(busyShares, busyCurrents, low);
  }

  lemma SharesUseTheExcess(states: map<ConnId, BwState>, split: Split, maxBw: uint32, fpu: Fpu)
    requires Sound(fpu) && Fits(states, split, maxBw, fpu) && split.curBw > 0
    requires Active(states) != {}
    requires forall c :: c in states && !states[c].active ==> states[c].curBw == 0
    ensures Sum(Shares(states, split, fpu)) + |Active(states)| >= split.excess
  {
    var low := LowScale(split.curBw, split.excess);
    forall c | c in Active(states)
      ensures split.ShareOf(states[c], fpu) as real > Scaled(states[c].curBw, low) - 1.0
    {
      ShareIsSound(states, split, maxBw, fpu, c);
    }
    SharesFromBelow(states, split, fpu, low);
    ScaledTotal(split.curBw, split.excess);
  }

  /** Without rounding errors one byte less is lost. */
  lemma ExactSharesUseTheExcess(states: map<ConnId, BwState>, split: Split, maxBw: uint32, rnd: Rounding)
    requires Exact(rnd) && Sound(FpuOf(rnd)) && Fits(states, split, maxBw, FpuOf(rnd)) && split.curBw > 0
    requires Active(states) != {}
    requires forall c :: c in states && !states[c].active ==> states[c].curBw == 0
    ensures Sum(Shares(states, split, FpuOf(rnd))) + |Active(states)| >= split.excess + 1
  {
    var exact := Ratio(split.excess as real, split.curBw as real);
    forall c | c in Active(states)
      ensures split.ShareOf(states[c], FpuOf(rnd)) as real > Scaled(states[c].curBw, exact) - 1.0
    {
      ExactShareOf(states, split, maxBw, rnd, c);
    }
    SharesFromBelow(states, split, FpuOf(rnd), exact);
    ExactTotal(split.curBw, split.excess);
  }

  lemma ExactTotal(cur: nat, excess: nat)
    requires cur > 0
    ensures Scaled(cur, Ratio(excess as real, cur as real)) == excess as real
  {
    var exact := Ratio(excess as real, cur as real);
    assert Times(exact, cur as real) == excess as real;
    ScaledDifference(cur as real, exact, 0.0);
  }

  lemma ExactShareOf(states: map<ConnId, BwState>, split: Split, maxBw: uint32, rnd: Rounding, c: ConnId)
    requires Exact(rnd) && Sound(FpuOf(rnd)) && Fits(states, split, maxBw, FpuOf(rnd)) && split.curBw > 0
    requires c in Active(states)
    ensures split.ShareOf(states[c], FpuOf(rnd)) as real
          > Scaled(states[c].curBw, Ratio(split.excess as real, split.curBw as real)) - 1.0
  {
    ShareIsSound(states, split, maxBw, FpuOf(rnd), c);
    ExactShare(states[c].curBw, split.curBw, split.excess, rnd);
  }

  lemma ExactShare(c: nat, cur: nat, excess: nat, rnd: Rounding)
    requires Exact(rnd) && cur > 0
    ensures Share(c, cur, excess, rnd) as real > Scaled(c, Ratio(excess as real, cur as real)) - 1.0
  {
    var x := Ratio(c as real, cur as real);
    assert rnd(x) == x && Quotient(c, cur, rnd) == x;
    var p := Product(x, excess as real, rnd);
    assert p == rnd(Times(x, excess as real)) == Times(x, excess as real);
    Reassociate(c as real, cur as real, excess as real);
    assert p - 1.0 < p.Floor as real <= p;
  }

  lemma {:induction false} SumOverTheBusy(all: map<ConnId, nat>, busy: map<ConnId, nat>)
    requires busy.Keys <= all.Keys
    requires forall c :: c in all ==> all[c] == if c in busy then busy[c] else 0
    ensures Sum(all) == Sum(busy)
    decreases |all|
  {
    if all == map[] {
      assert busy == map[];
    } else {
      var c :| c in all;
      SmallerWithout(all, c);
      SumRemove(all, c);
      if c in busy {
        SumRemove(busy, c);
        SumOverTheBusy(all - {c}, busy - {c});
      } else {
        SumOverTheBusy(all - {c}, busy);
      }
    }
  }

  // ---------- what a recalc guarantees ----------

  lemma CurrentsAreTheWindows(b: Bw, now: Timeb)
    requires AccountsOk(b, now)
    requires Window(b, now) < TWO_TO_THE_32
    ensures Currents(CountedAll(b.states, now)) == FullWindows(b.states, now)
  {
    forall c | c in b.states
      ensures Currents(CountedAll(b.states, now))[c] == FullWindows(b.states, now)[c]
    {
      CountedCurrent(b, c, now);
    }
    SameCurrents(CountedAll(b.states, now), FullWindows(b.states, now));
  }

  lemma SameCurrents(states: map<ConnId, BwState>, windows: map<ConnId, nat>)
    requires states.Keys == windows.Keys
    requires forall c :: c in states ==> Currents(states)[c] == windows[c]
    ensures Currents(states) == windows
  {
  }

  /** The accounts the splitting loop starts from, when the window fits into 32 bits. */
  lemma RecalcCounts(b: Bw, now: Timeb)
    requires AccountsOk(b, now)
    requires Window(b, now) < TWO_TO_THE_32
    ensures Currents(CountedAll(b.states, now)) == FullWindows(b.states, now)
    ensures Wrap(Sum(Windows(b.states, now))) == Window(b, now) == Sum(Currents(CountedAll(b.states, now)))
  {
    CurrentsAreTheWindows(b, now);
    RecalcTotal(b, now);
  }

  lemma RecalcTotal(b: Bw, now: Timeb)
    requires AccountsOk(b, now)
    requires Window(b, now) < TWO_TO_THE_32
    ensures Wrap(Sum(Windows(b.states, now))) == Window(b, now)
  {
    WrapFits(Window(b, now));
    WindowIsWhatRecalcCounts(b, now);
  }

  lemma CountedCurrent(b: Bw, c: ConnId, now: Timeb)
    requires AccountsOk(b, now) && c in b.states
    requires Window(b, now) < TWO_TO_THE_32
    ensures Currents(CountedAll(b.states, now))[c] == FullWindows(b.states, now)[c]
  {
    OneWindow(b, c, now);
    CountedIsTheWindow(b.states[c], now);
  }

  lemma OneWindow(b: Bw, c: ConnId, now: Timeb)
    requires c in b.states
    ensures WindowSum(b.states[c].inserted, now) <= Window(b, now)
  {
    SumRemove(FullWindows(b.states, now), c);
  }

  lemma CountedIsTheWindow(st: BwState, now: Timeb)
    requires AccountOk(st, now) && WindowSum(st.inserted, now) < TWO_TO_THE_32
    ensures Counted(st, now).curBw == WindowSum(st.inserted, now)
  {
    CountedKeepsTheAccount(st, now);
    WrapFits(WindowSum(st.inserted, now));
  }

  lemma RecalcFits(b: Bw, now: Timeb, fpu: Fpu)
    requires AccountsOk(b, now) && b.maxBw > 0
    requires Window(b, now) <= b.maxBw
    ensures Fits(CountedAll(b.states, now), SplitOf(b, now, fpu), b.maxBw, fpu)
    ensures SplitOf(b, now, fpu).curBw == Window(b, now)
  {
    RecalcCounts(b, now);
  }

  lemma GuessesFitTheSlack(states: map<ConnId, BwState>, split: Split, maxBw: uint32, fpu: Fpu, eps: map<ConnId, real>)
    requires Fits(states, split, maxBw, fpu) && Tame(states, split, maxBw, fpu, eps)
    ensures Sum(Guesses(GuessedAll(states, split, fpu))) <= maxBw - split.curBw
  {
    GuessSumSplits(states, split, maxBw, fpu, eps);
    SharesFitTheExcess(states, split, maxBw, fpu, eps);
    BonusesAddUp(states, split);
    TheSlackIsSplit(states, split, maxBw, fpu);
  }

  lemma TheSlackIsSplit(states: map<ConnId, BwState>, split: Split, maxBw: uint32, fpu: Fpu)
    requires Fits(states, split, maxBw, fpu) && fpu.tenth(maxBw - split.curBw) <= maxBw - split.curBw
    ensures split.excess + (if split.minCount > 0 then split.bonus else 0) == maxBw - split.curBw
  {
  }

  /**
   Budget safety. Within the limit, what all connections together may send until the next recalc is at
   most what is left of the limit, whatever the errors of the shares, as long as they sum to less than
   one byte; switched-off connections may send nothing.
   */
  lemma BudgetSafetyUnderErrors(b: Bw, now: Timeb, fpu: Fpu, eps: map<ConnId, real>)
    requires AccountsOk(b, now) && b.maxBw > 0
    requires Window(b, now) <= b.maxBw
    requires Tame(CountedAll(b.states, now), SplitOf(b, now, fpu), b.maxBw, fpu, eps)
    ensures var b' := Recalculated(b, now, fpu);
            && b'.curBw == Window(b, now)
            && Sum(Guesses(b'.states)) <= b.maxBw - b'.curBw
            && forall c :: c in b'.states && !b'.states[c].active ==> b'.states[c].guess == 0
  {
    RecalcFits(b, now, fpu);
    GuessesFitTheSlack(CountedAll(b.states, now), SplitOf(b, now, fpu), b.maxBw, fpu, eps);
    SwitchedOffGetNothing(b, now, fpu);
  }

  /** Budget safety in double arithmetic. */
  lemma BudgetSafety(b: Bw, now: Timeb, fpu: Fpu)
    requires Sound(fpu) && AccountsOk(b, now) && b.maxBw > 0
    requires Window(b, now) <= b.maxBw
    ensures var b' := Recalculated(b, now, fpu);
            && b'.curBw == Window(b, now)
            && Sum(Guesses(b'.states)) <= b.maxBw - b'.curBw
            && forall c :: c in b'.states && !b'.states[c].active ==> b'.states[c].guess == 0
  {
    RecalcFits(b, now, fpu);
    var eps := SoundIsTame(CountedAll(b.states, now), SplitOf(b, now, fpu), b.maxBw, fpu);
    BudgetSafetyUnderErrors(b, now, fpu, eps);
  }

  lemma SwitchedOffGetNothing(b: Bw, now: Timeb, fpu: Fpu)
    ensures var b' := Recalculated(b, now, fpu);
            forall c :: c in b'.states && !b'.states[c].active ==> b'.states[c].guess == 0
  {
  }

  /** The limiter reports an excess exactly when the valid bytes exceed the limit. */
  lemma RecalcReportsTheExcess(b: Bw, now: Timeb, fpu: Fpu)
    requires AccountsOk(b, now) && b.maxBw > 0
    requires Window(b, now) < TWO_TO_THE_32
    ensures Recalculated(b, now, fpu).curBw == Window(b, now)
    ensures Recalculated(b, now, fpu).curBw > b.maxBw <==> Window(b, now) > b.maxBw
  {
    RecalcCounts(b, now);
  }

  /** Somebody is least served as soon as somebody is active within the limit. */
  lemma SomebodyIsLeastServed(states: map<ConnId, BwState>, cap: uint32)
    requires Active(states) != {}
    requires Sum(Currents(states)) <= cap
    ensures Weakest(states, LeastServed(states, cap)) != {}
  {
    var c :| c in Active(states);
    OneOfTheSum(states, c);
    LeastServedIsExact(states, cap);
  }

  /** The setting of the next two lemmas: the active connections carry a window within the limit. */
  ghost predicate CarriedByTheActive(b: Bw, now: Timeb)
  {
    && AccountsOk(b, now)
    && 0 < Window(b, now) <= b.maxBw
    && Active(b.states) != {}
    && forall c :: c in b.states && !b.states[c].active ==> WindowSum(b.states[c].inserted, now) == 0
  }

  lemma CarriedAccounts(b: Bw, now: Timeb, fpu: Fpu)
    requires Sound(fpu) && CarriedByTheActive(b, now)
    ensures var counted, split := CountedAll(b.states, now), SplitOf(b, now, fpu);
            && Fits(counted, split, b.maxBw, fpu) && split.curBw == Window(b, now)
            && Active(counted) == Active(b.states)
            && Weakest(counted, split.minBw) != {}
            && (forall c :: c in counted && !counted[c].active ==> counted[c].curBw == 0)
  {
    RecalcFits(b, now, fpu);
    SameActive(b.states, now);
    SomebodyIsLeastServed(CountedAll(b.states, now), b.maxBw);
    InactiveAreEmpty(b, now);
  }

  lemma SameActive(states: map<ConnId, BwState>, now: Timeb)
    ensures Active(CountedAll(states, now)) == Active(states)
  {
  }

  lemma InactiveAreEmpty(b: Bw, now: Timeb)
    requires CarriedByTheActive(b, now)
    ensures forall c :: c in b.states && !b.states[c].active ==> Counted(b.states[c], now).curBw == 0
  {
    CurrentsAreTheWindows(b, now);
    forall c | c in b.states && !b.states[c].active
      ensures Counted(b.states[c], now).curBw == 0
    {
      assert Currents(CountedAll(b.states, now))[c] == FullWindows(b.states, now)[c];
    }
  }

  /** How many active connections share the smallest window. */
  ghost function LeastCount(b: Bw, now: Timeb, fpu: Fpu): nat
  {
    |Weakest(CountedAll(b.states, now), SplitOf(b, now, fpu).minBw)|
  }

  /**
   Little of the budget is wasted: in any sound arithmetic rounding costs at most one byte per
   active connection and less than one per least-served one.
   */
  lemma LittleIsWasted(b: Bw, now: Timeb, fpu: Fpu)
    requires Sound(fpu) && CarriedByTheActive(b, now)
    ensures var b' := Recalculated(b, now, fpu);
            && LeastCount(b, now, fpu) > 0
            && Sum(Guesses(b'.states)) + |Active(b.states)| + (LeastCount(b, now, fpu) - 1) >= b.maxBw - b'.curBw
  {
    var counted, split := CountedAll(b.states, now), SplitOf(b, now, fpu);
    CarriedAccounts(b, now, fpu);
    var eps := SoundIsTame(counted, split, b.maxBw, fpu);
    SplitIsWithinTheSlack(split, counted, b.maxBw, fpu);
    GuessSumSplits(counted, split, b.maxBw, fpu, eps);
    SharesUseTheExcess(counted, split, b.maxBw, fpu);
    BonusesAddUp(counted, split);
  }

  /** In exact arithmetic the first active connection costs nothing either. */
  lemma LittleIsWastedExactly(b: Bw, now: Timeb, rnd: Rounding)
    requires Exact(rnd) && CarriedByTheActive(b, now)
    ensures var b' := Recalculated(b, now, FpuOf(rnd));
            && LeastCount(b, now, FpuOf(rnd)) > 0
            && Sum(Guesses(b'.states)) + (|Active(b.states)| - 1) + (LeastCount(b, now, FpuOf(rnd)) - 1)
               >= b.maxBw - b'.curBw
  {
    var fpu := FpuOf(rnd);
    DoublesAreSound(rnd);
    var counted, split := CountedAll(b.states, now), SplitOf(b, now, fpu);
    CarriedAccounts(b, now, fpu);
    var eps := SoundIsTame(counted, split, b.maxBw, fpu);
    SplitIsWithinTheSlack(split, counted, b.maxBw, fpu);
    GuessSumSplits(counted, split, b.maxBw, fpu, eps);
    ExactSharesUseTheExcess(counted, split, b.maxBw, rnd);
    BonusesAddUp(counted, split);
  }

  /** With ten bytes of slack per least-served connection, each of them may send at least one byte. */
  lemma LeastServedAdvance(b: Bw, now: Timeb, fpu: Fpu, c: ConnId)
    requires Sound(fpu) && AccountsOk(b, now) && b.maxBw > 0
    requires Window(b, now) <= b.maxBw
    requires c in Weakest(CountedAll(b.states, now), SplitOf(b, now, fpu).minBw)
    requires b.maxBw - Window(b, now) >= 10 * LeastCount(b, now, fpu)
    ensures Recalculated(b, now, fpu).states[c].guess >= 1
  {
    var counted, split := CountedAll(b.states, now), SplitOf(b, now, fpu);
    RecalcFits(b, now, fpu);
    var eps := SoundIsTame(counted, split, b.maxBw, fpu);
    SplitIsWithinTheSlack(split, counted, b.maxBw, fpu);
    GuessIsShareAndBonus(counted, split, b.maxBw, fpu, eps);
    assert split.minCount > 0 && split.bonus >= split.minCount;
    AtLeastOneEach(split.bonus, split.minCount);
    assert Bonuses(counted, split)[c] >= 1;
    assert Guesses(GuessedAll(counted, split, fpu))[c] >= 1;
  }

  lemma AtLeastOneEach(a: nat, b: nat)
    requires a >= b > 0
    ensures a / b >= 1
  {
  }
}
