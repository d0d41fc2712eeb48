/**
 What the bandwidth limiter computes, as functions of its account: the specification
 of class `Bwstop`.
 */
module Bandwidth {
  import opened Clock
  import opened FloatModel
  import opened Ids
  import opened MapSums

  datatype BwRecord = BwRecord(t: Timeb, size: uint32)

  /**
   The account of one connection. `inserted` is a history variable the limiter does not
   have: every record since tracking began, pruned or not.
   */
  datatype BwState = BwState(records: seq<BwRecord>, active: bool, curBw: uint32, guess: uint32,
                             inserted: seq<BwRecord>)

  /**
   `unset` is what the uninitialised guess of a new account happens to hold. `gone` is a history
   variable: the records of the accounts that have been erased.
   */
  datatype Bw = Bw(maxBw: uint32, curBw: uint32, states: map<ConnId, BwState>, unset: uint32,
                   gone: map<ConnId, seq<BwRecord>>)

  /** A limiter before its first account; `total` is what its total holds before its first use. */
  function NewBw(limit: uint32, total: uint32, unset: uint32): Bw
  {
    Bw(limit, total, map[], unset, map[])
  }

  // ---------- the sliding window ----------

  function Weight(r: BwRecord, now: Timeb): uint32
  {
    if Expired(r.t, now) then 0 else r.size
  }

  /** Bytes of the records that are valid at `now`. */
  function WindowSum(rs: seq<BwRecord>, now: Timeb): nat
  {
    if |rs| == 0 then 0 else WindowSum(rs[..|rs| - 1], now) + Weight(rs[|rs| - 1], now)
  }

  /** One more than the index of the last expired record. */
  function ExpiredEnd(rs: seq<BwRecord>, now: Timeb): (n: nat)
    ensures n <= |rs|
    ensures n > 0 ==> Expired(rs[n - 1].t, now)
    ensures forall i :: n <= i < |rs| ==> !Expired(rs[i].t, now)
  {
    if |rs| == 0 then 0
    else if Expired(rs[|rs| - 1].t, now) then |rs|
    else ExpiredEnd(rs[..|rs| - 1], now)
  }

  /** What is kept: the last expired record and everything after it. */
  function Pruned(rs: seq<BwRecord>, now: Timeb): seq<BwRecord>
  {
    var n := ExpiredEnd(rs, now);
    if n == 0 then rs else rs[n - 1..]
  }

  lemma WrapAdds(a: int, b: int)
    ensures Wrap(Wrap(a) + Wrap(b)) == Wrap(a + b)
    ensures Wrap(Wrap(a) + b) == Wrap(a + b)
  {
  }

  // ---------- opening, switching, closing an account ----------

  function Opened(b: Bw, c: ConnId): Bw
  {
    if c in b.states then b
    else b.(states := b.states[c := BwState([], true, 0, b.unset, [])])
  }

  function Inserted(b: Bw, c: ConnId, size: uint32, now: Timeb): Bw
  {
    if b.maxBw == 0 then b
    else
      var b := Opened(b, c);
      var st := b.states[c];
      var r := BwRecord(now, size);
      b.(states := b.states[c := st.(records := st.records + [r], inserted := st.inserted + [r])])
  }

  function Switched(b: Bw, c: ConnId, active: bool): Bw
  {
    if b.maxBw == 0 || c !in b.states then b
    else b.(states := b.states[c := b.states[c].(active := active)])
  }

  /** What was on record for a connection in accounts erased since. */
  function GoneRecords(b: Bw, c: ConnId): seq<BwRecord>
  {
    if c in b.gone then b.gone[c] else []
  }

  /** What is on record for a connection in its account. */
  function KeptRecords(b: Bw, c: ConnId): seq<BwRecord>
  {
    if c in b.states then b.states[c].inserted else []
  }

  function Erased(b: Bw, c: ConnId): Bw
  {
    if c in b.states then
      b.(states := b.states - {c}, gone := b.gone[c := GoneRecords(b, c) + KeptRecords(b, c)])
    else b
  }

  function Guess(b: Bw, c: ConnId): uint32
  {
    if c in b.states then b.states[c].guess else 0
  }

  // ---------- recalc ----------

  /** An account after the counting loop. */
  function Counted(st: BwState, now: Timeb): BwState
  {
    st.(records := Pruned(st.records, now), curBw := Wrap(WindowSum(st.records, now)), guess := 0)
  }

  function Windows(states: map<ConnId, BwState>, now: Timeb): map<ConnId, nat>
  {
    map c | c in states :: WindowSum(states[c].records, now)
  }

  function Active(states: map<ConnId, BwState>): set<ConnId>
  {
    set c | c in states && states[c].active
  }

  /** The smallest member of `vals` below `cap`, or `cap`. */
  ghost function MinUpTo(vals: set<nat>, cap: nat): (m: nat)
    ensures m <= cap && (forall v :: v in vals ==> m <= v) && (m == cap || m in vals)
  {
    if vals == {} then cap
    else
      var v :| v in vals;
      assert vals == {v} + (vals - {v});
      var rest := MinUpTo(vals - {v}, cap);
      if v < rest then v else rest
  }

  /** The window of the least-served active connection, capped by the limit. */
  ghost function LeastServed(states: map<ConnId, BwState>, cap: uint32): nat
  {
    MinUpTo(set c | c in Active(states) :: states[c].curBw, cap)
  }

  function Weakest(states: map<ConnId, BwState>, minBw: nat): set<ConnId>
  {
    set c | c in Active(states) && states[c].curBw == minBw
  }

  /** What the splitting loop adds to each account. */
  datatype Split = Split(curBw: uint32, excess: uint32, bonus: nat, minBw: nat, minCount: nat)
  {
    /** A share of the excess; nothing in the window makes no shares. */
    function ShareOf(st: BwState, fpu: Fpu): uint32
    {
      if curBw == 0 then 0 else Wrap(fpu.share(st.curBw, curBw, excess))
    }

    function GuessFor(st: BwState, fpu: Fpu): uint32
    {
      if !st.active then st.guess
      else
        if minBw == st.curBw && minCount > 0 then Wrap(ShareOf(st, fpu) + bonus / minCount) else ShareOf(st, fpu)
    }
  }

  function MakeSplit(maxBw: uint32, cur: uint32, minBw: nat, minCount: nat, fpu: Fpu): Split
  {
    var slack := Wrap(maxBw - cur);
    var bonus := fpu.tenth(slack);
    Split(cur, Wrap(slack - if minCount > 0 then bonus else 0), bonus, minBw, minCount)
  }

  function CountedAll(states: map<ConnId, BwState>, now: Timeb): map<ConnId, BwState>
  {
    map c | c in states :: Counted(states[c], now)
  }

  ghost function SplitOf(b: Bw, now: Timeb, fpu: Fpu): Split
  {
    var counted := CountedAll(b.states, now);
    var minBw := LeastServed(counted, b.maxBw);
    MakeSplit(b.maxBw, Wrap(Sum(Windows(b.states, now))), minBw, |Weakest(counted, minBw)|, fpu)
  }

  function GuessedAll(states: map<ConnId, BwState>, split: Split, fpu: Fpu): map<ConnId, BwState>
  {
    map c | c in states :: states[c].(guess := split.GuessFor(states[c], fpu))
  }

  /** The account after `recalc` with a limit set. */
  ghost function Recalculated(b: Bw, now: Timeb, fpu: Fpu): Bw
  {
    var split := SplitOf(b, now, fpu);
    b.(curBw := split.curBw, states := GuessedAll(CountedAll(b.states, now), split, fpu))
  }
}
