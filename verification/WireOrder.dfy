/**
 The bytes on a connection: requests are sent whole and in order, although a walk goes on to later
 requests after one that could not be finished.
 */
module WireOrderProofs {
  import opened DispatcherInvariant
  import opened DispatcherState
  import opened Ids

  // ---------- what has been sent ----------

  ghost predicate AllIn(reqs: map<ReqId, Req>, order: seq<ReqId>)
  {
    forall i :: 0 <= i < |order| ==> order[i] in reqs && reqs[order[i]].sent <= |reqs[order[i]].data|
  }

  /** The accepted part of every request, one after the other. */
  function Sent(reqs: map<ReqId, Req>, order: seq<ReqId>): seq<Byte>
    requires AllIn(reqs, order)
  {
    if |order| == 0 then []
    else
      var q := reqs[order[|order| - 1]];
      Sent(reqs, order[..|order| - 1]) + q.data[..q.sent]
  }

  /** All the requests' data, one after the other. */
  function Whole(reqs: map<ReqId, Req>, order: seq<ReqId>): seq<Byte>
    requires AllIn(reqs, order)
  {
    if |order| == 0 then []
    else Whole(reqs, order[..|order| - 1]) + reqs[order[|order| - 1]].data
  }

  /** The completed requests, in order. */
  function Finished(reqs: map<ReqId, Req>, order: seq<ReqId>): seq<ReqId>
    requires AllIn(reqs, order)
  {
    if |order| == 0 then []
    else
      var last := order[|order| - 1];
      Finished(reqs, order[..|order| - 1]) + if reqs[last].phase == Done then [last] else []
  }

  /** No request has bytes on the wire before the ones ahead of it are whole. */
  ghost predicate OneByOne(reqs: map<ReqId, Req>, order: seq<ReqId>)
    requires AllIn(reqs, order)
  {
    forall i, j :: 0 <= i < j < |order| && reqs[order[j]].sent > 0 ==> reqs[order[i]].Full()
  }

  /** The requests of a connection still on their way through the queue. */
  function OnTheWay(queue: seq<Msg>, reqs: map<ReqId, Req>, c: ConnId): seq<ReqId>
  {
    if |queue| == 0 then []
    else
      var m := queue[|queue| - 1];
      OnTheWay(queue[..|queue| - 1], reqs, c)
      + if m.SendRequest? && m.r in reqs && reqs[m.r].conn == c then [m.r] else []
  }

  // ---------- the invariant of one connection ----------

  /** `order` lists exactly the requests the dispatcher has taken, each at its place. */
  ghost predicate Places(s: State, c: ConnId)
    requires c in s.conns
  {
    var order := s.conns[c].order;
    && AllIn(s.reqs, order)
    && (forall i :: 0 <= i < |order| ==>
          s.reqs[order[i]].conn == c && s.reqs[order[i]].phase != Queued && s.reqs[order[i]].pos == i)
    && (forall r :: r in s.reqs && s.reqs[r].conn == c && s.reqs[r].phase != Queued ==>
          s.reqs[r].pos < |order| && order[s.reqs[r].pos] == r)
  }

  /** The pending list keeps that order. */
  ghost predicate Sorted(s: State, c: ConnId)
  {
    c in s.outgoings ==>
      forall a, b :: 0 <= a < b < |s.outgoings[c]| ==>
        s.outgoings[c][a] in s.reqs && s.outgoings[c][b] in s.reqs
        && s.reqs[s.outgoings[c][a]].pos < s.reqs[s.outgoings[c][b]].pos
  }

  ghost predicate ShapeOk(s: State, c: ConnId)
    requires c in s.conns
  {
    Places(s, c) && Sorted(s, c) && OneByOne(s.reqs, s.conns[c].order)
  }

  /** The history of the connection agrees with its requests. */
  ghost predicate LogsOk(s: State, c: ConnId)
    requires c in s.conns && AllIn(s.reqs, s.conns[c].order)
  {
    var k := s.conns[c];
    && k.wire == Sent(s.reqs, k.order)
    && k.doneLog == Finished(s.reqs, k.order)
    && k.calls == k.order + OnTheWay(s.queue, s.reqs, c)
  }

  ghost predicate EndsOk(s: State, c: ConnId)
    requires c in s.conns && AllIn(s.reqs, s.conns[c].order)
  {
    var order := s.conns[c].order;
    && (forall i :: 0 <= i < |order| && s.reqs[order[i]].phase == Failed ==> s.conns[c].sock.dead)
    && (forall i :: 0 <= i < |order| && s.reqs[order[i]].phase == Done ==> |s.reqs[order[i]].data| > 0)
  }

  ghost predicate WireOk(s: State, c: ConnId)
    requires c in s.conns
  {
    ShapeOk(s, c) && LogsOk(s, c) && EndsOk(s, c)
  }

  ghost predicate AllWiresOk(s: State)
  {
    forall c :: c in s.conns ==> WireOk(s, c)
  }

  // ---------- lemmas about the functions ----------

  lemma {:induction false} SentUnchanged(reqs: map<ReqId, Req>, reqs': map<ReqId, Req>, order: seq<ReqId>)
    requires AllIn(reqs, order) && AllIn(reqs', order)
    requires forall i :: 0 <= i < |order| ==>
      reqs'[order[i]] == reqs[order[i]].(refs := reqs'[order[i]].refs, clientRef := reqs'[order[i]].clientRef,
        sentCb := reqs'[order[i]].sentCb, broken := reqs'[order[i]].broken, reports := reqs'[order[i]].reports)
    ensures Sent(reqs', order) == Sent(reqs, order)
    ensures Finished(reqs', order) == Finished(reqs, order)
    ensures Whole(reqs', order) == Whole(reqs, order)
  {
    if |order| > 0 {
      SentUnchanged(reqs, reqs', order[..|order| - 1]);
    }
  }

  /** More bytes of one request, when nothing behind it has been sent, go to the end of the wire. */
  lemma {:induction false} SentGrows(reqs: map<ReqId, Req>, order: seq<ReqId>, p: nat, q: Req)
    requires AllIn(reqs, order) && p < |order|
    requires forall i :: 0 <= i < |order| && i != p ==> order[i] != order[p]
    requires q.sent > reqs[order[p]].sent ==> forall i :: p < i < |order| ==> reqs[order[i]].sent == 0
    requires q.data == reqs[order[p]].data && reqs[order[p]].sent <= q.sent <= |q.data|
    ensures AllIn(reqs[order[p] := q], order)
    ensures Sent(reqs[order[p] := q], order) == Sent(reqs, order) + q.data[reqs[order[p]].sent..q.sent]
  {
    var reqs', was := reqs[order[p] := q], reqs[order[p]];
    var init, last := order[..|order| - 1], order[|order| - 1];
    var more := q.data[was.sent..q.sent];
    if p < |order| - 1 {
      SentGrows(reqs, init, p, q);
      assert reqs'[last] == reqs[last];
      EmptySwap(Sent(reqs, init), more, reqs[last].data[..reqs[last].sent]);
    } else {
      SentUnchanged(reqs, reqs', init);
      SliceGrows(q.data, was.sent, q.sent);
      Associative(Sent(reqs, init), was.data[..was.sent], more);
    }
  }

  lemma EmptySwap<T>(x: seq<T>, a: seq<T>, b: seq<T>)
    requires |a| == 0 || |b| == 0
    ensures (x + a) + b == (x + b) + a
  {
  }

  lemma SliceGrows<T>(data: seq<T>, i: nat, j: nat)
    requires i <= j <= |data|
    ensures data[..j] == data[..i] + data[i..j]
  {
  }

  /** Completing one request, when nothing behind it is complete, puts it at the end of the log. */
  lemma {:induction false} FinishedGrows(reqs: map<ReqId, Req>, order: seq<ReqId>, p: nat, q: Req)
    requires AllIn(reqs, order) && p < |order| && q.sent <= |q.data|
    requires forall i :: 0 <= i < |order| && i != p ==> order[i] != order[p]
    requires q.phase == Done ==> forall i :: p < i < |order| ==> reqs[order[i]].phase != Done
    requires reqs[order[p]].phase != Done
    ensures AllIn(reqs[order[p] := q], order)
    ensures Finished(reqs[order[p] := q], order)
         == Finished(reqs, order) + if q.phase == Done then [order[p]] else []
  {
    var reqs' := reqs[order[p] := q];
    var init, last := order[..|order| - 1], order[|order| - 1];
    if p < |order| - 1 {
      FinishedGrows(reqs, init, p, q);
      assert reqs'[last] == reqs[last];
    } else {
      SentUnchanged(reqs, reqs', init);
    }
  }

  lemma {:induction false} SentIsPrefix(reqs: map<ReqId, Req>, order: seq<ReqId>)
    requires AllIn(reqs, order) && OneByOne(reqs, order)
    ensures Sent(reqs, order) <= Whole(reqs, order)
    ensures (forall i :: 0 <= i < |order| ==> reqs[order[i]].Full()) ==> Sent(reqs, order) == Whole(reqs, order)
  {
    if |order| > 0 {
      var init := order[..|order| - 1];
      var q := reqs[order[|order| - 1]];
      SentIsPrefix(reqs, init);
      if q.sent > 0 {
        assert forall i :: 0 <= i < |init| ==> reqs[init[i]].Full();
        assert q.data[..q.sent] <= q.data;
      } else {
        assert q.data[..0] == [];
      }
    }
  }

  lemma {:induction false} WholeSplits(reqs: map<ReqId, Req>, a: seq<ReqId>, b: seq<ReqId>)
    requires AllIn(reqs, a) && AllIn(reqs, b)
    ensures AllIn(reqs, a + b)
    ensures Whole(reqs, a + b) == Whole(reqs, a) + Whole(reqs, b)
  {
    if |b| == 0 {
      assert a + b == a;
    } else {
      var init, last := b[..|b| - 1], b[|b| - 1];
      assert b == init + [last];
      AllInSplits(reqs, init, [last]);
      WholeSplits(reqs, a, init);
      WholeOneMore(reqs, a + init, last);
      WholeOneMore(reqs, init, last);
      Associative(a, init, [last]);
      Associative(Whole(reqs, a), Whole(reqs, init), Whole(reqs, [last]));
    }
  }

  lemma Associative<T>(a: seq<T>, b: seq<T>, c: seq<T>)
    ensures (a + b) + c == a + (b + c)
  {
  }

  lemma AllInSplits(reqs: map<ReqId, Req>, a: seq<ReqId>, b: seq<ReqId>)
    ensures AllIn(reqs, a + b) <==> AllIn(reqs, a) && AllIn(reqs, b)
  {
    assert forall i :: 0 <= i < |a| ==> (a + b)[i] == a[i];
    assert forall i :: 0 <= i < |b| ==> (a + b)[|a| + i] == b[i];
  }

  lemma WholeOneMore(reqs: map<ReqId, Req>, a: seq<ReqId>, r: ReqId)
    requires AllIn(reqs, a) && AllIn(reqs, [r])
    ensures AllIn(reqs, a + [r]) && Whole(reqs, a + [r]) == Whole(reqs, a) + Whole(reqs, [r])
  {
    assert (a + [r])[..|a|] == a && [r][..0] == [];
  }

  // ---------- the wire is a prefix of what was asked for ----------

  lemma {:induction false} OnTheWayKnown(queue: seq<Msg>, reqs: map<ReqId, Req>, c: ConnId)
    requires forall r :: r in reqs ==> reqs[r].sent <= |reqs[r].data|
    ensures AllIn(reqs, OnTheWay(queue, reqs, c))
  {
    if |queue| > 0 {
      OnTheWayKnown(queue[..|queue| - 1], reqs, c);
    }
  }

  /**
   No interleaving: what the socket of a connection has accepted is a prefix of the data of its
   requests, one after the other, in the order of the `send` calls; and the completed requests are
   logged in that order.
   */
  lemma WireIsPrefixOfRequests(s: State, c: ConnId)
    requires Inv(s) && c in s.conns && WireOk(s, c)
    ensures AllIn(s.reqs, s.conns[c].calls)
    ensures s.conns[c].wire <= Whole(s.reqs, s.conns[c].calls)
    ensures s.conns[c].doneLog == Finished(s.reqs, s.conns[c].order) && s.conns[c].order <= s.conns[c].calls
  {
    var k := s.conns[c];
    var rest := OnTheWay(s.queue, s.reqs, c);
    forall r | r in s.reqs
      ensures s.reqs[r].sent <= |s.reqs[r].data|
    {
      assert ReqKnown(s, r);
    }
    OnTheWayKnown(s.queue, s.reqs, c);
    SentIsPrefix(s.reqs, k.order);
    WholeSplits(s.reqs, k.order, rest);
  }
}
