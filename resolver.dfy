/**
 * The batch-by-batch resolution of index options behind `List`'s iterate
 * closure and `ForceIterateIndexOptions` (cmd/zoekt-sourcegraph-indexserver/sg.go).
 *
 * The transport is an oracle: given a fingerprint and a batch of ids it
 * answers with an error or with the items and the next fingerprint. The
 * REST transport uses a string fingerprint and the gRPC one a fingerprint
 * message; the algorithm is written once, generic over the fingerprint.
 */
module Resolver {
  import opened GoInts
  import opened Wrappers
  import opened Batching
  import opened Config
  import opened Collections

  /** One transport answer for one batch. */
  datatype Response<F> = Failed(err: string) | Fetched(items: seq<IndexOptionsItem>, next: F)

  /** The answers to every batch, each asked with the same fingerprint. */
  function Responses<F>(fp: F, batches: seq<seq<Uint32>>, fetch: (F, seq<Uint32>) -> Response<F>): (rs: seq<Response<F>>)
    ensures |rs| == |batches|
    ensures forall i :: 0 <= i < |batches| ==> rs[i] == fetch(fp, batches[i])
  {
    seq(|batches|, i requires 0 <= i < |batches| => fetch(fp, batches[i]))
  }

  /** The transport calls of a pass: every batch, in order, asked with the same fingerprint. */
  function Requests<F>(fp: F, batches: seq<seq<Uint32>>): (qs: seq<(F, seq<Uint32>)>)
    ensures |qs| == |batches|
    ensures forall i :: 0 <= i < |batches| ==> qs[i] == (fp, batches[i])
  {
    seq(|batches|, i requires 0 <= i < |batches| => (fp, batches[i]))
  }

  lemma {:induction false} RequestsStep<F>(fp: F, batches: seq<seq<Uint32>>, b: nat)
    requires b < |batches|
    ensures Requests(fp, batches[..b + 1]) == Requests(fp, batches[..b]) + [(fp, batches[b])]
  {
  }

  /** Asking one more batch appends its answer. */
  lemma {:induction false} ResponsesStep<F>(fp: F, batches: seq<seq<Uint32>>, fetch: (F, seq<Uint32>) -> Response<F>, b: nat)
    requires b < |batches|
    ensures Responses(fp, batches[..b + 1], fetch) == Responses(fp, batches[..b], fetch) + [fetch(fp, batches[b])]
  {
  }

  /** The options of the items that carry no error, in response order. */
  function Usable(items: seq<IndexOptionsItem>): (r: seq<IndexOptions>)
    ensures |r| <= |items|
  {
    if items == [] then []
    else
      var last := items[|items| - 1];
      Usable(items[..|items| - 1]) + (if last.error == "" then [last.options] else [])
  }

  /** What the consumer receives from one answer: nothing from a failed batch. */
  function Contribution<F>(r: Response<F>): (c: seq<IndexOptions>)
    ensures r.Failed? ==> c == []
    ensures r.Fetched? ==> |c| <= |r.items|
  {
    match r
    case Failed(_) => []
    case Fetched(items, _) => Usable(items)
  }

  /** What the consumer receives from a whole pass, in batch order. */
  function Delivered<F>(rs: seq<Response<F>>): seq<IndexOptions> {
    if rs == [] then []
    else Delivered(rs[..|rs| - 1]) + Contribution(rs[|rs| - 1])
  }

  predicate AllFetched<F>(rs: seq<Response<F>>) {
    forall i :: 0 <= i < |rs| ==> rs[i].Fetched?
  }

  /**
   * The fingerprint a pass leaves stored: the first batch's next
   * fingerprint when every batch succeeded, and the starting one otherwise
   * (and when there was no batch at all).
   */
  function Committed<F>(start: F, rs: seq<Response<F>>): (c: F)
    ensures rs == [] ==> c == start
    ensures (exists i :: 0 <= i < |rs| && rs[i].Failed?) ==> c == start
    ensures |rs| > 0 && (forall i :: 0 <= i < |rs| ==> rs[i].Fetched?) ==> c == rs[0].next
  {
    if rs != [] && AllFetched(rs) then rs[0].next else start
  }

  lemma {:induction false} PassStep<F>(start: F, rs: seq<Response<F>>, r: Response<F>)
    ensures Delivered(rs + [r]) == Delivered(rs) + Contribution(r)
    ensures r.Failed? ==> Committed(start, rs + [r]) == start
    ensures r.Fetched? && rs == [] ==> Committed(start, rs + [r]) == r.next
    ensures r.Fetched? && rs != [] ==> Committed(start, rs + [r]) == Committed(start, rs)
  {
    DeliveredSnoc(rs, r);
    assert (rs + [r])[..|rs|] == rs;
    if r.Fetched? && rs != [] {
      assert AllFetched(rs + [r]) <==> AllFetched(rs) by {
        assert forall i :: 0 <= i < |rs| ==> (rs + [r])[i] == rs[i];
      }
    }
  }

  /** The consumer's calls for one answered batch: items with an error are skipped. */
  method DeliverItems(items: seq<IndexOptionsItem>) returns (delivered: seq<IndexOptions>)
    ensures delivered == Usable(items)
  {
    delivered := [];
    for k := 0 to |items|
      invariant delivered == Usable(items[..k])
    {
      assert items[..k + 1][..k] == items[..k];
      if items[k].error == "" {
        delivered := delivered + [items[k].options];
      }
    }
    assert items[..|items|] == items;
  }

  /**
   * One pass of `IterateIndexOptions` over the batches, starting from the
   * fingerprint stored when the pass begins. `stored` follows the client's
   * fingerprint field through the pass; `requests` records each transport
   * call and `delivered` each call of the consumer.
   */
  method ResolvePass<F>(start: F, batches: seq<seq<Uint32>>, fetch: (F, seq<Uint32>) -> Response<F>)
    returns (stored: F, requests: seq<(F, seq<Uint32>)>, delivered: seq<IndexOptions>)
    ensures requests == Requests(start, batches)
    ensures delivered == Delivered(Responses(start, batches, fetch))
    ensures stored == Committed(start, Responses(start, batches, fetch))
  {
    stored := start;
    var first := true;
    requests := [];
    delivered := [];
    ghost var rs: seq<Response<F>> := [];
    for b := 0 to |batches|
      invariant requests == Requests(start, batches[..b])
      invariant rs == Responses(start, batches[..b], fetch)
      invariant delivered == Delivered(rs)
      invariant first <==> b == 0
      invariant stored == Committed(start, rs)
    {
      RequestsStep(start, batches, b);
      requests := requests + [(start, batches[b])];
      var response := fetch(start, batches[b]);
      ResponsesStep(start, batches, fetch, b);
      PassStep(start, rs, response);
      rs := rs + [response];
      match response {
        case Failed(_) =>
          first := false;
          stored := start;
        case Fetched(items, next) =>
          if first {
            first := false;
            stored := next;
          }
          var usable := DeliverItems(items);
          delivered := delivered + usable;
      }
    }
    assert batches[..|batches|] == batches;
  }

  // ---------------------------------------------------------------- properties of a pass

  /** Appending one answer appends its contribution. */
  lemma {:induction false} DeliveredSnoc<F>(rs: seq<Response<F>>, r: Response<F>)
    ensures Delivered(rs + [r]) == Delivered(rs) + Contribution(r)
  {
    assert (rs + [r])[..|rs|] == rs;
  }

  /** One more answer at the end of the second part keeps the split of what is delivered. */
  lemma {:induction false} DeliveredAppendStep<F>(rs: seq<Response<F>>, init: seq<Response<F>>, last: Response<F>, all: seq<Response<F>>)
    requires all == (rs + init) + [last]
    requires Delivered(rs + init) == Delivered(rs) + Delivered(init)
    ensures Delivered(all) == Delivered(rs) + Delivered(init + [last])
  {
    DeliveredSnoc(rs + init, last);
    DeliveredSnoc(init, last);
    AppendAssoc(Delivered(rs), Delivered(init), Contribution(last));
  }

  lemma {:induction false} DeliveredAppend<F>(rs: seq<Response<F>>, ss: seq<Response<F>>)
    ensures Delivered(rs + ss) == Delivered(rs) + Delivered(ss)
    decreases |ss|
  {
    if ss == [] {
      assert rs + ss == rs;
    } else {
      var init, last := ss[..|ss| - 1], ss[|ss| - 1];
      assert ss == init + [last];
      assert rs + ss == (rs + init) + [last];
      DeliveredAppend(rs, init);
      DeliveredAppendStep(rs, init, last, rs + ss);
    }
  }

  lemma {:induction false} DeliveredSingleton<F>(r: Response<F>)
    ensures Delivered([r]) == Contribution(r)
  {
    assert [r][..0] == [];
  }

  lemma {:induction false} BatchIsolation<F>(rs: seq<Response<F>>, i: nat)
    requires i < |rs|
    ensures Delivered(rs) == Delivered(rs[..i]) + Contribution(rs[i]) + Delivered(rs[i + 1..])
  {
    var pre, mid, post := rs[..i], [rs[i]], rs[i + 1..];
    var front := pre + mid;
    assert rs == front + post;
    DeliveredAppend(front, post);
    assert Delivered(rs) == Delivered(front) + Delivered(post);
    DeliveredAppend(pre, mid);
    assert Delivered(front) == Delivered(pre) + Delivered(mid);
    DeliveredSingleton(rs[i]);
    assert Delivered(mid) == Contribution(rs[i]);
  }

  /** A failed batch delivers what the pass would have delivered without that batch. */
  lemma {:induction false} FailedBatchIsolated<F>(rs: seq<Response<F>>, i: nat)
    requires i < |rs| && rs[i].Failed?
    ensures Delivered(rs) == Delivered(rs[..i] + rs[i + 1..])
  {
    var a, b := Delivered(rs[..i]), Delivered(rs[i + 1..]);
    assert Delivered(rs) == a + b by {
      BatchIsolation(rs, i);
      assert Contribution(rs[i]) == [];
      assert a + [] == a;
    }
    DeliveredAppend(rs[..i], rs[i + 1..]);
  }

  /** Over a whole pass the consumer gets what each batch contributes, and nothing else. */
  lemma {:induction false} DeliveredExactly<F>(rs: seq<Response<F>>)
    ensures forall i, o :: 0 <= i < |rs| && o in Contribution(rs[i]) ==> o in Delivered(rs)
    ensures forall o :: o in Delivered(rs) ==> exists i :: 0 <= i < |rs| && o in Contribution(rs[i])
  {
    forall i | 0 <= i < |rs|
      ensures forall o :: o in Contribution(rs[i]) ==> o in Delivered(rs)
    {
      BatchIsolation(rs, i);
    }
    if rs != [] {
      DeliveredExactly(rs[..|rs| - 1]);
      DeliveredSourceStep(rs);
    }
  }

  /** The second clause of `DeliveredExactly`, carried from all batches but the last to all of them. */
  lemma {:induction false} DeliveredSourceStep<F>(rs: seq<Response<F>>)
    requires rs != []
    requires var pre := rs[..|rs| - 1];
      forall o :: o in Delivered(pre) ==> exists i :: 0 <= i < |pre| && o in Contribution(pre[i])
    ensures forall o :: o in Delivered(rs) ==> exists i :: 0 <= i < |rs| && o in Contribution(rs[i])
  {
    var n := |rs| - 1;
    var pre := rs[..n];
    var before, last := Delivered(pre), Contribution(rs[n]);
    assert Delivered(rs) == before + last;
    forall o | o in before + last
      ensures exists i :: 0 <= i < |rs| && o in Contribution(rs[i])
    {
      if o in before {
        var i :| 0 <= i < |pre| && o in Contribution(pre[i]);
        assert rs[i] == pre[i];
      } else {
        assert o in Contribution(rs[n]);
      }
    }
  }

  /**
   * Per-repository isolation: the consumer sees the options of every item
   * without an error, and only options that some such item carries.
   */
  lemma {:induction false} UsableExactly(items: seq<IndexOptionsItem>)
    ensures forall i :: 0 <= i < |items| && items[i].error == "" ==> items[i].options in Usable(items)
    ensures forall o :: o in Usable(items) ==> exists i :: 0 <= i < |items| && items[i].error == "" && items[i].options == o
  {
    if items != [] {
      var n := |items| - 1;
      UsableExactly(items[..n]);
      forall o | o in Usable(items)
        ensures exists i :: 0 <= i < |items| && items[i].error == "" && items[i].options == o
      {
        if o in Usable(items[..n]) {
          var i :| 0 <= i < n && items[..n][i].error == "" && items[..n][i].options == o;
          assert items[i] == items[..n][i];
        } else {
          assert items[n].error == "" && items[n].options == o;
        }
      }
      forall i | 0 <= i < |items| && items[i].error == ""
        ensures items[i].options in Usable(items)
      {
        if i < n {
          assert items[..n][i] == items[i];
        }
      }
    }
  }

  // ---------------------------------------------------------------- forced resolution

  /** A callback of `ForceIterateIndexOptions`. */
  datatype ForceEvent = OnSuccess(options: IndexOptions) | OnError(repoID: Uint32, err: string)

  /** The callbacks for one item: an error for a known repository, success for an item without error. */
  function ItemEvents(o: IndexOptionsItem): (r: seq<ForceEvent>)
    ensures |r| <= 1
    ensures o.error == "" ==> r == [OnSuccess(o.options)]
    ensures o.error != "" && o.options.repoID > 0 ==> r == [OnError(o.options.repoID, o.error)]
    ensures r == [] <==> o.error != "" && o.options.repoID == 0
  {
    (if o.options.repoID > 0 && o.error != "" then [OnError(o.options.repoID, o.error)] else [])
    + (if o.error == "" then [OnSuccess(o.options)] else [])
  }

  /** The callbacks for the items of one answer, in response order. */
  function ItemsEvents(items: seq<IndexOptionsItem>): (es: seq<ForceEvent>)
    ensures |es| <= |items|
  {
    if items == [] then []
    else ItemsEvents(items[..|items| - 1]) + ItemEvents(items[|items| - 1])
  }

  /**
   * Per-item routing over a whole answer: every item without an error
   * yields its success, every known repository with an error its error,
   * and each callback comes from one item.
   */
  lemma {:induction false} ItemsEventsExactly(items: seq<IndexOptionsItem>)
    ensures forall i :: 0 <= i < |items| && items[i].error == "" ==> OnSuccess(items[i].options) in ItemsEvents(items)
    ensures forall i :: 0 <= i < |items| && items[i].error != "" && items[i].options.repoID > 0 ==>
      OnError(items[i].options.repoID, items[i].error) in ItemsEvents(items)
    ensures forall e :: e in ItemsEvents(items) ==> exists i :: 0 <= i < |items| && ItemEvents(items[i]) == [e]
  {
    forall i | 0 <= i < |items|
      ensures items[i].error == "" ==> OnSuccess(items[i].options) in ItemsEvents(items)
      ensures items[i].error != "" && items[i].options.repoID > 0 ==>
        OnError(items[i].options.repoID, items[i].error) in ItemsEvents(items)
    {
      ItemEventsIn(items, i);
    }
    if items != [] {
      ItemsEventsExactly(items[..|items| - 1]);
      ItemsEventsSourceStep(items);
    }
  }

  /** The callback of one item, if it has one, occurs among those of the whole answer. */
  lemma {:induction false} ItemEventsIn(items: seq<IndexOptionsItem>, i: nat)
    requires i < |items|
    ensures ItemEvents(items[i]) != [] ==> ItemEvents(items[i])[0] in ItemsEvents(items)
    decreases |items|
  {
    var n := |items| - 1;
    var pre := items[..n];
    assert ItemsEvents(items) == ItemsEvents(pre) + ItemEvents(items[n]);
    if i < n {
      ItemEventsIn(pre, i);
      assert pre[i] == items[i];
      assert ItemEvents(items[i]) != [] ==> ItemEvents(items[i])[0] in ItemsEvents(pre);
    } else {
      assert i == n;
    }
  }

  /** The last clause of `ItemsEventsExactly`, carried from all items but the last to all of them. */
  lemma {:induction false} ItemsEventsSourceStep(items: seq<IndexOptionsItem>)
    requires items != []
    requires var pre := items[..|items| - 1];
      forall e :: e in ItemsEvents(pre) ==> exists i :: 0 <= i < |pre| && ItemEvents(pre[i]) == [e]
    ensures forall e :: e in ItemsEvents(items) ==> exists i :: 0 <= i < |items| && ItemEvents(items[i]) == [e]
  {
    var n := |items| - 1;
    var pre := items[..n];
    var ps, last := ItemsEvents(pre), ItemEvents(items[n]);
    assert ItemsEvents(items) == ps + last;
    forall e | e in ps + last
      ensures exists i :: 0 <= i < |items| && ItemEvents(items[i]) == [e]
    {
      if e in ps {
        var i :| 0 <= i < |pre| && ItemEvents(pre[i]) == [e];
        assert items[i] == pre[i];
      } else {
        assert |last| <= 1 && last[0] == e;
        assert ItemEvents(items[n]) == [e];
      }
    }
  }

  /** The callbacks for one batch: a failed batch reports its error for each of its ids, in order. */
  function BatchEvents<F>(batch: seq<Uint32>, r: Response<F>): (es: seq<ForceEvent>)
    ensures r.Failed? ==> |es| == |batch| && forall i :: 0 <= i < |batch| ==> es[i] == OnError(batch[i], r.err)
  {
    match r
    case Failed(err) => seq(|batch|, i requires 0 <= i < |batch| => OnError(batch[i], err))
    case Fetched(items, _) => ItemsEvents(items)
  }

  /** The callbacks of each batch of a pass, in batch order. */
  function PerBatch<F>(batches: seq<seq<Uint32>>, rs: seq<Response<F>>): seq<seq<ForceEvent>>
    requires |rs| == |batches|
  {
    seq(|rs|, i requires 0 <= i < |rs| => BatchEvents(batches[i], rs[i]))
  }

  /** The lists of callbacks one after the other. */
  function Concat(ess: seq<seq<ForceEvent>>): seq<ForceEvent> {
    if ess == [] then [] else Concat(ess[..|ess| - 1]) + ess[|ess| - 1]
  }

  /** The callbacks of a forced pass: those of each batch, batch after batch. */
  function ForceEvents<F>(batches: seq<seq<Uint32>>, rs: seq<Response<F>>): seq<ForceEvent>
    requires |rs| == |batches|
  {
    Concat(PerBatch(batches, rs))
  }

  /** The callbacks of a forced pass are exactly those of its batches: each batch's occur, and nothing else. */
  lemma ForceEventsExactly<F>(batches: seq<seq<Uint32>>, rs: seq<Response<F>>)
    requires |rs| == |batches|
    ensures forall i, e :: 0 <= i < |rs| && e in BatchEvents(batches[i], rs[i]) ==> e in ForceEvents(batches, rs)
    ensures forall e :: e in ForceEvents(batches, rs) ==> exists i :: 0 <= i < |rs| && e in BatchEvents(batches[i], rs[i])
  {
    var ess := PerBatch(batches, rs);
    ConcatExactly(ess);
    forall i, e | 0 <= i < |rs| && e in BatchEvents(batches[i], rs[i])
      ensures e in Concat(ess)
    {
      assert e in ess[i];
    }
    forall e | e in Concat(ess)
      ensures exists i :: 0 <= i < |rs| && e in BatchEvents(batches[i], rs[i])
    {
      var i :| 0 <= i < |ess| && e in ess[i];
      assert ess[i] == BatchEvents(batches[i], rs[i]);
    }
  }

  /**
   * Two ways a requested id gets no callback at all, although the interface
   * promises one per repository: the answer's item for it carries an error
   * but no repository id (as the fake's "not found" items do), or the answer
   * leaves it out.
   */
  lemma {:induction false} ForceCallbackGaps<F>(batch: seq<Uint32>, o: IndexOptions, err: string, next: F)
    requires err != "" && o.repoID == 0
    ensures ForceEvents([batch], [Fetched([IndexOptionsItem(o, err)], next)]) == []
    ensures ForceEvents([batch], [Fetched([], next)]) == []
  {
    var unrouted: Response<F> := Fetched([IndexOptionsItem(o, err)], next);
    assert ItemsEvents([IndexOptionsItem(o, err)]) == ItemsEvents([]) + ItemEvents(IndexOptionsItem(o, err));
    assert BatchEvents(batch, unrouted) == [];
    assert PerBatch([batch], [unrouted]) == [[]];
    assert Concat([[]]) == Concat([]) + [];
    var missing: Response<F> := Fetched([], next);
    assert PerBatch([batch], [missing]) == [[]];
  }

  /** Each list's callbacks occur in the concatenation, and nothing else does. */
  lemma {:induction false} ConcatExactly(ess: seq<seq<ForceEvent>>)
    ensures forall i, e :: 0 <= i < |ess| && e in ess[i] ==> e in Concat(ess)
    ensures forall e :: e in Concat(ess) ==> exists i :: 0 <= i < |ess| && e in ess[i]
  {
    forall i, e | 0 <= i < |ess| && e in ess[i]
      ensures e in Concat(ess)
    {
      ConcatIn(ess, i, e);
    }
    if ess != [] {
      ConcatExactly(ess[..|ess| - 1]);
      ConcatSourceStep(ess);
    }
  }

  /** A callback of one list occurs in the concatenation. */
  lemma {:induction false} ConcatIn(ess: seq<seq<ForceEvent>>, i: nat, e: ForceEvent)
    requires i < |ess| && e in ess[i]
    ensures e in Concat(ess)
    decreases |ess|
  {
    var n := |ess| - 1;
    var pre := ess[..n];
    assert Concat(ess) == Concat(pre) + ess[n];
    if i < n {
      assert pre[i] == ess[i];
      ConcatIn(pre, i, e);
    } else {
      assert i == n;
    }
  }

  /** The second clause of `ConcatExactly`, carried from all lists but the last to all of them. */
  lemma {:induction false} ConcatSourceStep(ess: seq<seq<ForceEvent>>)
    requires ess != []
    requires var pre := ess[..|ess| - 1];
      forall e :: e in Concat(pre) ==> exists i :: 0 <= i < |pre| && e in pre[i]
    ensures forall e :: e in Concat(ess) ==> exists i :: 0 <= i < |ess| && e in ess[i]
  {
    var n := |ess| - 1;
    var pre := ess[..n];
    assert Concat(ess) == Concat(pre) + ess[n];
    forall e | e in Concat(pre) + ess[n]
      ensures exists i :: 0 <= i < |ess| && e in ess[i]
    {
      if e in Concat(pre) {
        var i :| 0 <= i < |pre| && e in pre[i];
        assert ess[i] == pre[i];
      }
    }
  }

  lemma {:induction false} ForceStep<F>(batches: seq<seq<Uint32>>, rs: seq<Response<F>>, b: seq<Uint32>, r: Response<F>)
    requires |rs| == |batches|
    ensures ForceEvents(batches + [b], rs + [r]) == ForceEvents(batches, rs) + BatchEvents(b, r)
  {
    var ess := PerBatch(batches + [b], rs + [r]);
    assert ess[..|rs|] == PerBatch(batches, rs);
    assert ess[|rs|] == BatchEvents(b, r);
  }

  /** The callbacks of the first `b + 1` batches: those of the first `b`, then those of batch `b`. */
  lemma {:induction false} ForcePassStep<F>(empty: F, batches: seq<seq<Uint32>>, fetch: (F, seq<Uint32>) -> Response<F>, b: nat)
    requires b < |batches|
    ensures ForceEvents(batches[..b + 1], Responses(empty, batches[..b + 1], fetch)) ==
      ForceEvents(batches[..b], Responses(empty, batches[..b], fetch)) + BatchEvents(batches[b], fetch(empty, batches[b]))
  {
    ResponsesStep(empty, batches, fetch, b);
    assert batches[..b + 1] == batches[..b] + [batches[b]];
    ForceStep(batches[..b], Responses(empty, batches[..b], fetch), batches[b], fetch(empty, batches[b]));
  }

  /** A failed batch: `onError` for each of its ids, in order. */
  method ReportBatchError(batch: seq<Uint32>, err: string) returns (events: seq<ForceEvent>)
    ensures |events| == |batch|
    ensures forall i :: 0 <= i < |batch| ==> events[i] == OnError(batch[i], err)
  {
    events := [];
    for k := 0 to |batch|
      invariant |events| == k
      invariant forall i :: 0 <= i < k ==> events[i] == OnError(batch[i], err)
    {
      events := events + [OnError(batch[k], err)];
    }
  }

  /** An answered batch: each item routed to `onError`, `onSuccess` or neither, in response order. */
  method RouteItems(items: seq<IndexOptionsItem>) returns (events: seq<ForceEvent>)
    ensures events == ItemsEvents(items)
  {
    events := [];
    for k := 0 to |items|
      invariant events == ItemsEvents(items[..k])
    {
      assert items[..k + 1][..k] == items[..k];
      if items[k].options.repoID > 0 && items[k].error != "" {
        events := events + [OnError(items[k].options.repoID, items[k].error)];
      }
      if items[k].error == "" {
        events := events + [OnSuccess(items[k].options)];
      }
    }
    assert items[..|items|] == items;
  }

  /** The callbacks for one batch's answer. */
  method RouteBatch<F>(batch: seq<Uint32>, response: Response<F>) returns (events: seq<ForceEvent>)
    ensures events == BatchEvents(batch, response)
  {
    match response {
      case Failed(err) =>
        events := ReportBatchError(batch, err);
      case Fetched(items, _) =>
        events := RouteItems(items);
    }
  }

  /**
   * One `ForceIterateIndexOptions` pass: every batch is asked with the
   * empty fingerprint, and every answer is routed to the callbacks.
   */
  method ForcePass<F>(empty: F, batches: seq<seq<Uint32>>, fetch: (F, seq<Uint32>) -> Response<F>)
    returns (requests: seq<(F, seq<Uint32>)>, events: seq<ForceEvent>)
    ensures requests == Requests(empty, batches)
    ensures events == ForceEvents(batches, Responses(empty, batches, fetch))
  {
    requests := [];
    events := [];
    for b := 0 to |batches|
      invariant requests == Requests(empty, batches[..b])
      invariant events == ForceEvents(batches[..b], Responses(empty, batches[..b], fetch))
    {
      RequestsStep(empty, batches, b);
      requests := requests + [(empty, batches[b])];
      var response := fetch(empty, batches[b]);
      var more := RouteBatch(batches[b], response);
      ForcePassStep(empty, batches, fetch, b);
      events := events + more;
    }
    assert batches[..|batches|] == batches;
  }

  // ---------------------------------------------------------------- a worked pass

  /** A control plane holding options for repositories 1 and 3 but not 2. */
  function ScenarioFetch(o1: IndexOptions, o2: IndexOptions, o3: IndexOptions): (string, seq<Uint32>) -> Response<string> {
    (fp, ids) =>
      if ids == [1, 2] then Fetched([IndexOptionsItem(o1, ""), IndexOptionsItem(o2, "not found")], "F1")
      else if ids == [3] then Fetched([IndexOptionsItem(o3, "")], "F2")
      else Failed("unexpected batch")
  }

  /**
   * Ids 1, 2 and 3 in batches of two: the consumer sees the options of 1
   * and 3 only, and the first batch's fingerprint "F1" is kept while the
   * second's "F2" is discarded.
   */
  lemma {:induction false} ListScenario(start: string, o1: IndexOptions, o2: IndexOptions, o3: IndexOptions)
    ensures Batched([1, 2, 3], 2) == [[1, 2], [3]]
    ensures Delivered(Responses(start, Batched([1, 2, 3], 2), ScenarioFetch(o1, o2, o3))) == [o1, o3]
    ensures Committed(start, Responses(start, Batched([1, 2, 3], 2), ScenarioFetch(o1, o2, o3))) == "F1"
  {
    var ids: seq<Uint32> := [1, 2, 3];
    assert ids[..2] == [1, 2] && ids[2..] == [3];
    assert Batched(ids, 2) == [[1, 2], [3]];
    var r1 := Fetched([IndexOptionsItem(o1, ""), IndexOptionsItem(o2, "not found")], "F1");
    var r2 := Fetched([IndexOptionsItem(o3, "")], "F2");
    assert Responses(start, [[1, 2], [3]], ScenarioFetch(o1, o2, o3)) == [r1, r2];
    assert Usable(r1.items) == [o1] by {
      assert r1.items[..1] == [IndexOptionsItem(o1, "")];
      assert r1.items[..1][..0] == [];
    }
    assert Usable(r2.items) == [o3] by {
      assert r2.items[..0] == [];
    }
    DeliveredSingleton(r1);
    DeliveredSnoc([r1], r2);
    assert [r1] + [r2] == [r1, r2];
  }
}
