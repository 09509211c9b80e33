/**
 The paginated read aggregator behind `Query` and `Scan`.

 The database collaborator is modelled by the finite sequence of responses it
 gives: the i-th read request of one aggregation receives `pages[i]`. The
 aggregator issues a request, keeps the page's items, and while the page's
 `LastEvaluatedKey` has at least one field it recurses with that key as the
 next `ExclusiveStartKey`.

 `Aggregate` follows the code as written, including the way a failure on a
 later page is handled: the recursive level that sees the failure returns no
 records and its own error variable, which is nil at that point, so the level
 above carries on as if the rest of the table were empty. `AggregateCorrected`
 and `CollectPages` give the evidently intended behaviour (abort with the
 failing page's error) for comparison.
 */
module Pagination {
  import opened Wrappers
  import opened Types

  /** What one aggregation returns (`agg`, `err`) and the requests it issued, in order. */
  datatype Run = Run(records: seq<Item>, err: Option<Error>, requests: seq<ReadRequest>)

  /**
   The collaborator eventually ends the chain: some response fails or carries
   no continuation token. Without this, `query`/`scan` recurse without bound.
   */
  predicate Terminates(pages: seq<Response>)
    decreases |pages|
  {
    |pages| > 0 && (Stops(pages[0]) || Terminates(pages[1..]))
  }

  /** The index of the response that ends the chain: the number of requests issued, minus one. */
  function FirstStop(pages: seq<Response>): (k: nat)
    requires Terminates(pages)
    ensures k < |pages| && Stops(pages[k])
    ensures forall j :: 0 <= j < k ==> !Stops(pages[j])
    decreases |pages|
  {
    if Stops(pages[0]) then 0 else 1 + FirstStop(pages[1..])
  }

  /** All items of a run of pages, page after page, each page in its own order. */
  function Flatten(pages: seq<Response>): seq<Item>
    decreases |pages|
  {
    if |pages| == 0 then [] else ItemsOf(pages[0]) + Flatten(pages[1..])
  }

  /** The start key the j-th request of a chain begun at `start` carries. */
  function StartKeyAt(start: Option<Item>, pages: seq<Response>, j: nat): Option<Item>
    requires j <= |pages|
  {
    if j == 0 then start else LastKey(pages[j - 1])
  }

  /**
   The request for one page (client.go:116-126 for a query, 153-162 for a
   scan): the same table, placeholders and filter every time; the key
   condition only for a query; the start key only when one is given.
   */
  function BuildRequest(op: ReadOp, c: DocumentClient, e: Expression, lastKey: Option<Item>): ReadRequest
  {
    ReadRequest(op, c.table, e.names, e.values,
                if op == QueryOp then e.keyCondition else None,
                e.filter, lastKey)
  }

  /**
   `query`/`scan` as written (client.go:115-150 and 152-186). `lastKey` is the
   function's `lastKey` parameter: None on the entry call, the previous page's
   key on a recursive call.
   */
  function Aggregate(op: ReadOp, c: DocumentClient, e: Expression, pages: seq<Response>, lastKey: Option<Item>): Run
    requires Terminates(pages)
    decreases |pages|
  {
    var request := BuildRequest(op, c, e, lastKey);
    match pages[0]
    case Failed(message) =>
      // the page's own failure propagates with its error
      Run([], Some(RequestError(message)), [request])
    case Page(items, lk) =>
      if HasMore(lk) then
        var rest := Aggregate(op, c, e, pages[1..], lk);
        if rest.err.Some? then
          // `return nil, err`: this level's `err` is nil once its own call succeeded
          Run([], None, [request] + rest.requests)
        else
          Run(items + rest.records, None, [request] + rest.requests)
      else
        Run(items, None, [request])
  }

  /** The aggregator with the failing page's error returned, as the first-page path (client.go:129-131) already does: the evidently intended behaviour. */
  function AggregateCorrected(op: ReadOp, c: DocumentClient, e: Expression, pages: seq<Response>, lastKey: Option<Item>): Run
    requires Terminates(pages)
    decreases |pages|
  {
    var request := BuildRequest(op, c, e, lastKey);
    match pages[0]
    case Failed(message) =>
      Run([], Some(RequestError(message)), [request])
    case Page(items, lk) =>
      if HasMore(lk) then
        var rest := AggregateCorrected(op, c, e, pages[1..], lk);
        if rest.err.Some? then
          Run([], rest.err, [request] + rest.requests)
        else
          Run(items + rest.records, None, [request] + rest.requests)
      else
        Run(items, None, [request])
  }

  /** `Flatten` distributes over the first page of a prefix. */
  lemma {:induction false} FlattenPrefix(pages: seq<Response>, n: nat)
    requires 0 < n <= |pages|
    ensures Flatten(pages[..n]) == ItemsOf(pages[0]) + Flatten(pages[1..][..n - 1])
  {
    assert pages[..n][0] == pages[0];
    assert pages[..n][1..] == pages[1..][..n - 1];
  }

  // ---------------------------------------------------------------------------
  // Properties of the aggregator as written

  /**
   The aggregator issues exactly one request per response up to and including
   the first one that fails or carries an empty continuation token; the
   first request carries the caller's start key and every later one the
   previous page's non-empty `LastEvaluatedKey`.
   */
  lemma {:induction false} RequestChain(op: ReadOp, c: DocumentClient, e: Expression, pages: seq<Response>, start: Option<Item>)
    requires Terminates(pages)
    ensures var r := Aggregate(op, c, e, pages, start);
      && |r.requests| == FirstStop(pages) + 1
      && (forall j :: 0 <= j < |r.requests| ==> r.requests[j] == BuildRequest(op, c, e, StartKeyAt(start, pages, j)))
      && (forall j :: 0 < j < |r.requests| ==> HasMore(r.requests[j].startKey))
    decreases |pages|
  {
    var r := Aggregate(op, c, e, pages, start);
    if !Stops(pages[0]) {
      var lk := pages[0].lastKey;
      var rest := Aggregate(op, c, e, pages[1..], lk);
      RequestChain(op, c, e, pages[1..], lk);
      assert r.requests == [BuildRequest(op, c, e, start)] + rest.requests;
      forall j | 0 < j < |r.requests|
        ensures r.requests[j] == BuildRequest(op, c, e, StartKeyAt(start, pages, j))
      {
        assert r.requests[j] == rest.requests[j - 1];
        if j > 1 {
          assert pages[1..][j - 2] == pages[j - 1];
        }
      }
    }
  }

  /**
   When no fetched page fails, the result is every fetched page's items in
   page order, with a nil error.
   */
  lemma {:induction false} CompleteWhenAllSucceed(op: ReadOp, c: DocumentClient, e: Expression, pages: seq<Response>, start: Option<Item>)
    requires Terminates(pages)
    requires pages[FirstStop(pages)].Page?
    ensures var r := Aggregate(op, c, e, pages, start);
      r.records == Flatten(pages[..FirstStop(pages) + 1]) && r.err == None
    decreases |pages|
  {
    var k := FirstStop(pages);
    FlattenPrefix(pages, k + 1);
    if k == 0 {
      assert pages[1..][..0] == [];
    } else {
      CompleteWhenAllSucceed(op, c, e, pages[1..], pages[0].lastKey);
    }
  }

  /** A failure on the first page returns no records and that failure's error. */
  lemma FirstPageErrorPropagates(op: ReadOp, c: DocumentClient, e: Expression, pages: seq<Response>, start: Option<Item>)
    requires |pages| > 0 && pages[0].Failed?
    ensures Terminates(pages)
    ensures var r := Aggregate(op, c, e, pages, start);
      r.records == [] && r.err == Some(RequestError(pages[0].message)) && |r.requests| == 1
  {
  }

  /**
   A failure on a later page (index k >= 1) is lost: the caller gets a nil
   error, and the records of every page before the one preceding the failure.
   With k == 1 that is no records at all.
   */
  lemma {:induction false} LaterPageErrorSwallowed(op: ReadOp, c: DocumentClient, e: Expression, pages: seq<Response>, start: Option<Item>)
    requires Terminates(pages)
    requires FirstStop(pages) >= 1 && pages[FirstStop(pages)].Failed?
    ensures var r := Aggregate(op, c, e, pages, start);
      r.records == Flatten(pages[..FirstStop(pages) - 1]) && r.err == None
    decreases |pages|
  {
    var k := FirstStop(pages);
    if k == 1 {
      assert pages[..0] == [];
    } else {
      FlattenPrefix(pages, k - 1);
      LaterPageErrorSwallowed(op, c, e, pages[1..], pages[0].lastKey);
    }
  }

  /** The aggregator's error is non-nil exactly when the very first page failed. */
  lemma ErrorOnlyFromFirstPage(op: ReadOp, c: DocumentClient, e: Expression, pages: seq<Response>, start: Option<Item>)
    requires Terminates(pages)
    ensures Aggregate(op, c, e, pages, start).err.Some? <==> pages[0].Failed?
  {
  }

  /**
   A page with no items but a non-empty continuation token does not end the
   aggregation: a second request carrying that token is issued, and the
   outcome is exactly the outcome of the remaining chain, error swallowing aside.
   */
  lemma EmptyPageContinues(op: ReadOp, c: DocumentClient, e: Expression, pages: seq<Response>, start: Option<Item>)
    requires Terminates(pages)
    requires pages[0].Page? && pages[0].items == [] && HasMore(pages[0].lastKey)
    ensures var r := Aggregate(op, c, e, pages, start);
      var rest := Aggregate(op, c, e, pages[1..], pages[0].lastKey);
      && |r.requests| >= 2
      && r.requests[1].startKey == pages[0].lastKey
      && (rest.err == None ==> r.records == rest.records && r.err == None)
  {
  }

  /**
   Responses after the one that ends the chain are never requested: the
   aggregation over any longer sequence with the same prefix is the same.
   */
  lemma {:induction false} UnreadPagesIrrelevant(op: ReadOp, c: DocumentClient, e: Expression, pages: seq<Response>, more: seq<Response>, start: Option<Item>)
    requires Terminates(pages)
    ensures Terminates(pages + more)
    ensures Aggregate(op, c, e, pages + more, start) == Aggregate(op, c, e, pages, start)
    decreases |pages|
  {
    assert (pages + more)[0] == pages[0];
    if !Stops(pages[0]) {
      assert (pages + more)[1..] == pages[1..] + more;
      UnreadPagesIrrelevant(op, c, e, pages[1..], more, pages[0].lastKey);
    }
  }

  /**
   A scan aggregates exactly like a query over the same responses; its
   requests are the query's requests without the key condition.
   */
  lemma {:induction false} ScanMatchesQuery(c: DocumentClient, e: Expression, pages: seq<Response>, start: Option<Item>)
    requires Terminates(pages)
    ensures var q := Aggregate(QueryOp, c, e, pages, start);
      var s := Aggregate(ScanOp, c, e, pages, start);
      && q.records == s.records && q.err == s.err
      && |q.requests| == |s.requests|
      && (forall j :: 0 <= j < |q.requests| ==> s.requests[j] == q.requests[j].(op := ScanOp, keyCondition := None))
    decreases |pages|
  {
    if !Stops(pages[0]) {
      ScanMatchesQuery(c, e, pages[1..], pages[0].lastKey);
    }
  }

  /**
   A concrete chain showing the lost error: two pages with a continuation
   token, then a failed call. The caller gets the first page's item and a
   nil error, although the third page failed and the second page's item is gone.
   */
  lemma SwallowedErrorWitness(c: DocumentClient, e: Expression)
    ensures var a: Item := map["id" := S("a")];
      var b: Item := map["id" := S("b")];
      var token: Item := map["id" := S("k")];
      var pages := [Page([a], Some(token)), Page([b], Some(token)), Failed("throttled")];
      && Terminates(pages)
      && Aggregate(QueryOp, c, e, pages, None).records == [a]
      && Aggregate(QueryOp, c, e, pages, None).err == None
      && AggregateCorrected(QueryOp, c, e, pages, None).records == []
      && AggregateCorrected(QueryOp, c, e, pages, None).err == Some(RequestError("throttled"))
  {
    var a: Item := map["id" := S("a")];
    var b: Item := map["id" := S("b")];
    var token: Item := map["id" := S("k")];
    assert |token| == 1;
    var pages := [Page([a], Some(token)), Page([b], Some(token)), Failed("throttled")];
    assert pages[1..] == [Page([b], Some(token)), Failed("throttled")];
    assert pages[1..][1..] == [Failed("throttled")];
    var third := Aggregate(QueryOp, c, e, pages[1..][1..], Some(token));
    assert third.err == Some(RequestError("throttled"));
    var second := Aggregate(QueryOp, c, e, pages[1..], Some(token));
    assert second.records == [] && second.err == None;
    assert [a] + [] == [a];
    var third' := AggregateCorrected(QueryOp, c, e, pages[1..][1..], Some(token));
    assert third'.err == Some(RequestError("throttled"));
  }

  // ---------------------------------------------------------------------------
  // Properties of the corrected aggregator

  /**
   With the failing page's error returned, a failure on ANY fetched page
   aborts the whole aggregation with no records and that page's error; when
   every fetched page succeeds it agrees with the code as written.
   */
  lemma {:induction false} CorrectedAbortsOnError(op: ReadOp, c: DocumentClient, e: Expression, pages: seq<Response>, start: Option<Item>)
    requires Terminates(pages)
    ensures var r := AggregateCorrected(op, c, e, pages, start);
      var k := FirstStop(pages);
      && (pages[k].Failed? ==> r.records == [] && r.err == Some(RequestError(pages[k].message)))
      && (pages[k].Page? ==> r.records == Aggregate(op, c, e, pages, start).records && r.err == None)
      && r.requests == Aggregate(op, c, e, pages, start).requests
    decreases |pages|
  {
    if !Stops(pages[0]) {
      CorrectedAbortsOnError(op, c, e, pages[1..], pages[0].lastKey);
      if pages[FirstStop(pages)].Page? {
        CompleteWhenAllSucceed(op, c, e, pages[1..], pages[0].lastKey);
      }
    }
  }

  /**
   The corrected aggregation as a loop with an accumulator instead of one
   recursive call per page. It returns the concatenated items of every page
   when all fetched pages succeed, and no records with the failing page's
   error otherwise; its requests follow the continuation chain.
   */
  method CollectPages(op: ReadOp, c: DocumentClient, e: Expression, pages: seq<Response>)
    returns (records: seq<Item>, err: Option<Error>, requests: seq<ReadRequest>)
    requires Terminates(pages)
    ensures |requests| == FirstStop(pages) + 1
    ensures forall j :: 0 <= j < |requests| ==> requests[j] == BuildRequest(op, c, e, StartKeyAt(None, pages, j))
    ensures pages[FirstStop(pages)].Page? ==> records == Flatten(pages[..FirstStop(pages) + 1]) && err == None
    ensures pages[FirstStop(pages)].Failed? ==> records == [] && err == Some(RequestError(pages[FirstStop(pages)].message))
  {
    var k := FirstStop(pages);
    var acc: seq<Item> := [];
    var start: Option<Item> := None;
    var i := 0;
    requests := [];
    while true
      invariant 0 <= i <= k
      invariant start == StartKeyAt(None, pages, i)
      invariant acc == Flatten(pages[..i])
      invariant |requests| == i
      invariant forall j :: 0 <= j < i ==> requests[j] == BuildRequest(op, c, e, StartKeyAt(None, pages, j))
      decreases k - i
    {
      requests := requests + [BuildRequest(op, c, e, start)];
      var response := pages[i];
      if Stops(response) {
        assert i == k;
        if response.Failed? {
          return [], Some(RequestError(response.message)), requests;
        }
        FlattenAppend(pages, i);
        return acc + response.items, None, requests;
      }
      FlattenAppend(pages, i);
      acc := acc + response.items;
      start := response.lastKey;
      i := i + 1;
    }
  }

  /** Extending a prefix by one page appends that page's items. */
  lemma {:induction false} FlattenAppend(pages: seq<Response>, i: nat)
    requires i < |pages|
    ensures Flatten(pages[..i + 1]) == Flatten(pages[..i]) + ItemsOf(pages[i])
    decreases i
  {
    if i == 0 {
      assert pages[..1] == [pages[0]];
      assert pages[..1][1..] == [];
    } else {
      FlattenPrefix(pages, i + 1);
      FlattenPrefix(pages, i);
      FlattenAppend(pages[1..], i - 1);
      assert pages[1..][i - 1] == pages[i];
    }
  }
}
