/**
 The document client's entry points: the shared-client constructor
 `NewClient`, the single-item read `Get`, and the paginated `Query` and
 `Scan`, which delegate to the aggregator of module Pagination.
 */
module Client {
  import opened Wrappers
  import opened Types
  import opened Pagination

  // ---------------------------------------------------------------------------
  // NewClient: a check-and-set of the process-wide client

  /** The process-wide client variable, nil until the first `NewClient`. */
  datatype Registry = Registry(db: Option<DocumentClient>)

  /** What one `NewClient` call leaves behind and returns, and whether it built a client. */
  datatype Created = Created(registry: Registry, client: DocumentClient, initialised: bool)

  /** One `NewClient` call's arguments. */
  datatype Call = Call(table: string, opt: Options)

  /** `initDb` once the configuration has loaded: a client bound to `table`. */
  function InitDb(table: string, opt: Options): DocumentClient
  {
    DocumentClient(table, opt)
  }

  /**
   `NewClient` (client.go:34-43): builds a client only while none exists;
   afterwards it returns the existing client whatever table and options it
   is given, and the registry is left as it was.
   */
  function NewClient(reg: Registry, table: string, opt: Options): (r: Created)
    ensures r.registry.db == Some(r.client)
    ensures r.initialised <==> reg.db.None?
    ensures reg.db.Some? ==> r.registry == reg && r.client == reg.db.value
    ensures reg.db.None? ==> r.client.table == table && r.client.db == opt
  {
    if reg.db.None? then
      var client := InitDb(table, opt);
      Created(Registry(Some(client)), client, true)
    else
      Created(reg, reg.db.value, false)
  }

  /** A sequence of `NewClient` calls in order: the clients returned, the final registry, and how many built a client. */
  datatype History = History(clients: seq<DocumentClient>, registry: Registry, inits: nat)

  function NewClientCalls(reg: Registry, calls: seq<Call>): History
    decreases |calls|
  {
    if |calls| == 0 then History([], reg, 0)
    else
      var first := NewClient(reg, calls[0].table, calls[0].opt);
      var rest := NewClientCalls(first.registry, calls[1..]);
      History([first.client] + rest.clients, rest.registry, rest.inits + (if first.initialised then 1 else 0))
  }

  /** Once a client exists, later calls build nothing and all return it. */
  lemma {:induction false} ExistingClientReused(reg: Registry, calls: seq<Call>)
    requires reg.db.Some?
    ensures var h := NewClientCalls(reg, calls);
      && |h.clients| == |calls| && h.registry == reg && h.inits == 0
      && forall i :: 0 <= i < |h.clients| ==> h.clients[i] == reg.db.value
    decreases |calls|
  {
    if |calls| > 0 {
      ExistingClientReused(reg, calls[1..]);
    }
  }

  /**
   From an empty registry, any non-empty sequence of calls builds exactly one
   client, bound to the FIRST call's table and options, and every call
   returns that same client.
   */
  lemma SingletonAcrossCalls(calls: seq<Call>)
    requires |calls| > 0
    ensures var h := NewClientCalls(Registry(None), calls);
      && h.inits == 1
      && |h.clients| == |calls|
      && h.registry.db == Some(InitDb(calls[0].table, calls[0].opt))
      && forall i :: 0 <= i < |h.clients| ==> h.clients[i] == InitDb(calls[0].table, calls[0].opt)
  {
    var first := NewClient(Registry(None), calls[0].table, calls[0].opt);
    ExistingClientReused(first.registry, calls[1..]);
  }

  // ---------------------------------------------------------------------------
  // Get: one GetItem call, checked in a fixed order

  /** The kind of the decode target handed to `Get`. */
  datatype Target = Pointer | NotPointer

  /** The request `Get` sends. */
  datatype GetItemInput = GetItemInput(table: string, key: Item)

  /** The collaborator's answer to a GetItem request; `item` is None when it is nil. */
  datatype GetItemOutput = GetItemFailed(message: string) | GetItemOk(item: Option<Item>)

  /**
   What one `Get` does: the error it returns, the GetItem request it sent (if
   any), and the item it handed to the unmarshal facility (if any).
   */
  datatype GetRun = GetRun(err: Option<Error>, request: Option<GetItemInput>, decoded: Option<Item>)

  /**
   `Get` (client.go:63-82). `response` is the collaborator's answer to the
   request, and `unmarshal` the decoder's verdict on an item (None when it
   decodes). A non-pointer target is refused before any request; then a
   failed request's error is returned; then a nil item is "not found"; only
   then is the item decoded, and the decoder's error (if any) returned.
   */
  function Get(c: DocumentClient, key: Item, target: Target, response: GetItemOutput,
               unmarshal: Item -> Option<string>): (r: GetRun)
    ensures r.request.Some? <==> target == Pointer
    ensures r.request.Some? ==> r.request.value == GetItemInput(c.table, key)
    ensures target == NotPointer ==> r.err == Some(TargetNotPointer)
    ensures target == Pointer && response.GetItemFailed? ==> r.err == Some(RequestError(response.message))
    ensures r.err == Some(ItemNotFound) <==> target == Pointer && response == GetItemOk(None)
    ensures r.decoded.Some? <==> target == Pointer && response.GetItemOk? && response.item.Some?
    ensures r.decoded.Some? ==> r.decoded == response.item
    ensures r.err == None <==> r.decoded.Some? && unmarshal(r.decoded.value) == None
    ensures r.decoded.Some? && unmarshal(r.decoded.value).Some? ==> r.err == Some(DecodeError(unmarshal(r.decoded.value).value))
  {
    if target.NotPointer? then
      GetRun(Some(TargetNotPointer), None, None)
    else
      var request := Some(GetItemInput(c.table, key));
      match response
      case GetItemFailed(message) => GetRun(Some(RequestError(message)), request, None)
      case GetItemOk(None()) => GetRun(Some(ItemNotFound), request, None)
      case GetItemOk(Some(item)) =>
        var verdict := unmarshal(item);
        if verdict.Some? then GetRun(Some(DecodeError(verdict.value)), request, Some(item))
        else GetRun(None, request, Some(item))
  }

  // ---------------------------------------------------------------------------
  // Query and Scan: the paginated reads, as written

  /**
   `Query` (client.go:111-113, 115-150): the first request carries no start
   key and every later one the previous page's non-empty key; every request
   is bound to the client's table and the expression's key condition. When
   every fetched page succeeds the result is all their items in page order;
   a first-page failure returns that error; a failure at index k >= 1 is
   lost (nil error), and so are the records of page k-1.
   */
  function Query(c: DocumentClient, e: Expression, pages: seq<Response>): (r: Run)
    requires Terminates(pages)
    ensures |r.requests| == FirstStop(pages) + 1
    ensures r.requests[0].startKey == None
    ensures forall j :: 0 < j < |r.requests| ==> r.requests[j].startKey == pages[j - 1].lastKey && HasMore(r.requests[j].startKey)
    ensures forall j :: 0 <= j < |r.requests| ==>
      r.requests[j].op == QueryOp && r.requests[j].table == c.table && r.requests[j].keyCondition == e.keyCondition
      && r.requests[j].names == e.names && r.requests[j].values == e.values && r.requests[j].filter == e.filter
    ensures pages[FirstStop(pages)].Page? ==> r.records == Flatten(pages[..FirstStop(pages) + 1]) && r.err == None
    ensures pages[0].Failed? ==> r.records == [] && r.err == Some(RequestError(pages[0].message))
    ensures FirstStop(pages) >= 1 && pages[FirstStop(pages)].Failed? ==>
      r.records == Flatten(pages[..FirstStop(pages) - 1]) && r.err == None
  {
    RequestChain(QueryOp, c, e, pages, None);
    if pages[FirstStop(pages)].Page? then
      CompleteWhenAllSucceed(QueryOp, c, e, pages, None);
      Aggregate(QueryOp, c, e, pages, None)
    else if FirstStop(pages) >= 1 then
      LaterPageErrorSwallowed(QueryOp, c, e, pages, None);
      Aggregate(QueryOp, c, e, pages, None)
    else
      Aggregate(QueryOp, c, e, pages, None)
  }

  /**
   `Scan` (client.go:107-109, 152-186): the same aggregation as `Query`, with
   no key condition on any request.
   */
  function Scan(c: DocumentClient, e: Expression, pages: seq<Response>): (r: Run)
    requires Terminates(pages)
    ensures |r.requests| == FirstStop(pages) + 1
    ensures r.requests[0].startKey == None
    ensures forall j :: 0 < j < |r.requests| ==> r.requests[j].startKey == pages[j - 1].lastKey && HasMore(r.requests[j].startKey)
    ensures forall j :: 0 <= j < |r.requests| ==>
      r.requests[j].op == ScanOp && r.requests[j].table == c.table && r.requests[j].keyCondition == None
      && r.requests[j].names == e.names && r.requests[j].values == e.values && r.requests[j].filter == e.filter
    ensures r.records == Query(c, e, pages).records && r.err == Query(c, e, pages).err
  {
    RequestChain(ScanOp, c, e, pages, None);
    ScanMatchesQuery(c, e, pages, None);
    Aggregate(ScanOp, c, e, pages, None)
  }
}
