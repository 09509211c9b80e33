# go-dynamo-document-client — a Dafny model of the document client's core

This project models the parts of the Go DynamoDB document client that have
logic of their own:

- the **paginated read aggregator** behind `Query` and `Scan`. It issues a
  read and keeps the page's items. While the page's `LastEvaluatedKey` has
  at least one field, it reads again with that key as `ExclusiveStartKey`;
- the **shared-client constructor** `NewClient`, a check-and-set of one
  process-wide client;
- the **decision order of `Get`**: pointer check, request error, missing
  item, decode.

The database collaborator is not modelled. Its answers are inputs:

- for the aggregator, a finite sequence of page responses. The i-th read
  request of one aggregation receives the i-th response. Each response is a
  failed call or a page of items with an optional continuation key;
- for `Get`, the GetItem answer and the decoder's verdict on an item.

Each run of the aggregator also returns the requests it issued. This lets
the model say which start key each request carried.

Files:

- `wrappers.dfy`: the `Option` type, which stands for Go's nil.
- `types.dfy`: the shared types. These are attribute values and items,
  expressions, read requests, page responses and errors.
- `pagination.dfy`: the aggregator as written (`Aggregate`), its
  properties, and the corrected aggregator. The corrected aggregator comes
  in a recursive form and as a loop.
- `client.dfy`: `NewClient`, `Get`, and the `Query`/`Scan` entry points.

The entry points `Client.Query` and `Client.Scan` model the code as written,
including how it handles a failed page (see Findings). The corrected
aggregator is defined alongside them for comparison.

On a failed later page the code loses the error. The caller gets a nil
error and the records of every page up to, but not including, the page
before the failing one (see Findings). The model follows the code.

## Model

| member | source | states |
|---|---|---|
| Pagination.RequestChain | client.go:116-142 | The aggregator issues exactly one request per response, up to and including the first response that fails or has an empty continuation key. The first request carries the caller's start key. Every later request carries the previous page's `LastEvaluatedKey`, which is non-empty. All requests share the table, the placeholders and the filter. |
| Pagination.CompleteWhenAllSucceed | client.go:134-149 | When no fetched page fails, the records are the concatenation of every fetched page's items, in page order, with a nil error. |
| Pagination.FirstPageErrorPropagates | client.go:128-131 | A failure on the first page returns no records and that call's error, after a single request. |
| Pagination.LaterPageErrorSwallowed | client.go:140-149 | Counting responses from 0, a failure at index k >= 1 (the first response that ends the chain) returns a nil error. The records are the items of responses 0 to k-2 only, so nothing at all when k = 1. |
| Pagination.ErrorOnlyFromFirstPage | client.go:128-145 | The aggregator returns a non-nil error exactly when the first page failed. |
| Pagination.EmptyPageContinues | client.go:136-147 | A page with no items but a non-empty continuation key still leads to a second request carrying that key. If the rest of the chain succeeds, the result is the rest's records. |
| Pagination.UnreadPagesIrrelevant | client.go:140-149 | Responses after the one that ends the chain are never requested: appending more responses does not change the run. |
| Pagination.ScanMatchesQuery | client.go:152-186 | Over the same responses, a scan returns the same records and error as a query. Its requests are the query's requests without a key condition. |
| Pagination.SwallowedErrorWitness | client.go:142-146 | Concrete chain: two pages with a continuation key, then a failure. The code as written returns the first page's item and a nil error. The corrected aggregator returns no records and the failure's error. |
| Pagination.CorrectedAbortsOnError | client.go:142-146 | With the failing page's own error returned, a failure on any fetched page gives no records and that page's error. When every fetched page succeeds, the corrected aggregator returns the same records as the code as written. It always issues the same requests. |
| Pagination.CollectPages | client.go:115-150 | The corrected behaviour of the Findings row, not the code as written: the aggregation written as a loop with an accumulator. Its requests follow the continuation chain. It returns all fetched pages' items in order when they all succeed. Otherwise it returns no records and the failing page's error. |
| Client.NewClient | client.go:34-43 | A client is built, bound to the given table and options, only when none exists. Otherwise the existing client is returned and the registry is unchanged. Afterwards the registry always holds the returned client. |
| Client.ExistingClientReused | client.go:38-42 | Once a client exists, any number of later calls build nothing and all return that client, whatever table or options they pass. |
| Client.SingletonAcrossCalls | client.go:34-43 | Starting from no client, any non-empty sequence of calls builds exactly one client. That client is bound to the first call's table and options, and every call returns it. |
| Client.Get | client.go:63-82 | GetItem is called if and only if the target is a pointer, and the request names the client's table and the key. A non-pointer target returns "target is not a pointer". A failed request returns its error. "item not found" is returned exactly when the item is nil. An item is decoded exactly when the request succeeded with a non-nil item. The result is success exactly when decoding succeeds, and otherwise the decoder's error. |
| Client.Query | client.go:111-150 | The first request has no start key. Later requests carry the previous non-empty key. Every request carries the client's table, the expression's placeholders, filter and key condition. The result is one of three: all fetched items in page order, the first page's error with no records, or a lost later error as described above. |
| Client.Scan | client.go:152-186 | The scan requests set no key condition but carry the table, placeholders and filter. Otherwise they follow the same start-key chain as a query. The records and error equal the query's over the same responses. |

## Left out

- The database collaborator (`GetItem`, `Query`, `Scan`, `PutItem`,
  `DeleteItem`): its answers are parameters of the model.
- Collaborators that never end a chain: `Query`/`Scan` require that some
  response fails or has an empty continuation key. Without one, the Go code
  recurses until the stack runs out.
- `Put` and `Delete` (client.go:84-105): `Put` marshals its argument,
  returns the marshal error if there is one, and otherwise makes one PutItem
  call with the encoded item and returns its error. `Delete` makes one
  DeleteItem call and returns its error. Neither has logic beyond that.
- Configuration loading and the panic when it fails (client.go:50-54): this
  is external configuration I/O. `InitDb` always succeeds here.
- The mutex around `NewClient` (client.go:32, 35-36): it only serialises
  concurrent callers, so `NewClient` is modelled as a sequential
  check-and-set.
- Attribute-value marshalling and unmarshalling, and expression building:
  these are foreign encodings. Expressions are opaque values, and decoding
  is an opaque verdict per item.
- Client.Get: does not model what `UnmarshalMap` writes into the target,
  because that is the foreign decoder's business. Only the item handed to it
  is recorded.
- Client.Query: does not distinguish a nil result slice from an empty one,
  because Go callers read both as "no records".
- Logging (`log.Println`) and `context.TODO()`: these have no effect on
  results.

## Findings

| source | as written | input that shows it | evidently intended | confidence | as-written member | corrected member |
|---|---|---|---|---|---|---|
| client.go:144 | `return nil, err` returns the calling level's own error variable. That variable is nil once its own request succeeded (client.go:128-129). The level above then appends the empty result and reports success. | Pages `[{a} + key, {b} + key, failed "throttled"]`. Query returns `[a]` and a nil error. | `return nil, ee`: abort with no records and the failing page's error. | high; not executed | Pagination.SwallowedErrorWitness | Pagination.CorrectedAbortsOnError |
