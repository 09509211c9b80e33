/**
 The values the document client exchanges with the database collaborator:
 attribute values and items, query/scan expressions, read requests and the
 page responses the collaborator answers them with, and the client's errors.
 The collaborator's own encoding and transport are not modelled; its answers
 are inputs to the operations of the other modules.
 */
module Types {
  import opened Wrappers

  /** The attribute-value kinds the model distinguishes (values are opaque to the client). */
  datatype AttributeValue =
    | S(s: string)
    | N(n: string)
    | B(bytes: seq<bv8>)
    | Bool(b: bool)
    | Null
    | L(list: seq<AttributeValue>)
    | M(fields: map<string, AttributeValue>)

  /** A record (and a key, and a continuation token): attribute name to value. */
  type Item = map<string, AttributeValue>

  /**
   A built query/scan expression, kept opaque: its placeholder maps and its
   optional key-condition and filter texts (nil when the builder set none).
   */
  datatype Expression = Expression(
    names: map<string, string>,
    values: map<string, AttributeValue>,
    keyCondition: Option<string>,
    filter: Option<string>)

  /** The two paginated read operations of the collaborator. */
  datatype ReadOp = QueryOp | ScanOp

  /**
   One read request as sent to the collaborator. A scan request never sets a
   key condition; `startKey` is the `ExclusiveStartKey` (None when unset).
   */
  datatype ReadRequest = ReadRequest(
    op: ReadOp,
    table: string,
    names: map<string, string>,
    values: map<string, AttributeValue>,
    keyCondition: Option<string>,
    filter: Option<string>,
    startKey: Option<Item>)

  /**
   The collaborator's answer to one read request: either a failed call
   (carrying the collaborator's error message) or one page of items together
   with its `LastEvaluatedKey` (None when the collaborator left it nil).
   */
  datatype Response =
    | Failed(message: string)
    | Page(items: seq<Item>, lastKey: Option<Item>)

  /** The errors the client returns to its callers. */
  datatype Error =
    | RequestError(message: string)   // a failed collaborator call, passed on unchanged
    | TargetNotPointer                // "target is not a pointer"
    | ItemNotFound                    // "item not found"
    | DecodeError(message: string)    // the unmarshal facility rejected the item

  /** The two optional customisation hooks of `NewClient`, by identity. */
  datatype Options = Options(dbHook: nat, configHook: nat)

  /**
   A document client: the table it is bound to and the handle of the
   database client it was built with (identified by the options used).
   */
  datatype DocumentClient = DocumentClient(table: string, db: Options)

  /** A continuation token asks for another page only when it has at least one key field. */
  predicate HasMore(lastKey: Option<Item>)
  {
    lastKey.Some? && |lastKey.value| > 0
  }

  /** A response ends the aggregation: it failed, or it carries no continuation. */
  predicate Stops(r: Response)
  {
    r.Failed? || !HasMore(r.lastKey)
  }

  /** The continuation token of a response (a failed call has none). */
  function LastKey(r: Response): Option<Item>
  {
    if r.Page? then r.lastKey else None
  }

  /** The items a response contributes (a failed call contributes none). */
  function ItemsOf(r: Response): seq<Item>
  {
    if r.Page? then r.items else []
  }
}
