/**
 * The item data-access layer: each operation makes one call on the search-engine client against
 * the "items" index and maps the client's outcome onto the service's error taxonomy. The client is
 * not modelled; each operation takes the client call it makes as a function from the request to
 * the outcome the engine reports for it.
 */
module ItemDao {
  import opened Wrappers
  import opened Document
  import opened ItemErrors
  import opened ItemDto
  import opened Queries

  /** The index every item operation targets. */
  const IndexItems := "items"

  /** What the engine reports for a single-document lookup. */
  datatype GetResponse = GetResponse(found: bool, id: string, source: Source)

  /** One search hit: the document id from the hit metadata and the stored source. */
  datatype Hit = Hit(id: string, source: Source)

  /** Store a document under an id: (index, id, document). */
  type IndexFn = (string, string, Json) -> Option<ClientError>
  /** Look a document up by id: (index, id). */
  type GetFn = (string, string) -> Result<GetResponse, ClientError>
  /** Run a query with optional paging: (index, query, from, size). */
  type SearchFn = (string, Query, Option<int>, Option<int>) -> Result<seq<Hit>, ClientError>
  /** Delete a document by id: (index, id). */
  type DeleteFn = (string, string) -> Option<ClientError>
  /** Send a (partial) document as an update: (index, id, document). */
  type UpdateFn = (string, string, Json) -> Option<ClientError>

  /**
   * Index the whole item under its own id. A deadline becomes the timeout sentinel, any other
   * client error is wrapped as a save failure.
   */
  function Save(x: Item, index: IndexFn): (r: Option<Error>)
    ensures var out := index(IndexItems, x.id, EncodeItem(x));
      && (r.None? <==> out.None?)
      && (r == Some(RequestTimeout) <==> out == Some(DeadlineExceeded))
      && (out.Some? && !IsDeadline(out.value) ==> r == Some(Wrapped("save failed", out.value)))
      && r != Some(NotFound) && r != Some(Parse)
  {
    var out := index(IndexItems, x.id, EncodeItem(x));
    if out.Some? then Some(TimeoutOrWrap("save failed", out.value)) else None
  }

  /** A stored item as an item reference whose fields the lookup decodes into. */
  class ItemRef {
    var item: Item

    constructor (x: Item)
      ensures item == x
    {
      item := x;
    }

    /**
     * Look the item up by its id. A client error is classified before `found` is looked at; a
     * missing document is `NotFound` and leaves the item as it was; a source that does not decode
     * is `Parse` (every well-typed key stays merged in); otherwise the item holds the
     * decoded source with its id replaced by the id the engine reports.
     */
    method Get(client: GetFn) returns (err: Option<Error>)
      modifies this
      ensures var out := client(IndexItems, old(item).id);
        && (out.Failure? ==> err == Some(TimeoutOrWrap("get failed", out.error)) && item == old(item))
        && (out.Success? && !out.value.found ==> err == Some(NotFound) && item == old(item))
        && (out.Success? && out.value.found && !DecodeItem(out.value.source, old(item)).ok ==>
              err == Some(Parse) && item == DecodeItem(out.value.source, old(item)).value)
        && (out.Success? && out.value.found && DecodeItem(out.value.source, old(item)).ok ==>
              err == None && item == DecodeItem(out.value.source, old(item)).value.(id := out.value.id))
    {
      var result := client(IndexItems, item.id);
      if result.Failure? {
        return Some(TimeoutOrWrap("get failed", result.error));
      }
      if !result.value.found {
        return Some(NotFound);
      }
      var decoded := DecodeItem(result.value.source, item);
      item := decoded.value;
      if !decoded.ok {
        return Some(Parse);
      }
      item := item.(id := result.value.id);
      return None;
    }
  }

  /** The hit's source decodes without error into a zero item. */
  predicate Decodes(h: Hit) {
    DecodeItem(h.source, ZeroItem).ok
  }

  /** The item a hit stands for: its source decoded into a zero item, with the hit's id. */
  function HitItem(h: Hit): (x: Item)
    ensures x.id == h.id
  {
    DecodeItem(h.source, ZeroItem).value.(id := h.id)
  }

  /**
   * Turn the hits of a successful search into items. The result is all or nothing: one item per
   * hit, in hit order, when every hit decodes, and `Parse` with no items as soon as one does not.
   */
  method CollectHits(hits: seq<Hit>) returns (r: Result<seq<Item>, Error>)
    ensures r.Success? <==> forall k :: 0 <= k < |hits| ==> Decodes(hits[k])
    ensures r.Failure? ==> r.error == Parse
    ensures r.Success? ==> |r.value| == |hits| && forall k :: 0 <= k < |r.value| ==> r.value[k] == HitItem(hits[k])
  {
    var result := new Item[|hits|](_ => ZeroItem);
    for index := 0 to |hits|
      invariant forall k :: 0 <= k < index ==> Decodes(hits[k]) && result[k] == HitItem(hits[k])
    {
      var decoded := DecodeItem(hits[index].source, ZeroItem);
      if !decoded.ok {
        return Failure(Parse);
      }
      result[index] := decoded.value.(id := hits[index].id);
    }
    return Success(result[..]);
  }

  /**
   * Search the index with the query `Build` produces as written (`BuiltQuery`, whose price
   * bounds are aliased), passing the paging fields through. Client errors are wrapped, never
   * mapped to the timeout sentinel; the hits are collected all or nothing.
   */
  method Search(query: EsQuery, client: SearchFn) returns (r: Result<seq<Item>, Error>)
    ensures var out := client(IndexItems, BuiltQuery(query), query.from, query.size);
      && (out.Failure? ==> r == Failure(Wrapped("search failed", out.error)))
      && (out.Success? ==> (r.Success? <==> forall k :: 0 <= k < |out.value| ==> Decodes(out.value[k])))
      && (out.Success? && r.Failure? ==> r.error == Parse)
      && (r.Success? ==> |r.value| == |out.value|
                         && forall k :: 0 <= k < |r.value| ==> r.value[k] == HitItem(out.value[k]))
  {
    var built := Build(query);
    var response := client(IndexItems, Resolve(built), query.from, query.size);
    if response.Failure? {
      return Failure(Wrapped("search failed", response.error));
    }
    r := CollectHits(response.value);
  }

  /** `Search` over the corrected builder: the client gets `IntendedQuery(query)`. */
  method SearchFixed(query: EsQuery, client: SearchFn) returns (r: Result<seq<Item>, Error>)
    ensures var out := client(IndexItems, IntendedQuery(query), query.from, query.size);
      && (out.Failure? ==> r == Failure(Wrapped("search failed", out.error)))
      && (out.Success? ==> (r.Success? <==> forall k :: 0 <= k < |out.value| ==> Decodes(out.value[k])))
      && (out.Success? && r.Failure? ==> r.error == Parse)
      && (r.Success? ==> |r.value| == |out.value|
                         && forall k :: 0 <= k < |r.value| ==> r.value[k] == HitItem(out.value[k]))
  {
    var built := BuildFixed(query);
    var response := client(IndexItems, Resolve(built), query.from, query.size);
    if response.Failure? {
      return Failure(Wrapped("search failed", response.error));
    }
    r := CollectHits(response.value);
  }

  /**
   * Delete the document with the given id. The client's not-found error becomes the `NotFound`
   * sentinel; every other client error, a deadline included, is wrapped as a delete failure.
   */
  function Delete(id: string, delete: DeleteFn): (r: Option<Error>)
    ensures var out := delete(IndexItems, id);
      && (r.None? <==> out.None?)
      && (r == Some(NotFound) <==> out == Some(DocumentNotFound))
      && (out.Some? && out.value != DocumentNotFound ==> r == Some(Wrapped("delete failed", out.value)))
      && r != Some(RequestTimeout) && r != Some(Parse)
  {
    var out := delete(IndexItems, id);
    if out.None? then None
    else if out.value == DocumentNotFound then Some(NotFound)
    else Some(Wrapped("delete failed", out.value))
  }

  /** Replace the whole item under its own id. Every client error is wrapped. */
  function Put(x: Item, update: UpdateFn): (r: Option<Error>)
    ensures var out := update(IndexItems, x.id, EncodeItem(x));
      && (r.None? <==> out.None?)
      && (out.Some? ==> r == Some(Wrapped("update of entire item failed", out.value)))
  {
    var out := update(IndexItems, x.id, EncodeItem(x));
    if out.Some? then Some(Wrapped("update of entire item failed", out.value)) else None
  }

  /**
   * Send the sparse patch document for the item with the given id. Every client error is
   * wrapped.
   */
  function Patch(p: PartialUpdateItem, id: string, update: UpdateFn): (r: Option<Error>)
    ensures var out := update(IndexItems, id, Object(EncodePatch(p)));
      && (r.None? <==> out.None?)
      && (out.Some? ==> r == Some(Wrapped("update item`s field(s) failed", out.value)))
  {
    var out := update(IndexItems, id, Object(EncodePatch(p)));
    if out.Some? then Some(Wrapped("update item`s field(s) failed", out.value)) else None
  }

  // ---------------------------------------------------------------------------------------------
  // Properties across operations

  /**
   * A deadline from the client: `Save` and the lookup (`ItemRef.Get` classifies a client error
   * with `TimeoutOrWrap("get failed", …)`) answer the timeout sentinel; `Delete`, `Put` and
   * `Patch` wrap it, and so does `Search`, whose contract wraps every client error.
   */
  lemma DeadlineHandling(x: Item, p: PartialUpdateItem, id: string, index: IndexFn, delete: DeleteFn, update: UpdateFn)
    requires index(IndexItems, x.id, EncodeItem(x)) == Some(DeadlineExceeded)
    requires delete(IndexItems, id) == Some(DeadlineExceeded)
    requires update(IndexItems, x.id, EncodeItem(x)) == Some(DeadlineExceeded)
    requires update(IndexItems, id, Object(EncodePatch(p))) == Some(DeadlineExceeded)
    ensures Save(x, index) == Some(RequestTimeout)
    ensures TimeoutOrWrap("get failed", DeadlineExceeded) == RequestTimeout
    ensures Delete(id, delete) == Some(Wrapped("delete failed", DeadlineExceeded))
    ensures Put(x, update) == Some(Wrapped("update of entire item failed", DeadlineExceeded))
    ensures Patch(p, id, update) == Some(Wrapped("update item`s field(s) failed", DeadlineExceeded))
  {
  }

  /**
   * Only `Delete` turns the client's not-found into the `NotFound` sentinel; `Save`, `Put` and
   * `Patch` wrap it.
   */
  lemma NotFoundHandling(x: Item, p: PartialUpdateItem, id: string, index: IndexFn, delete: DeleteFn, update: UpdateFn)
    requires index(IndexItems, x.id, EncodeItem(x)) == Some(DocumentNotFound)
    requires delete(IndexItems, id) == Some(DocumentNotFound)
    requires update(IndexItems, x.id, EncodeItem(x)) == Some(DocumentNotFound)
    requires update(IndexItems, id, Object(EncodePatch(p))) == Some(DocumentNotFound)
    ensures Delete(id, delete) == Some(NotFound)
    ensures Save(x, index) == Some(Wrapped("save failed", DocumentNotFound))
    ensures Put(x, update) == Some(Wrapped("update of entire item failed", DocumentNotFound))
    ensures Patch(p, id, update) == Some(Wrapped("update item`s field(s) failed", DocumentNotFound))
  {
  }

  /** A search hit's item keeps the hit's id whatever id its stored body carries. */
  lemma HitIdFromMetadata(id: string, x: Item)
    ensures HitItem(Hit(id, Body(EncodeItem(x)))) == x.(id := id)
    ensures Decodes(Hit(id, Body(EncodeItem(x))))
  {
    DecodeEncode(x, ZeroItem);
  }
}
