# Catalog items API: query translation, persistence mapping and request shaping

This project models the core of a catalog-items service. The service stores items in a document search engine and serves them over HTTP. The model covers five parts:

- **Query builder** (`es_query.dfy`, module `Queries`). It turns a record of optional search criteria (`EsQuery`) into a bool query with a `Must` list and a `Filter` list. It is modelled imperatively. The two lists grow by appends. The range bounds are pointers, so they are modelled as heap cells (`Float64Cell`). The model shows that the builder stores the address of one reused local in both price bounds.
- **Item documents** (`item_dto.dfy`, module `ItemDto`). It covers the full `Item` shape and the sparse `PartialUpdateItem` patch shape, with their key/value encodings. It also covers the merge-decoding of a stored document into an existing item, which is what the lookup and the search do.
- **Item data access** (`item_dao.dfy`, module `ItemDao`). Save, get, search, delete, full update and partial update go against the `items` index. Each maps the engine client's outcome onto the error taxonomy in `item_errors.dfy` (`RequestTimeout`, `NotFound`, `Parse`, or a wrapped client error).
  - The client is a parameter: for each call, a function from the request to the outcome the engine reports.
  - The lookup decodes into its receiver, so it is a method of the `ItemRef` class.
  - The search fills an array in a loop that can exit early.
- **Items service** (`items_service.dfy`, module `ItemsService`). It delegates to an abstract data-access object. It also overrides the id on lookup and re-fetches after a patch. Each reply records the data-access calls made.
- **Controller** (`items_controller.dfy`, module `ItemsController`). This part covers:
  - the error classifier;
  - whitespace trimming of path ids;
  - the seller taken from the authenticated caller;
  - the path id forced onto a full update;
  - the status and payload each handler answers with.

`wrappers.dfy` holds `Option` and `Result`. `document.dfy` holds the JSON value type and a stored source (`Malformed` for text that does not parse).

Prices are floats in the service. Here they are integers, because the code only copies them and never computes with them.

## Model

| member | source | states |
|---|---|---|
| Queries.NewPriceRange | domain/queries/es_query_dao.go:20-32 | The price range as written. Each present bound reads as `AliasedPriceRange` says. With both prices given, `Gte` and `Lte` are the very same cell. |
| Queries.NewPriceRangeFixed | domain/queries/es_query_dao.go:20-32 | The corrected price range. `Gte` reads `MinPrice` and `Lte` reads `MaxPrice`. With both given they are distinct cells. |
| Queries.Assemble | domain/queries/es_query_dao.go:8-66 | The grown lists denote the free-text clause list and the filter list in order, and the price clause comes first when present. |
| Queries.AppendQuantity | domain/queries/es_query_dao.go:41-50 | A present quantity appends one range clause whose lower bound is a cell of its own, and the earlier clauses are kept. |
| Queries.AppendTerms | domain/queries/es_query_dao.go:52-66 | The status term is appended for a non-empty status, then the seller term for any seller, and the earlier clauses are kept. |
| Queries.Build | domain/queries/es_query_dao.go:7-74 | The query the engine receives is `BuiltQuery(q)`. With both prices given, both bounds of the price range are one cell. |
| Queries.BuildFixed | domain/queries/es_query_dao.go:7-74 | The corrected builder: the query is `IntendedQuery(q)`, and the two bounds are distinct cells. |
| Queries.Resolve | domain/queries/es_query_dao.go:68-73 | Definition: the query as the client serialises it, every bound pointer read through to the value its cell holds when the query is sent. |
| Queries.AliasedPriceRange | domain/queries/es_query_dao.go:20-32 | Definition: the price range as written, `Gte` reading `MaxPrice` whenever both prices are given. `NewPriceRange` is proved against it. |
| Queries.BuiltQuery | domain/queries/es_query_dao.go:7-74 | Definition: the query as written, the text clause and the filters in source order around `AliasedPriceRange`. `Build` is proved against it. |
| Queries.IntendedQuery | domain/queries/es_query_dao.go:7-74 | Definition: the same query around the corrected price range. `BuildFixed` is proved against it. |
| Queries.MustIsTextMatch | domain/queries/es_query_dao.go:11-18 | `Must` is non-empty iff the search text is present and non-empty. It then holds one multi_match over title and description, and it never holds more than one clause. |
| Queries.FilterOrder | domain/queries/es_query_dao.go:20-66 | The filter count equals the number of triggered conditions, at most 4. The filters are range and term clauses only, in the strict order price, available_quantity, status, seller. |
| Queries.FilterTriggers | domain/queries/es_query_dao.go:20-66 | Each field has a filter iff its condition holds: price iff either bound, quantity iff present, status iff present and non-empty, seller iff present. |
| Queries.QuantityFloor | domain/queries/es_query_dao.go:41-50 | A present quantity yields a range on available_quantity with `Gte` equal to the quantity and no `Lte`. |
| Queries.TermFilters | domain/queries/es_query_dao.go:52-66 | A status term with value s is present iff the status is s and s is non-empty. A seller term with value n is present iff the seller is n, 0 included. |
| Queries.OneSidedPriceRange | domain/queries/es_query_dao.go:20-39 | With only one bound given, the range carries exactly that bound and leaves the other one absent. |
| Queries.AliasedBounds | domain/queries/es_query_dao.go:22-32 | With both bounds given, the as-written range is (MaxPrice, MaxPrice). It differs from the intended query whenever the bounds differ. |
| Queries.AliasingCounterexample | domain/queries/es_query_dao.go:22-32 | With min 5 and max 10, the as-written filter is the range [10, 10] and the intended one is [5, 10]. |
| Queries.IntendedPriceBounds | domain/queries/es_query_dao.go:20-39 | The corrected range has `Gte` = MinPrice and `Lte` = MaxPrice, each present exactly when given. |
| Queries.BuildersAgreeUnlessBothBounds | domain/queries/es_query_dao.go:20-39 | The as-written and corrected queries are equal iff the query does not give two different price bounds. |
| Queries.EmptyQueryMatchesAll | domain/queries/es_query_dao.go:68-73 | With every criterion absent, both lists are empty. |
| Queries.PaginationIgnored | domain/queries/es_query_dao.go:7-74 | Changing `From` or `Size` does not change the built query. |
| ItemErrors.TimeoutOrWrap | domain/items/item_dao.go:20-24 | A deadline becomes `RequestTimeout`. Any other client error is wrapped with the operation's context. The result is never `NotFound` or `Parse`. |
| ItemDto.ItemHasAllKeys | domain/items/item_dto.go:3-14 | An item document always has exactly the ten item keys, zero values included. |
| ItemDto.EncodedItemFields | domain/items/item_dto.go:4-13 | Each item key holds its own field's encoding. |
| ItemDto.PatchKeysPresence | domain/items/item_dto.go:16-25 | A patch key is present iff its pointer is non-nil. Only the eight patch keys can occur, and never `id` or `seller`. |
| ItemDto.ZeroIsNotAbsent | domain/items/item_dto.go:17-24 | A present pointer to "" or 0 is still emitted, with that zero value. |
| ItemDto.EmptyPatch | domain/items/item_dto.go:16-25 | The patch document is empty iff every field is nil. |
| ItemDto.PatchValues | domain/items/item_dto.go:17-24 | Each present patch field is emitted with its own encoding. |
| ItemDto.InnerNilIsNull | domain/items/item_dto.go:32-45 | A patched description and a patched picture always carry both inner keys. An inner key is null iff its pointer is nil. |
| ItemDto.NestedKeysMatch | domain/items/item_dto.go:27-45 | The full and the partial description use the same keys (plain_text, html), and so do the full and the partial picture (id, url). |
| ItemDto.PatchInjective | domain/items/item_dto.go:16-45 | Two patches with the same document are equal, so the encoding loses nothing, including nil vs. empty pictures. |
| ItemDto.UpdatePictureListInjective | domain/items/item_dto.go:42-45 | Two patched picture lists with the same encoding are equal. |
| ItemDto.DecodeElements | domain/items/item_dto.go:8 | A decoded array has exactly as many pictures as the array has elements. |
| ItemDto.ElementsRoundTrip | domain/items/item_dto.go:37-40 | Decoding an encoded picture list gives that list back without error, whatever the old elements were. |
| ItemDto.DecodeEncode | domain/items/item_dto.go:3-14 | Decoding an item's document into any item gives the encoded item back, without error. |
| ItemDto.EncodeItem | domain/items/item_dto.go:3-14 | Definition: the item document, one key per struct tag, every field always present (no `omitempty`). Its properties are `ItemHasAllKeys` and `EncodedItemFields`. |
| ItemDto.EncodePatch | domain/items/item_dto.go:16-45 | Definition: the sparse patch document, a tag key only for a non-nil pointer (`omitempty`). Its properties are `PatchKeysPresence`, `PatchValues`, `EmptyPatch` and `PatchInjective`. |
| ItemDto.DecodePictureList | domain/items/item_dto.go:8 | Definition: `json.Unmarshal` into a slice. Null gives nil, an array decodes element by element over the old elements, and any other kind leaves the slice and fails. |
| ItemDto.MergeItem | domain/items/item_dao.go:45 | Definition: `json.Unmarshal` of an object into an existing item. Each present, well-typed key overwrites its field, an absent key keeps it, and a wrongly typed key leaves it and fails the decode. |
| ItemDto.DecodeItem | domain/items/item_dao.go:45 | Definition: a syntax error changes nothing and fails, an object is merged, null changes nothing, and any other kind fails. Its properties are `DecodeEncode`, `AbsentKeysKept`, `NonObjectUnchanged` and `MismatchFails`. |
| ItemDto.AbsentKeysKept | domain/items/item_dao.go:45 | A key missing from the stored object leaves that field as the receiver held it. |
| ItemDto.NonObjectUnchanged | domain/items/item_dao.go:45-48 | A source that is not an object changes nothing. It is an error unless it is null. |
| ItemDto.MismatchFails | domain/items/item_dao.go:45-48 | A title of the wrong kind fails the decode and leaves the title unchanged. |
| ItemDao.Save | domain/items/item_dao.go:18-28 | The item is indexed under its own id in `items`. The result is nil iff the client succeeds. It is `RequestTimeout` iff the client reports a deadline. Any other error is wrapped as "save failed", and the result is never `NotFound` or `Parse`. |
| ItemDao.ItemRef.Get | domain/items/item_dao.go:30-53 | A client error is classified (timeout or "get failed") before `found` is read, and the item is unchanged. A missing document gives `NotFound` with the item unchanged. An undecodable source gives `Parse`, and the partial merge stays. Otherwise the item is the decoded source with the engine-reported id. |
| ItemDao.HitItem | domain/items/item_dao.go:64-70 | A hit's item carries the hit's id. |
| ItemDao.Decodes | domain/items/item_dao.go:64-68 | Definition: a hit's source decodes without error into a zero `Item`, as the fresh `var item Item` of each loop round. |
| ItemDao.CollectHits | domain/items/item_dao.go:62-73 | The hit loop: success iff every hit decodes, and then one item per hit, in order, each `HitItem` of its hit. Otherwise the result is `Parse` with no items. |
| ItemDao.Search | domain/items/item_dao.go:55-74 | The client gets the query `Build` produces as written, `BuiltQuery(query)` with its aliased price bounds, and `From` and `Size` unchanged. A client error is wrapped as "search failed", never mapped to the timeout. Success means every hit decodes, and then there is one item per hit, in order, each with its hit id. Otherwise the result is `Parse` with no items. |
| ItemDao.SearchFixed | domain/items/item_dao.go:55-74 | The same search over the corrected builder: the client gets `IntendedQuery(query)`, and the outcome is mapped as in `Search`. |
| ItemDao.Delete | domain/items/item_dao.go:76-86 | The result is nil iff the delete succeeds. It is `NotFound` iff the client reports not-found. Any other error, a deadline included, is wrapped as "delete failed". |
| ItemDao.Put | domain/items/item_dao.go:88-95 | The full document is sent under the item's id. Every client error is wrapped as "update of entire item failed". |
| ItemDao.Patch | domain/items/item_dao.go:97-104 | The sparse patch document is sent under the given id. Every client error is wrapped as "update item`s field(s) failed". |
| ItemDao.DeadlineHandling | domain/items/item_dao.go:18-104 | For a deadline from the client, save and the lookup's classification answer `RequestTimeout`. Delete, full update and partial update wrap it (search wraps it too, by its own contract). |
| ItemDao.NotFoundHandling | domain/items/item_dao.go:18-104 | For a not-found from the client, only delete answers `NotFound`. Save, full update and partial update wrap it. |
| ItemDao.HitIdFromMetadata | domain/items/item_dao.go:64-70 | A hit whose source is an encoded item decodes to that item with the hit's id, whatever id the body held. |
| ItemsService.NewItemsService | services/items_service.go:23-25 | The service holds the given data-access object. |
| ItemsService.ItemsService.Create | services/items_service.go:27-32 | Exactly one save call is made. Its error is answered unchanged; otherwise the answer is the submitted item, with no re-fetch. |
| ItemsService.ItemsService.Get | services/items_service.go:34-43 | Exactly one lookup is made. Its error is answered unchanged; otherwise the answer is the looked-up item with the requested id. |
| ItemsService.ItemsService.Search | services/items_service.go:45-47 | One search call, whose outcome is answered unchanged. |
| ItemsService.ItemsService.Delete | services/items_service.go:49-51 | One delete call, whose outcome is answered unchanged. |
| ItemsService.ItemsService.Put | services/items_service.go:53-58 | One full-update call. Its error is answered unchanged; otherwise the answer is the submitted item. |
| ItemsService.ItemsService.Patch | services/items_service.go:60-66 | A failed patch answers its error with no lookup. A successful one is followed by a lookup of the same id, whose outcome is the answer. |
| ItemsService.ErrorsComeFromDao | services/items_service.go:27-66 | Every error any operation answers was reported by one of the data-access calls it made. |
| ItemsService.PatchLooksUpOnlyAfterSuccess | services/items_service.go:60-66 | The patch is the first call, and a lookup is made iff the patch succeeded. |
| ItemsService.GetOverridesId | services/items_service.go:34-43 | The answered item is the stored one with its id replaced by the requested id. |
| ItemsController.RequestError | controllers/items_controller.go:31-43 | The classification is total. Status is 408 iff timeout, 404 iff not-found, and 500 otherwise. The message is fixed per case, and a wrapped error is "internal server error". |
| ItemsController.NotFoundWithId | controllers/items_controller.go:76-78 | Status 404, with a message that is the fixed prefix followed by the id. |
| ItemsController.ErrorAnswer | controllers/items_controller.go:61-65 | Definition: a failed service call is answered with `requestError`'s status and only its message as the body. |
| ItemsController.IsSpace | controllers/items_controller.go:72 | Definition: Go's `unicode.IsSpace`, the Latin-1 white space (tab, newline, vertical tab, form feed, carriage return, space, U+0085, U+00A0) and the other Unicode white-space characters. |
| ItemsController.TrimSpace | controllers/items_controller.go:72 | The result is the contiguous part of the id after the leading white space. Everything outside it is white space, and neither end of it is. |
| ItemsController.TrimSpaceIdempotent | controllers/items_controller.go:72 | Trimming twice equals trimming once. |
| ItemsController.TrimmedUnchanged | controllers/items_controller.go:72 | An id that neither starts nor ends with white space is left as it is. |
| ItemsController.AllSpaceTrimsToEmpty | controllers/items_controller.go:72 | An all-white-space id trims to the empty id. |
| ItemsController.Create | controllers/items_controller.go:45-68 | Authentication failure and bind failure are answered before any call. Otherwise the item saved has seller = the caller's client id, whatever the body said. It is answered with 201 on success, and the classified error otherwise. |
| ItemsController.Get | controllers/items_controller.go:70-83 | The lookup uses the trimmed id. Not-found is answered 404 with a message naming that id. Other errors are classified. Success is answered 200 with the item carrying that id. |
| ItemsController.Search | controllers/items_controller.go:85-101 | A bind failure gives 400 with no call. Otherwise the search outcome is answered with 200 or the classified error. |
| ItemsController.Delete | controllers/items_controller.go:103-114 | The delete uses the trimmed id. An error is answered with its classified status (404 for not-found) and the raw error as body. Success gives 200 with the deleted acknowledgement. |
| ItemsController.Put | controllers/items_controller.go:116-137 | The item sent has id = the trimmed path id, whatever the body said. A bind failure gives 400 with no call. Success gives 200 with the sent item. |
| ItemsController.Patch | controllers/items_controller.go:139-158 | The patch uses the trimmed id, and a lookup follows only a successful patch. A bind failure gives 400 with no call. The answer is the re-fetched item with 200, or the classified error. |

## Findings

| source | as written | input that shows it | evidently intended | confidence | as-written member | corrected member |
|---|---|---|---|---|---|---|
| domain/queries/es_query_dao.go:22-32 | One local `convert` is assigned `MinPrice`, its address is stored as `Gte`, then it is assigned `MaxPrice` and its address is stored as `Lte`, so both bounds read `MaxPrice` | `MinPrice` = 5, `MaxPrice` = 10 gives the price range [10, 10] | `Gte` = 5, `Lte` = 10 | high; not executed | Queries.Build (with Queries.AliasingCounterexample and Queries.AliasedBounds) | Queries.BuildFixed (with Queries.IntendedPriceBounds) |

The data-access search (`ItemDao.Search`) sends the as-written query, aliased bounds included. `ItemDao.SearchFixed` is the same search over the corrected builder.

## Left out

- Network I/O, contexts and clocks. A deadline is a client outcome (`DeadlineExceeded`), not a timer. The client's own retries, TLS and connection setup are not part of this model.
- The client implementation and the data-access interface the service calls are not shown in the repository. The client is modelled as a function from request to outcome. The service's data-access object is a record of such functions. The model does not connect the item methods of `ItemDao` to the service's data-access object, because their signatures differ.
- Floating point: `Price`, `MinPrice` and `MaxPrice` are integers here. The code copies them and never computes with them.
- Integer widths: seller ids and quantities are unbounded integers. The 64-bit and platform-int limits of the decoder are not modelled.
- JSON text: the model works on parsed JSON values. Parsing and printing, key order, case-insensitive key matching in the decoder, numbers with fractions, and duplicate keys are not modelled. A syntax error is the single `Malformed` source.
- ItemDto.DecodeElements: elements past the old slice's length decode into zero values. Go reuses any spare capacity of the old slice, which may hold stale elements. The model does not capture this.
- ItemDao.ItemRef.Get: a found document whose source is the JSON literal null is modelled as a successful decode that changes nothing. In Go it sets the method's local receiver pointer to nil, and the following id assignment panics.
- ItemDao.Search: a hit whose id is missing (a nil pointer) would panic in Go. The model gives every hit an id.
- ItemsService.ItemsService.Get: a data-access lookup that reports neither an item nor an error would panic in Go. A `Result` cannot express that case.
- Response writing: the JSON serialisation of answers is not modelled. The second write in the delete handler is not modelled either: after an error the code falls through and also writes 200 with the deleted acknowledgement. The model answers with the error only. The not-found message the delete handler builds is never sent, so only its status appears.
- Request binding and authentication (gin binding and validation, the OAuth calls) are inputs to the handlers: the bound value or `None`, the authentication failure or `None`, and the caller's client id. The message and error fields of the REST error library beyond message and status are not modelled.
- Process wiring, environment loading, index creation and the index mapping are not modelled. The engine-side behaviour of an update (merging a patch into the stored document) and any create-only guard on indexing are not modelled either, because they live in the search engine.
- Queries.Build, Queries.BuildFixed: they do not state that the cells they allocate are fresh. They state which cells are shared and what every cell holds.
- Error mapping in the data-access layer is modelled as the code does it:
  - Full and partial updates wrap every client error, a not-found included.
  - Only save and lookup map a deadline to `RequestTimeout`. Search, delete, full update and partial update wrap it.
