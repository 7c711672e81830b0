/**
 * The HTTP handlers of the items API, reduced to what they decide: how a service error becomes
 * a status and message, how the request is shaped before it reaches the service (the path id is
 * whitespace-trimmed, the seller is the authenticated caller, a full update carries the path id),
 * and what status and payload each outcome is answered with. Request binding and authentication
 * are inputs: the bound body (or `None` when binding fails), the authentication failure if any,
 * and the caller's client id.
 */
module ItemsController {
  import opened Wrappers
  import opened ItemErrors
  import opened ItemDto
  import opened Queries
  import opened ItemsService

  const StatusOK := 200
  const StatusCreated := 201
  const StatusBadRequest := 400
  const StatusNotFound := 404
  const StatusRequestTimeout := 408
  const StatusInternalServerError := 500

  /** An HTTP error answer: its message and status. */
  datatype RestErr = RestErr(message: string, status: int)

  /** What a handler writes: an entity, a bare message, an error record, a raw error, or the delete acknowledgement. */
  datatype Payload<T> =
    | Entity(value: T)
    | Message(text: string)
    | Fault(err: RestErr)
    | RawError(error: Error)
    | Deleted

  /** A handler's answer and the data-access calls made on the way. */
  datatype Answer<T> = Answer(status: int, payload: Payload<T>, calls: seq<DaoCall>)

  /**
   * Classify a service error. The timeout sentinel is tested first, then not-found, then the
   * parse failure; every other error, a wrapped client error included, is an internal error.
   */
  function RequestError(e: Error): (r: RestErr)
    ensures r.status == StatusRequestTimeout <==> e == RequestTimeout
    ensures r.status == StatusNotFound <==> e == NotFound
    ensures r.status == StatusInternalServerError <==> e != RequestTimeout && e != NotFound
    ensures e == RequestTimeout ==> r.message == "request timeout"
    ensures e == NotFound ==> r.message == "item not found with given id"
    ensures e == Parse ==> r.message == "error when trying to parse response"
    ensures e.Wrapped? ==> r.message == "internal server error"
  {
    if e == RequestTimeout then RestErr("request timeout", StatusRequestTimeout)
    else if e == NotFound then RestErr("item not found with given id", StatusNotFound)
    else if e == Parse then RestErr("error when trying to parse response", StatusInternalServerError)
    else RestErr("internal server error", StatusInternalServerError)
  }

  /** The not-found answer of a lookup or delete, naming the (trimmed) id. */
  function NotFoundWithId(id: string): (r: RestErr)
    ensures r.status == StatusNotFound
    ensures |id| <= |r.message| && r.message[|r.message| - |id|..] == id
    ensures r.message[..|r.message| - |id|] == "item not found with given id "
  {
    RestErr("item not found with given id " + id, StatusNotFound)
  }

  /** The answer to a failed service call: the classified status with its message. */
  function ErrorAnswer<T>(e: Error, calls: seq<DaoCall>): Answer<T> {
    Answer(RequestError(e).status, Message(RequestError(e).message), calls)
  }

  // ---------------------------------------------------------------------------------------------
  // Whitespace trimming of path ids

  /** White space as Unicode defines it for Go's `unicode.IsSpace`. */
  predicate IsSpace(c: char) {
    c == '\t' || c == '\n' || c == '\U{000B}' || c == '\U{000C}' || c == '\r' || c == ' '
    || c == '\U{0085}' || c == '\U{00A0}' || c == '\U{1680}'
    || ('\U{2000}' <= c <= '\U{200A}')
    || c == '\U{2028}' || c == '\U{2029}' || c == '\U{202F}' || c == '\U{205F}' || c == '\U{3000}'
  }

  /** The length of the run of white space that starts `s`. */
  function LeadingSpaces(s: string): (n: nat)
    ensures n <= |s|
    ensures forall k :: 0 <= k < n ==> IsSpace(s[k])
    ensures n < |s| ==> !IsSpace(s[n])
  {
    if s == [] || !IsSpace(s[0]) then 0 else 1 + LeadingSpaces(s[1..])
  }

  /** The length of the run of white space that ends `s`. */
  function TrailingSpaces(s: string): (n: nat)
    ensures n <= |s|
    ensures forall k :: |s| - n <= k < |s| ==> IsSpace(s[k])
    ensures n < |s| ==> !IsSpace(s[|s| - n - 1])
  {
    if s == [] || !IsSpace(s[|s| - 1]) then 0 else 1 + TrailingSpaces(s[..|s| - 1])
  }

  /**
   * `s` without its leading and trailing white space: a contiguous part of `s`, everything
   * outside it white space, and neither end of it white space.
   */
  function TrimSpace(s: string): (r: string)
    ensures r == [] || (!IsSpace(r[0]) && !IsSpace(r[|r| - 1]))
    ensures var i := LeadingSpaces(s);
      && i + |r| <= |s| && s[i..i + |r|] == r
      && (forall k :: 0 <= k < i ==> IsSpace(s[k]))
      && (forall k :: i + |r| <= k < |s| ==> IsSpace(s[k]))
  {
    var i := LeadingSpaces(s);
    var t := s[i..];
    var r := t[..|t| - TrailingSpaces(t)];
    assert s[i..i + |r|] == r;
    r
  }

  /** Trimming an already trimmed id changes nothing. */
  lemma TrimSpaceIdempotent(s: string)
    ensures TrimSpace(TrimSpace(s)) == TrimSpace(s)
  {
    TrimmedUnchanged(TrimSpace(s));
  }

  /** A string that neither starts nor ends with white space is its own trim. */
  lemma TrimmedUnchanged(s: string)
    requires s == [] || (!IsSpace(s[0]) && !IsSpace(s[|s| - 1]))
    ensures TrimSpace(s) == s
  {
    assert LeadingSpaces(s) == 0;
    assert s[0..] == s;
    assert TrailingSpaces(s) == 0;
  }

  /** A string of white space only trims to the empty id. */
  lemma AllSpaceTrimsToEmpty(s: string)
    requires forall k :: 0 <= k < |s| ==> IsSpace(s[k])
    ensures TrimSpace(s) == []
  {
  }

  // ---------------------------------------------------------------------------------------------
  // Handlers

  /**
   * Create an item. Authentication is checked first, then the body is bound; the seller is then
   * set to the authenticated caller whatever the body said, and the saved item is answered with
   * 201.
   */
  method Create(service: ItemsService, auth: Option<RestErr>, body: Option<Item>, clientId: int)
    returns (a: Answer<Item>)
    ensures auth.Some? ==> a == Answer(auth.value.status, Fault(auth.value), [])
    ensures auth.None? && body.None? ==>
      a == Answer(StatusBadRequest, Fault(RestErr("invalid item json body", StatusBadRequest)), [])
    ensures auth.None? && body.Some? ==>
      var sent := body.value.(seller := clientId);
      var err := service.itemDao.save(sent);
      && a.calls == [SaveCall(sent)]
      && (err.None? ==> a.status == StatusCreated && a.payload == Entity(sent))
      && (err.Some? ==> a == ErrorAnswer(err.value, [SaveCall(sent)]))
  {
    if auth.Some? {
      return Answer(auth.value.status, Fault(auth.value), []);
    }
    if body.None? {
      return Answer(StatusBadRequest, Fault(RestErr("invalid item json body", StatusBadRequest)), []);
    }
    var itemRequest := body.value;
    itemRequest := itemRequest.(seller := clientId);
    var reply := service.Create(itemRequest);
    if reply.result.Failure? {
      return ErrorAnswer(reply.result.error, reply.calls);
    }
    return Answer(StatusCreated, Entity(reply.result.value), reply.calls);
  }

  /**
   * Look an item up by its trimmed path id. A not-found answer names that id; the found item
   * carries it as its id.
   */
  method Get(service: ItemsService, rawId: string) returns (a: Answer<Item>)
    ensures var id := TrimSpace(rawId);
      var out := service.itemDao.get(id);
      && a.calls == [GetCall(id)]
      && (out.Success? ==> a.status == StatusOK && a.payload == Entity(out.value.(id := id)))
      && (out == Failure(NotFound) ==> a.status == StatusNotFound && a.payload == Message(NotFoundWithId(id).message))
      && (out.Failure? && out.error != NotFound ==> a == ErrorAnswer(out.error, [GetCall(id)]))
  {
    var itemId := TrimSpace(rawId);
    var reply := service.Get(itemId);
    if reply.result.Failure? {
      var restErr := RequestError(reply.result.error);
      if reply.result.error == NotFound {
        restErr := NotFoundWithId(itemId);
      }
      return Answer(restErr.status, Message(restErr.message), reply.calls);
    }
    return Answer(StatusOK, Entity(reply.result.value), reply.calls);
  }

  /** Search with the bound query; the items are answered as the data-access search reports them. */
  method Search(service: ItemsService, body: Option<EsQuery>) returns (a: Answer<seq<Item>>)
    ensures body.None? ==>
      a == Answer(StatusBadRequest, Fault(RestErr("invalid query json body", StatusBadRequest)), [])
    ensures body.Some? ==>
      var out := service.itemDao.search(body.value);
      && a.calls == [SearchCall(body.value)]
      && (out.Success? ==> a.status == StatusOK && a.payload == Entity(out.value))
      && (out.Failure? ==> a == ErrorAnswer(out.error, [SearchCall(body.value)]))
  {
    if body.None? {
      return Answer(StatusBadRequest, Fault(RestErr("invalid query json body", StatusBadRequest)), []);
    }
    var reply := service.Search(body.value);
    if reply.result.Failure? {
      return ErrorAnswer(reply.result.error, reply.calls);
    }
    return Answer(StatusOK, Entity(reply.result.value), reply.calls);
  }

  /**
   * Delete by trimmed path id. A failure is answered with its classified status (404 for the
   * not-found sentinel) and the raw error as its body; success with the deleted acknowledgement.
   */
  method Delete(service: ItemsService, rawId: string) returns (a: Answer<()>)
    ensures var id := TrimSpace(rawId);
      var err := service.itemDao.delete(id);
      && a.calls == [DeleteCall(id)]
      && (err.None? ==> a.status == StatusOK && a.payload == Deleted)
      && (err.Some? ==> a.payload == RawError(err.value) && a.status == RequestError(err.value).status)
      && (err == Some(NotFound) ==> a.status == StatusNotFound)
  {
    var itemId := TrimSpace(rawId);
    var reply := service.Delete(itemId);
    if reply.result.Failure? {
      var restErr := RequestError(reply.result.error);
      if reply.result.error == NotFound {
        restErr := NotFoundWithId(itemId);
      }
      return Answer(restErr.status, RawError(reply.result.error), reply.calls);
    }
    return Answer(StatusOK, Deleted, reply.calls);
  }

  /**
   * Replace an item. The path id is trimmed before the body is bound; the item sent to the
   * service carries that id whatever id the body held.
   */
  method Put(service: ItemsService, rawId: string, body: Option<Item>) returns (a: Answer<Item>)
    ensures body.None? ==>
      a == Answer(StatusBadRequest, Fault(RestErr("invalid update entire item json body", StatusBadRequest)), [])
    ensures body.Some? ==>
      var sent := body.value.(id := TrimSpace(rawId));
      var err := service.itemDao.put(sent);
      && a.calls == [PutCall(sent)]
      && (err.None? ==> a.status == StatusOK && a.payload == Entity(sent))
      && (err.Some? ==> a == ErrorAnswer(err.value, [PutCall(sent)]))
  {
    var itemId := TrimSpace(rawId);
    if body.None? {
      return Answer(StatusBadRequest, Fault(RestErr("invalid update entire item json body", StatusBadRequest)), []);
    }
    var itemRequest := body.value;
    itemRequest := itemRequest.(id := itemId);
    var reply := service.Put(itemRequest);
    if reply.result.Failure? {
      return ErrorAnswer(reply.result.error, reply.calls);
    }
    return Answer(StatusOK, Entity(reply.result.value), reply.calls);
  }

  /**
   * Patch an item by trimmed path id and answer the item as re-fetched after the patch; a failed
   * patch is answered without a lookup.
   */
  method Patch(service: ItemsService, rawId: string, body: Option<PartialUpdateItem>) returns (a: Answer<Item>)
    ensures body.None? ==>
      a == Answer(StatusBadRequest, Fault(RestErr("invalid update item json body", StatusBadRequest)), [])
    ensures body.Some? ==>
      var id := TrimSpace(rawId);
      var err := service.itemDao.patch(body.value, id);
      var fetched := service.itemDao.get(id);
      && (err.Some? ==> a == ErrorAnswer(err.value, [PatchCall(body.value, id)]))
      && (err.None? ==> a.calls == [PatchCall(body.value, id), GetCall(id)])
      && (err.None? && fetched.Success? ==> a.status == StatusOK && a.payload == Entity(fetched.value))
      && (err.None? && fetched.Failure? ==> a == ErrorAnswer(fetched.error, [PatchCall(body.value, id), GetCall(id)]))
  {
    var itemId := TrimSpace(rawId);
    if body.None? {
      return Answer(StatusBadRequest, Fault(RestErr("invalid update item json body", StatusBadRequest)), []);
    }
    var reply := service.Patch(body.value, itemId);
    if reply.result.Failure? {
      return ErrorAnswer(reply.result.error, reply.calls);
    }
    return Answer(StatusOK, Entity(reply.result.value), reply.calls);
  }
}
