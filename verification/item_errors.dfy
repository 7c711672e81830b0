/**
 * The error values of the items layer: what the search-engine client reports, and the domain
 * error taxonomy the repository turns it into (item_errors/items_errors.go).
 */
module ItemErrors {

  /** An error returned by a search-engine client call. */
  datatype ClientError =
    | DeadlineExceeded          // the call's context ran out (`context.DeadlineExceeded` is in its chain)
    | DocumentNotFound          // the client's not-found sentinel (`elasticsearch.ErrorNotFound`)
    | Transport(reason: string) // any other transport, server or encoding failure

  /**
   * A domain error. The three sentinels of item_errors/items_errors.go, or a client error wrapped
   * with `fmt.Errorf("<context> %w", err)`, which keeps the client error in its chain and is
   * never one of the sentinels.
   */
  datatype Error =
    | RequestTimeout
    | NotFound
    | Parse
    | Wrapped(context: string, cause: ClientError)

  /** `errors.Is(err, context.DeadlineExceeded)` on a client error. */
  predicate IsDeadline(e: ClientError) {
    e.DeadlineExceeded?
  }

  /**
   * The classification that `Save` and `Get` apply to a failed client call: a deadline becomes
   * the timeout sentinel, every other failure is wrapped with the operation's context text.
   */
  function TimeoutOrWrap(context: string, e: ClientError): (r: Error)
    ensures r == RequestTimeout <==> IsDeadline(e)
    ensures r != RequestTimeout ==> r == Wrapped(context, e)
    ensures r != NotFound && r != Parse
  {
    if IsDeadline(e) then RequestTimeout else Wrapped(context, e)
  }
}
