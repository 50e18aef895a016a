/**
 * The shared HTTP client that every data-access hook sends through.
 * Only what the base-URL configuration and the update-row mutation touch
 * is modelled: the mutable `baseURL` default, and a log of the exchanges
 * the client has carried out.  The network itself is abstract: each
 * request is answered by a reply supplied by the caller.
 */
module Http {
  import opened Wrappers

  datatype Verb = Get | Put | Post

  /** A cell of a row: the value shapes a server row may hold. */
  datatype Value = Text(s: string) | Number(n: int) | Null

  /** Query parameters; a missing one is omitted from the query string. */
  datatype Params = Params(table: Option<string>, date: Option<string>)

  /** A request as issued: the verb, the base URL in force when it was sent, and its parts. */
  datatype Request = Request(
    verb: Verb,
    baseURL: string,
    path: string,
    body: map<string, Value>,
    params: Params,
    headers: map<string, string>)

  /** The body of a successful update: the table written and the number of rows changed. */
  datatype UpdateResponse = UpdateResponse(table: string, updated: int)

  /**
   * Why a request was rejected: either the server answered with an error
   * status (the error carries a `response`), or no response was received
   * at all (network failure, blocked method, or any error without `response`).
   */
  datatype HttpError = StatusError(status: int, message: string) | NoResponse(message: string)

  /** What the transport delivered for one request. */
  type Reply = Result<UpdateResponse, HttpError>

  /** One entry of the client's log: a request and the reply it got. */
  datatype Exchange = Exchange(request: Request, reply: Reply)

  /** Headers sent with a JSON body. */
  const JsonHeaders: map<string, string> := map["Content-Type" := "application/json"]

  class Client {
    /** `client.defaults.baseURL`: the target every later request is resolved against. */
    var baseURL: string
    /** Every exchange this client has carried out, oldest first. */
    var log: seq<Exchange>

    constructor (baseURL: string)
      ensures this.baseURL == baseURL && log == []
    {
      this.baseURL := baseURL;
      log := [];
    }

    /** Issues one request against the current `baseURL`; the transport answers `reply`. */
    method Send(verb: Verb, path: string, body: map<string, Value>, params: Params,
                headers: map<string, string>, reply: Reply) returns (r: Reply)
      modifies this
      ensures r == reply
      ensures baseURL == old(baseURL)
      ensures log == old(log) + [Exchange(Request(verb, old(baseURL), path, body, params, headers), reply)]
    {
      log := log + [Exchange(Request(verb, baseURL, path, body, params, headers), reply)];
      r := reply;
    }
  }
}
