/**
 * The update-row mutation: PUT `rows/{id}`; when the PUT is refused with
 * HTTP 405, or fails without any response, send the identical request
 * once more as a POST; any other failure is rethrown unchanged.
 */
module UpdateRow {
  import opened Wrappers
  import opened Http

  /** A row id as the caller gives it: a string or an integer. */
  datatype RowId = TextId(s: string) | NumberId(n: int)

  /** The mutation's variables: the row, the fields to write, and the optional table and date. */
  datatype Variables = Variables(id: RowId, data: map<string, Value>, table: Option<string>, date: Option<string>)

  // ----- Rendering the path `rows/${id}` -----

  function DigitChar(d: nat): (c: char)
    requires d < 10
    ensures '0' <= c <= '9' && (c - '0') as nat == d
  {
    "0123456789"[d]
  }

  predicate AllDigits(s: string) {
    forall i :: 0 <= i < |s| ==> '0' <= s[i] <= '9'
  }

  /** Decimal digits of `n`, most significant first, without leading zeros. */
  function NatToDecimal(n: nat): (s: string)
    ensures |s| >= 1 && AllDigits(s)
    decreases n
  {
    if n < 10 then [DigitChar(n)] else NatToDecimal(n / 10) + [DigitChar(n % 10)]
  }

  /** The number a string of decimal digits denotes. */
  function DecimalValue(s: string): nat
    requires AllDigits(s)
  {
    if s == [] then 0 else DecimalValue(s[..|s| - 1]) * 10 + (s[|s| - 1] - '0') as nat
  }

  /** Reading back the digits of `n` yields `n`. */
  lemma {:induction false} DecimalRoundTrip(n: nat)
    ensures DecimalValue(NatToDecimal(n)) == n
    decreases n
  {
    var s := NatToDecimal(n);
    if n >= 10 {
      DecimalRoundTrip(n / 10);
      assert s[..|s| - 1] == NatToDecimal(n / 10);
    }
  }

  /** How a template literal renders an integer: optional minus sign, then decimal digits. */
  function IntToString(i: int): (s: string)
    ensures |s| >= 1
    ensures s[0] == '-' <==> i < 0
  {
    if i < 0 then "-" + NatToDecimal(-i) else NatToDecimal(i)
  }

  /** The request path `rows/${id}`; a string id is inserted verbatim. */
  function RowPath(id: RowId): (p: string)
    ensures |p| >= 5 && p[..5] == "rows/"
    ensures id.NumberId? ==> p[5..] == IntToString(id.n)
    ensures id.TextId? ==> p[5..] == id.s
  {
    "rows/" + match id
      case TextId(s) => s
      case NumberId(n) => IntToString(n)
  }

  /** Different naturals have different digits. */
  lemma NatToDecimalInjective(m: nat, n: nat)
    requires NatToDecimal(m) == NatToDecimal(n)
    ensures m == n
  {
    DecimalRoundTrip(m);
    DecimalRoundTrip(n);
  }

  /** Different integers render differently. */
  lemma IntToStringInjective(a: int, b: int)
    requires IntToString(a) == IntToString(b)
    ensures a == b
  {
    if a < 0 && b < 0 {
      var sa, sb := IntToString(a), IntToString(b);
      assert sa[1..] == NatToDecimal(-a) && sb[1..] == NatToDecimal(-b);
      NatToDecimalInjective(-a, -b);
    } else if a >= 0 && b >= 0 {
      NatToDecimalInjective(a, b);
    }
  }

  /** Distinct integer ids address distinct rows. */
  lemma NumberPathInjective(a: int, b: int)
    requires RowPath(NumberId(a)) == RowPath(NumberId(b))
    ensures a == b
  {
    IntToStringInjective(a, b);
  }

  // ----- The fallback decision -----

  /**
   * The catch block's test: fall back to POST when the error's response
   * status is 405 (`methodNotAllowed`) or the error has no response
   * (`noResponse`).
   */
  predicate FallsBack(e: HttpError)
    ensures FallsBack(e) <==> e.NoResponse? || e.status == 405
  {
    var status := if e.StatusError? then Some(e.status) else None;
    var methodNotAllowed := status == Some(405);
    var noResponse := e.NoResponse?;
    methodNotAllowed || noResponse
  }

  /** The request the mutation sends with `verb` against `base`. */
  function RequestFor(verb: Verb, base: string, v: Variables): (r: Request)
    ensures r.verb == verb && r.baseURL == base && r.path == RowPath(v.id)
    ensures r.body == v.data && r.params == Params(v.table, v.date) && r.headers == JsonHeaders
  {
    Request(verb, base, RowPath(v.id), v.data, Params(v.table, v.date), JsonHeaders)
  }

  /** Whether a PUT that got `reply` is followed by the POST fallback. */
  predicate RetriesAsPost(reply: Reply) {
    reply.Failure? && FallsBack(reply.error)
  }

  /**
   * The exchanges one call of the mutation appends to the client's log,
   * when the PUT is answered `putReply` and a POST, if sent, `postReply`.
   */
  function Exchanges(v: Variables, base: string, putReply: Reply, postReply: Reply): (ex: seq<Exchange>)
    ensures 1 <= |ex| <= 2
    ensures ex[0] == Exchange(RequestFor(Put, base, v), putReply)
    ensures |ex| == 2 <==> RetriesAsPost(putReply)
    ensures |ex| == 2 ==> ex[1].request == ex[0].request.(verb := Post) && ex[1].reply == postReply
  {
    var put := Exchange(RequestFor(Put, base, v), putReply);
    if RetriesAsPost(putReply) then [put, Exchange(RequestFor(Post, base, v), postReply)] else [put]
  }

  /**
   * What one call of the mutation resolves or rejects with: the PUT's body
   * on success; the POST's settlement, unchanged, after a fallback; the
   * PUT's own error otherwise.
   */
  function Outcome(putReply: Reply, postReply: Reply): (r: Reply)
    ensures putReply.Success? ==> r == putReply
    ensures RetriesAsPost(putReply) ==> r == postReply
    ensures putReply.Failure? && !FallsBack(putReply.error) ==> r == Failure(putReply.error)
  {
    if putReply.Success? then putReply
    else if FallsBack(putReply.error) then postReply
    else Failure(putReply.error)
  }

  /** A PUT that gets a non-405 status error is not retried: it issues one request and rethrows. */
  lemma OtherStatusRethrown(v: Variables, base: string, status: int, message: string, postReply: Reply)
    requires status != 405
    ensures Exchanges(v, base, Failure(StatusError(status, message)), postReply)
         == [Exchange(RequestFor(Put, base, v), Failure(StatusError(status, message)))]
    ensures Outcome(Failure(StatusError(status, message)), postReply) == Failure(StatusError(status, message))
  {
  }

  /** A successful PUT is the only request, and its body is the result. */
  lemma PutSucceeded(v: Variables, base: string, data: UpdateResponse, postReply: Reply)
    ensures Exchanges(v, base, Success(data), postReply) == [Exchange(RequestFor(Put, base, v), Success(data))]
    ensures Outcome(Success(data), postReply) == Success(data)
  {
  }

  /** A PUT refused with 405 is followed by the identical POST, whose settlement is the result. */
  lemma MethodNotAllowedRetried(v: Variables, base: string, message: string, postReply: Reply)
    ensures Exchanges(v, base, Failure(StatusError(405, message)), postReply)
         == [Exchange(RequestFor(Put, base, v), Failure(StatusError(405, message))),
             Exchange(RequestFor(Post, base, v), postReply)]
    ensures Outcome(Failure(StatusError(405, message)), postReply) == postReply
  {
  }

  /** A PUT that got no response is followed by the identical POST, whose settlement is the result. */
  lemma NoResponseRetried(v: Variables, base: string, message: string, postReply: Reply)
    ensures Exchanges(v, base, Failure(NoResponse(message)), postReply)
         == [Exchange(RequestFor(Put, base, v), Failure(NoResponse(message))),
             Exchange(RequestFor(Post, base, v), postReply)]
    ensures Outcome(Failure(NoResponse(message)), postReply) == postReply
  {
  }

  /**
   * `mutationFn` of the update-row mutation, run on the shared client.
   * The transport answers the PUT with `putReply` and the POST, if one
   * is sent, with `postReply`.
   */
  method MutationFn(client: Client, v: Variables, putReply: Reply, postReply: Reply) returns (r: Reply)
    modifies client
    ensures r == Outcome(putReply, postReply)
    ensures client.log == old(client.log) + Exchanges(v, old(client.baseURL), putReply, postReply)
    ensures client.baseURL == old(client.baseURL)
    ensures PostsFollowFailedPuts(old(client.log)) ==> PostsFollowFailedPuts(client.log)
  {
    ghost var before := client.log;
    var path := RowPath(v.id);
    var res := client.Send(Put, path, v.data, Params(v.table, v.date), JsonHeaders, putReply);
    if res.Success? {
      r := res;
    } else {
      var error := res.error;
      if FallsBack(error) {
        r := client.Send(Post, path, v.data, Params(v.table, v.date), JsonHeaders, postReply);
      } else {
        r := Failure(error);
      }
    }
    if PostsFollowFailedPuts(before) {
      AppendCallPreserves(before, v, old(client.baseURL), putReply, postReply);
    }
  }

  // ----- The client's log across calls -----

  /** `post` is the fallback of `put`: a refused PUT, then the same request as a POST. */
  predicate IsFallbackOf(put: Exchange, post: Exchange) {
    put.request.verb == Put && RetriesAsPost(put.reply) && post.request == put.request.(verb := Post)
  }

  /** Every POST in the log comes right after a refused PUT of the identical request. */
  predicate PostsFollowFailedPuts(log: seq<Exchange>) {
    forall i :: 0 <= i < |log| && log[i].request.verb == Post ==> 0 < i && IsFallbackOf(log[i - 1], log[i])
  }

  /** Appending one call's exchanges keeps the log's POSTs tied to refused PUTs. */
  lemma AppendCallPreserves(log: seq<Exchange>, v: Variables, base: string, putReply: Reply, postReply: Reply)
    requires PostsFollowFailedPuts(log)
    ensures PostsFollowFailedPuts(log + Exchanges(v, base, putReply, postReply))
  {
  }

  /** One call of the mutation in a session: its variables, base URL and the transport's replies. */
  datatype Call = Call(v: Variables, base: string, putReply: Reply, postReply: Reply)

  /** The log a fresh client holds after the calls, in order. */
  function Session(calls: seq<Call>): seq<Exchange>
  {
    if calls == [] then []
    else
      var c := calls[|calls| - 1];
      Session(calls[..|calls| - 1]) + Exchanges(c.v, c.base, c.putReply, c.postReply)
  }

  /**
   * Over any session: each call issues one or two requests, and every POST
   * in the log directly follows a refused PUT of the same path, body,
   * parameters and headers.
   */
  lemma {:induction false} SessionLog(calls: seq<Call>)
    ensures |calls| <= |Session(calls)| <= 2 * |calls|
    ensures PostsFollowFailedPuts(Session(calls))
  {
    if calls != [] {
      var c := calls[|calls| - 1];
      SessionLog(calls[..|calls| - 1]);
      AppendCallPreserves(Session(calls[..|calls| - 1]), c.v, c.base, c.putReply, c.postReply);
    }
  }
}
