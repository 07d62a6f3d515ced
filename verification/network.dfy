/**
 The spider's only way to the network, `_api_request`, with the server
 replaced by a tape of raw responses. Each attempt sends one request and
 consumes the next response on the tape; an exhausted tape stands for a
 transport failure. The tape lets the same request receive different
 answers on a retry, which is what makes the 429 retry meaningful.
 */
module Network {
  import opened PyJson

  /** The three upstream endpoints. The comment tree and the paginated
      comment list reach child comments through two different hosts. */
  datatype Endpoint =
    | TopSerp(query: string)
    | Comments(mediaId: string)
    | ChildComments(mediaId: string, parentPk: Json)
    | TreeChildComments(mediaId: string, parentPk: Json)

  /** One GET: the endpoint and the pagination cursor sent with it
      (`None` on a first page). */
  datatype Request = Request(endpoint: Endpoint, cursor: Option<Json>)

  /** What one attempt observes: a response (its Content-Type, status and
      body, `None` when the body is not valid JSON), or a transport error. */
  datatype Raw =
    | Response(contentType: string, status: int, body: Option<Json>)
    | TransportError

  /** The network as seen by the spider: responses still to come and the
      requests sent so far, oldest first. */
  datatype Net = Net(tape: seq<Raw>, sent: seq<Request>)

  /** How `_api_request` reads one response: a payload (`None` for "no
      data"), or a throttling signal that makes it retry. */
  datatype Verdict = Payload(data: Option<Json>) | Throttled

  /** An HTML page where JSON was expected: the login wall. */
  predicate IsHtml(contentType: string) {
    !IsSubstring("json", contentType) && IsSubstring("text/html", contentType)
  }

  function Classify(raw: Raw): (v: Verdict)
    ensures v.Throttled? <==> raw.Response? && !IsHtml(raw.contentType) && raw.status == 429
    ensures v.Payload? && v.data.Some? <==>
              raw.Response? && !IsHtml(raw.contentType) && raw.status == 200 && raw.body.Some?
    ensures v.Payload? && v.data.Some? ==> v.data == raw.body
  {
    match raw
    case TransportError => Payload(None)
    case Response(contentType, status, body) =>
      if IsHtml(contentType) then Payload(None)
      else if status == 200 then Payload(body)
      else if status == 429 then Throttled
      else Payload(None)
  }

  function Repeat<T>(x: T, n: nat): (r: seq<T>)
    ensures |r| == n && forall i :: 0 <= i < n ==> r[i] == x
  {
    if n == 0 then [] else [x] + Repeat(x, n - 1)
  }

  /** `net'` is a later state of `net`: it has consumed a prefix of the
      tape and only appended to the log of sent requests. */
  predicate Advances(net: Net, net': Net) {
    && |net'.tape| <= |net.tape|
    && net'.tape == net.tape[|net.tape| - |net'.tape|..]
    && net.sent <= net'.sent
  }

  lemma AdvancesTransitive(a: Net, b: Net, c: Net)
    requires Advances(a, b) && Advances(b, c)
    ensures Advances(a, c)
  {
  }

  /** `_api_request(url, params)`: send, classify, and on 429 send the
      identical request again. Only a payload ever consumes a tape element
      without a further attempt, so getting data always shortens the tape. */
  function ApiRequest(req: Request, net: Net): (r: (Option<Json>, Net))
    decreases |net.tape|
    ensures Advances(net, r.1)
    ensures |r.1.sent| > |net.sent|
    ensures forall i :: |net.sent| <= i < |r.1.sent| ==> r.1.sent[i] == req
    ensures |r.1.tape| + |r.1.sent| <= |net.tape| + |net.sent| + 1
    ensures r.0.Some? ==> |r.1.tape| < |net.tape|
  {
    var net1 := net.(sent := net.sent + [req]);
    if |net.tape| == 0 then (None, net1)
    else
      var rest := net1.(tape := net.tape[1..]);
      match Classify(net.tape[0])
      case Payload(data) => (data, rest)
      case Throttled => ApiRequest(req, rest)
  }

  /** The whole retry behaviour of one call: when the first `n` responses
      are 429s and response `n` is not (or the tape ends there), the call
      sends `req` exactly `n + 1` times and answers with what response `n`
      carries, or with nothing when the tape ran out. */
  lemma {:induction false} ApiRequestRetries(req: Request, net: Net, n: nat)
    decreases n
    requires n <= |net.tape|
    requires forall i :: 0 <= i < n ==> Classify(net.tape[i]).Throttled?
    requires n < |net.tape| ==> Classify(net.tape[n]).Payload?
    ensures ApiRequest(req, net).0 ==
              (if n < |net.tape| then Classify(net.tape[n]).data else None)
    ensures ApiRequest(req, net).1 ==
              Net(net.tape[if n < |net.tape| then n + 1 else n..], net.sent + Repeat(req, n + 1))
  {
    var net1 := net.(sent := net.sent + [req]);
    if n == 0 {
      if |net.tape| > 0 {
        assert ApiRequest(req, net) == (Classify(net.tape[0]).data, net1.(tape := net.tape[1..]));
      }
    } else {
      var rest := net1.(tape := net.tape[1..]);
      assert Classify(net.tape[0]).Throttled?;
      assert ApiRequest(req, net) == ApiRequest(req, rest);
      forall i | 0 <= i < n - 1
        ensures Classify(rest.tape[i]).Throttled?
      {
        assert rest.tape[i] == net.tape[i + 1];
      }
      ApiRequestRetries(req, rest, n - 1);
      assert net.sent + [req] + Repeat(req, n) == net.sent + Repeat(req, n + 1);
    }
  }

  /** A 429 followed by a 200 answers with the 200's body after exactly one
      repeat of the request. */
  lemma ThrottledThenOk(req: Request, net: Net, ct: string, body: Json)
    requires |net.tape| >= 2
    requires Classify(net.tape[0]).Throttled?
    requires net.tape[1] == Response(ct, 200, Some(body)) && !IsHtml(ct)
    ensures ApiRequest(req, net).0 == Some(body)
    ensures ApiRequest(req, net).1.sent == net.sent + [req, req]
  {
    ApiRequestRetries(req, net, 1);
  }
}
