/** The request executor: building a request, running it through the
    injected transport, classifying the status and handling the body and
    headers of a successful response; then the six per-verb entry points. */
module HttpClient {
  import opened Common
  import opened HttpErrors
  import opened Status
  import opened Wire

  datatype Options = Options(debug: bool)

  /** The injected transport: what it answers for each request. */
  type Transport = Request -> Exchange

  /** A client: its transport and its configuration; nothing in it changes per call. */
  datatype Client = Client(httpClient: Transport, options: Options)

  /** Missing options mean Debug off; a missing transport means the default one. */
  function New(httpClient: Option<Transport>, options: Option<Options>, defaultClient: Transport): (c: Client)
    ensures options.None? ==> !c.options.debug
    ensures options.Some? ==> c.options == options.value
    ensures httpClient.None? ==> c.httpClient == defaultClient
    ensures httpClient.Some? ==> c.httpClient == httpClient.value
  {
    Client(if httpClient.Some? then httpClient.value else defaultClient,
           if options.Some? then options.value else Options(false))
  }

  // ---- request construction ----

  /** Builds the request: a body exactly when a payload is given (even an
      empty one), no headers yet; it fails only when the URL is malformed. */
  function NewRequest(verb: Method, apiURL: string, payload: Option<seq<Byte>>, parse: string -> ParsedURL)
    : (r: Result<Request, string>)
    ensures r.Ok? <==> parse(apiURL).URL?
    ensures r.Ok? ==> r.value == Request(verb, parse(apiURL).text, payload, map[])
    ensures r.Err? ==> r.error == parse(apiURL).cause
  {
    match parse(apiURL)
    case BadURL(cause) => Err(cause)
    case URL(text) => Ok(Request(verb, text, payload, map[]))
  }

  /** The request as sent: a supplied carrier's headers replace the request's. */
  function WithCarriedHeader(r: Request, carried: Option<Header>): (s: Request)
    ensures s.verb == r.verb && s.url == r.url && s.body == r.body
    ensures carried.Some? ==> s.header == carried.value
    ensures carried.None? ==> s == r
  {
    match carried
    case None => r
    case Some(h) => r.(header := h)
  }

  // ---- the transport step and status classification ----

  /** What the transport step hands on: a response (possibly absent) or an
      error; `NilDereference` is the step failing on an absent response. */
  datatype DoResult = Returned(response: Option<Response>) | Failed(err: Error) | NilDereference

  function Classified(resp: Response): (d: DoResult)
    ensures d.Returned? <==> IsSuccess(resp.status)
    ensures d.Returned? ==> d.response == Some(resp)
    ensures d.Failed? <==> !IsSuccess(resp.status)
    ensures d.Failed? ==> d.err == ClassifyFailure(resp.status, resp.body)
  {
    if IsSuccess(resp.status) then Returned(Some(resp))
    else Failed(ClassifyFailure(resp.status, resp.body))
  }

  /** The transport step as written: it reads the status of the response
      before checking that there is one. */
  function DoAsWritten(r: Request, x: Exchange): (d: DoResult)
    ensures d == NilDereference <==> x == Delivered(None)
    ensures d.Returned? ==> d.response.Some? && Succeeds(x) && d.response == x.response
    ensures x.TransportFailure? ==> d == Failed(Transport(r.verb, r.url, x.cause))
    ensures x.Delivered? && x.response.Some? ==> d == Classified(x.response.value)
  {
    match x
    case TransportFailure(cause) => Failed(Transport(r.verb, r.url, cause))
    case Delivered(None) => NilDereference
    case Delivered(Some(resp)) => Classified(resp)
  }

  /** As written, an absent response never reaches the nil check of the
      caller: the step fails on it instead. */
  lemma NilResponseUnreachableAsWritten(r: Request)
    ensures DoAsWritten(r, Delivered(None)) == NilDereference
    ensures forall x :: DoAsWritten(r, x) != Returned(None)
  {
  }

  /** The corrected step differs from the step as written only on an absent response. */
  lemma AsWrittenAgreesElsewhere(r: Request, x: Exchange)
    requires x != Delivered(None)
    ensures DoAsWritten(r, x) == DoSpec(r, x)
  {
  }

  /** The transport step with the absent response passed on to the caller. */
  function DoSpec(r: Request, x: Exchange): (d: DoResult)
    ensures d != NilDereference
    ensures d == Returned(None) <==> x == Delivered(None)
    ensures d.Returned? && d.response.Some? <==> x.Delivered? && x.response.Some? && IsSuccess(x.response.value.status)
    ensures d.Returned? && d.response.Some? ==> d.response == x.response
    ensures d.Failed? && d.err.Status? <==> x.Delivered? && x.response.Some? && !IsSuccess(x.response.value.status)
    ensures d.Failed? && d.err.Status? ==> d.err == ClassifyFailure(x.response.value.status, x.response.value.body)
    ensures d.Failed? && !d.err.Status? <==> x.TransportFailure?
    ensures x.TransportFailure? ==> d.err == Transport(r.verb, r.url, x.cause)
  {
    match x
    case Delivered(None) => Returned(None)
    case _ => DoAsWritten(r, x)
  }

  /** The effect a call has on what the caller can see: the error, the
      headers written to the carrier, the value written to the target. */
  datatype Effect<V> = Effect(err: Option<Error>, header: Option<Header>, decoded: Option<V>)

  /** The exchange hands back a response with a success status. */
  predicate Succeeds(x: Exchange)
  {
    x.Delivered? && x.response.Some? && IsSuccess(x.response.value.status)
  }

  /** What handling one exchange does, for the request that was sent. */
  function Expected<V>(sent: Request, x: Exchange, carried: bool, decoder: Option<seq<Byte> -> Decoded<V>>)
    : (e: Effect<V>)
    ensures e.header.Some? <==> carried && Succeeds(x)
    ensures e.header.Some? ==> e.header.value == x.response.value.header
    ensures e.err.None? <==> Succeeds(x) && (decoder.None? || decoder.value(x.response.value.body).result.Parsed?)
    ensures e.decoded.Some? <==> decoder.Some? && e.err.None?
    ensures e.decoded.Some? ==> e.decoded.value == decoder.value(x.response.value.body).result.value
    ensures x == Delivered(None) ==> e == Effect(Some(NilResponse), None, None)
    ensures x.TransportFailure? ==> e == Effect(Some(Transport(sent.verb, sent.url, x.cause)), None, None)
    ensures x.Delivered? && x.response.Some? && !IsSuccess(x.response.value.status) ==>
      e == Effect(Some(ClassifyFailure(x.response.value.status, x.response.value.body)), None, None)
    ensures e.err.Some? && e.err.value.Status? <==> x.Delivered? && x.response.Some? && !IsSuccess(x.response.value.status)
    ensures Succeeds(x) && decoder.Some? && decoder.value(x.response.value.body).result.Malformed? ==>
      var body := x.response.value.body;
      var d := decoder.value(body);
      e.err == Some(Decode(sent.verb, sent.url, body[..Min(d.consumed, |body|)], d.result.cause))
    ensures e.err.Some? && e.err.value.Decode? ==>
      && decoder.Some? && Succeeds(x)
      && e.err.value.verb == sent.verb && e.err.value.url == sent.url
      && e.err.value.consumed <= x.response.value.body
  {
    match DoSpec(sent, x)
    case Failed(err) => Effect(Some(err), None, None)
    case NilDereference => Effect(Some(NilResponse), None, None)
    case Returned(None) => Effect(Some(NilResponse), None, None)
    case Returned(Some(resp)) =>
      var h := if carried then Some(resp.header) else None;
      match decoder
      case None => Effect(None, h, None)
      case Some(decode) =>
        var d := decode(resp.body);
        match d.result
        case Parsed(v) => Effect(None, h, Some(v))
        case Malformed(cause) =>
          Effect(Some(Decode(sent.verb, sent.url, resp.body[..Min(d.consumed, |resp.body|)], cause)), h, None)
  }

  /** What a whole call does: build the request, attach the carrier's headers, handle the exchange. */
  function CallSpec<V>(c: Client, verb: Method, apiURL: string, payload: Option<seq<Byte>>,
                       carried: Option<Header>, decoder: Option<seq<Byte> -> Decoded<V>>,
                       parse: string -> ParsedURL): (e: Effect<V>)
    ensures parse(apiURL).BadURL? ==> e == Effect(Some(Construction(verb, parse(apiURL).cause)), None, None)
  {
    match NewRequest(verb, apiURL, payload, parse)
    case Err(cause) => Effect(Some(Construction(verb, cause)), None, None)
    case Ok(req) =>
      var sent := WithCarriedHeader(req, carried);
      Expected(sent, c.httpClient(sent), carried.Some?, decoder)
  }

  /** The retriable marker is attached exactly when a response arrives
      with one of the transient statuses, whatever the verb. */
  lemma RetriableExactly<V>(c: Client, verb: Method, apiURL: string, payload: Option<seq<Byte>>,
                            carried: Option<Header>, decoder: Option<seq<Byte> -> Decoded<V>>,
                            parse: string -> ParsedURL)
    requires parse(apiURL).URL?
    ensures var e := CallSpec(c, verb, apiURL, payload, carried, decoder, parse);
            var sent := WithCarriedHeader(Request(verb, parse(apiURL).text, payload, map[]), carried);
            var x := c.httpClient(sent);
            (e.err.Some? && IsRetriable(e.err.value))
            <==> x.Delivered? && x.response.Some? && x.response.value.status in RetriableStatuses
  {
  }

  /** A response with a listed status yields that row's kind, for every verb. */
  lemma StatusKindForEveryVerb<V>(c: Client, verb: Method, apiURL: string, payload: Option<seq<Byte>>,
                                  carried: Option<Header>, decoder: Option<seq<Byte> -> Decoded<V>>,
                                  parse: string -> ParsedURL, k: Kind)
    requires parse(apiURL).URL? && !k.Unhandled?
    ensures var e := CallSpec(c, verb, apiURL, payload, carried, decoder, parse);
            var sent := WithCarriedHeader(Request(verb, parse(apiURL).text, payload, map[]), carried);
            var x := c.httpClient(sent);
            x.Delivered? && x.response.Some? && x.response.value.status in StatusesOf(k)
            ==> e.err.Some? && e.err.value.Status? && e.err.value.kind == k
  {
    var sent := WithCarriedHeader(Request(verb, parse(apiURL).text, payload, map[]), carried);
    var x := c.httpClient(sent);
    if x.Delivered? && x.response.Some? && x.response.value.status in StatusesOf(k) {
      KindExactly(x.response.value.status, x.response.value.body, k);
    }
  }

  /** A HEAD call never fails on decoding, and succeeds whenever the response has a success status. */
  lemma HeadNeverDecodes(c: Client, apiURL: string, payload: Option<seq<Byte>>, carried: Option<Header>,
                         parse: string -> ParsedURL)
    ensures var e := CallSpec<bool>(c, MethodHead, apiURL, payload, carried, None, parse);
            && (e.err.Some? ==> !e.err.value.Decode?)
            && e.decoded.None?
            && (parse(apiURL).URL? ==>
                  var sent := WithCarriedHeader(Request(MethodHead, parse(apiURL).text, payload, map[]), carried);
                  Succeeds(c.httpClient(sent)) ==> e.err.None?)
  {
  }

  /** A body the decoder rejects fails the call with a decode error whose
      message names the verb and URL of the request sent and the bytes the
      decoder read from the body. */
  lemma DecodeErrorNamesRequest<V>(sent: Request, x: Exchange, carried: bool,
                                   decoder: Option<seq<Byte> -> Decoded<V>>)
    requires Succeeds(x) && decoder.Some? && decoder.value(x.response.value.body).result.Malformed?
    ensures var body := x.response.value.body;
            var d := decoder.value(body);
            var consumed := body[..Min(d.consumed, |body|)];
            var err := Expected(sent, x, carried, decoder).err;
            && err == Some(Decode(sent.verb, sent.url, consumed, d.result.cause))
            && Mentions(Message(err.value), sent.verb.Name())
            && Mentions(Message(err.value), sent.url)
            && Mentions(Message(err.value), Text(consumed))
            && consumed <= body
  {
    var body := x.response.value.body;
    var d := decoder.value(body);
    DecodeMessageMentions(sent.verb, sent.url, body[..Min(d.consumed, |body|)], d.result.cause);
  }

  /** An absent response with no transport failure is reported as such, for every verb. */
  lemma NilResponseReported<V>(sent: Request, carried: bool, decoder: Option<seq<Byte> -> Decoded<V>>)
    ensures Expected(sent, Delivered(None), carried, decoder) == Effect(Some(NilResponse), None, None)
  {
  }

  // ---- frames of the caller-owned objects ----

  function CarrierFrame(carrier: Option<HeaderCarrier>): (frame: set<object>)
  {
    if carrier.Some? then {carrier.value} else {}
  }

  function SinkFrame<V>(sink: Option<Sink<V>>): (frame: set<object>)
  {
    if sink.Some? then {sink.value.target} else {}
  }

  function StreamFrame(stream: Option<Body>): (frame: set<object>)
  {
    if stream.Some? then {stream.value} else {}
  }

  function Carried(carrier: Option<HeaderCarrier>): (header: Option<Header>)
    reads CarrierFrame(carrier)
  {
    if carrier.Some? then Some(carrier.value.header) else None
  }

  function DecoderOf<V>(sink: Option<Sink<V>>): (decoder: Option<seq<Byte> -> Decoded<V>>)
  {
    if sink.Some? then Some(sink.value.decode) else None
  }

  // ---- the imperative executor ----

  /** The response handed back by the transport step, with its open body. */
  datatype Opened = Opened(status: int, header: Header, body: Body)

  function Observed(resp: Option<Opened>, err: Option<Error>): (d: DoResult)
  {
    if err.Some? then Failed(err.value)
    else if resp.Some? then Returned(Some(Response(resp.value.status, resp.value.header, resp.value.body.data)))
    else Returned(None)
  }

  /** Runs the request through the transport. A success response comes back
      with its body unread and open; for any other status the body is read
      to the end and closed before the classified error is returned. */
  method Do(c: Client, r: Request) returns (resp: Option<Opened>, err: Option<Error>, ghost stream: Option<Body>)
    ensures !(resp.Some? && err.Some?)
    ensures Observed(resp, err) == DoSpec(r, c.httpClient(r))
    ensures stream.Some? <==> c.httpClient(r).Delivered? && c.httpClient(r).response.Some?
    ensures resp.Some? ==> stream == Some(resp.value.body)
    ensures stream.Some? ==>
      && fresh(stream.value) && stream.value.Valid()
      && stream.value.data == c.httpClient(r).response.value.body
      && (resp.Some? ==> !stream.value.closed && stream.value.cursor == 0)
      && (resp.None? ==> stream.value.closed && stream.value.Unread() == [])
  {
    var x := c.httpClient(r);
    match x
    case TransportFailure(cause) =>
      resp, err, stream := None, Some(Transport(r.verb, r.url, cause)), None;
    case Delivered(None) =>
      resp, err, stream := None, None, None;
    case Delivered(Some(response)) =>
      var body := new Body(response.body);
      stream := Some(body);
      if IsSuccess(response.status) {
        resp, err := Some(Opened(response.status, response.header, body)), None;
      } else {
        var b := body.ReadAll();
        body.Close();
        resp, err := None, Some(ClassifyFailure(response.status, b));
      }
  }

  /** The contract of handling one exchange: the error, the carrier, the
      target and the body stream after the call, for the request sent. */
  twostate predicate Handled<V>(c: Client, sent: Request, sink: Option<Sink<V>>, carrier: Option<HeaderCarrier>,
                                new err: Option<Error>, new stream: Option<Body>)
    reads CarrierFrame(carrier), SinkFrame(sink), StreamFrame(stream)
  {
    var x := c.httpClient(sent);
    var e := Expected(sent, x, carrier.Some?, DecoderOf(sink));
    && err == e.err
    && (carrier.Some? ==>
          carrier.value.header == if e.header.Some? then e.header.value else old(carrier.value.header))
    && (sink.Some? ==>
          sink.value.target.value == if e.decoded.Some? then e.decoded.value else old(sink.value.target.value))
    && (stream.Some? <==> x.Delivered? && x.response.Some?)
    && (stream.Some? ==>
          var b := stream.value;
          && b.Valid() && b.closed && b.data == x.response.value.body
          && if sink.Some? && IsSuccess(x.response.value.status)
             then b.cursor == Min(sink.value.decode(b.data).consumed, |b.data|)
             else b.Unread() == [])
  }

  /** Sends the request with the carrier's headers, then on success copies
      the response headers into the carrier and either drains the body or
      decodes it into the target; the body is closed on every path. */
  method DoRequest<V>(c: Client, r: Request, sink: Option<Sink<V>>, carrier: Option<HeaderCarrier>)
    returns (err: Option<Error>, ghost stream: Option<Body>)
    modifies CarrierFrame(carrier), SinkFrame(sink)
    ensures Handled(c, WithCarriedHeader(r, old(Carried(carrier))), sink, carrier, err, stream)
    ensures stream.Some? ==> fresh(stream.value)
  {
    var req := r;
    if carrier.Some? {
      req := req.(header := carrier.value.header);
    }

    var resp, e, s := Do(c, req);
    stream := s;
    if e.Some? {
      return e, stream;
    }
    if resp.None? {
      return Some(NilResponse), stream;
    }

    var body := resp.value.body;
    if carrier.Some? {
      carrier.value.header := resp.value.header;
    }

    if sink.None? {
      body.Drain();
      body.Close();
      return None, stream;
    }

    var d := sink.value.decode(body.Unread());
    var buf := body.Read(d.consumed);
    body.Close();
    match d.result
    case Parsed(v) =>
      sink.value.target.value := v;
      err := None;
    case Malformed(cause) =>
      err := Some(Decode(req.verb, req.url, buf, cause));
  }

  /** The contract of a whole call through one of the verb entry points. */
  twostate predicate Performed<V>(c: Client, verb: Method, apiURL: string, payload: Option<seq<Byte>>,
                                  sink: Option<Sink<V>>, carrier: Option<HeaderCarrier>,
                                  parse: string -> ParsedURL, new err: Option<Error>, new stream: Option<Body>)
    reads CarrierFrame(carrier), SinkFrame(sink), StreamFrame(stream)
  {
    match NewRequest(verb, apiURL, payload, parse)
    case Err(cause) =>
      && err == Some(Construction(verb, cause)) && stream.None?
      && (carrier.Some? ==> carrier.value.header == old(carrier.value.header))
      && (sink.Some? ==> sink.value.target.value == old(sink.value.target.value))
    case Ok(req) =>
      Handled(c, WithCarriedHeader(req, old(Carried(carrier))), sink, carrier, err, stream)
  }

  /** A call's observable contract is the one CallSpec gives: its error, the
      carrier's headers and the target's value. */
  twostate lemma PerformedIsCallSpec<V>(c: Client, verb: Method, apiURL: string, payload: Option<seq<Byte>>,
                                        sink: Option<Sink<V>>, carrier: Option<HeaderCarrier>,
                                        parse: string -> ParsedURL, new err: Option<Error>, new stream: Option<Body>)
    requires Performed(c, verb, apiURL, payload, sink, carrier, parse, err, stream)
    ensures var e := CallSpec(c, verb, apiURL, payload, old(Carried(carrier)), DecoderOf(sink), parse);
            && err == e.err
            && (carrier.Some? ==>
                  carrier.value.header == if e.header.Some? then e.header.value else old(carrier.value.header))
            && (sink.Some? ==>
                  sink.value.target.value == if e.decoded.Some? then e.decoded.value else old(sink.value.target.value))
  {
  }

  /** Builds the request for `verb` and runs it; a construction failure names the verb. */
  method Execute<V>(c: Client, verb: Method, apiURL: string, payload: Option<seq<Byte>>,
                    sink: Option<Sink<V>>, carrier: Option<HeaderCarrier>, parse: string -> ParsedURL)
    returns (err: Option<Error>, ghost stream: Option<Body>)
    modifies CarrierFrame(carrier), SinkFrame(sink)
    ensures Performed(c, verb, apiURL, payload, sink, carrier, parse, err, stream)
    ensures stream.Some? ==> fresh(stream.value)
  {
    var req := NewRequest(verb, apiURL, payload, parse);
    if req.Err? {
      return Some(Construction(verb, req.error)), None;
    }
    err, stream := DoRequest(c, req.value, sink, carrier);
  }

  /** HEAD: sends the payload, never decodes. */
  method Head(c: Client, apiURL: string, payload: Option<seq<Byte>>, carrier: Option<HeaderCarrier>,
              parse: string -> ParsedURL)
    returns (err: Option<Error>, ghost stream: Option<Body>)
    modifies CarrierFrame(carrier)
    ensures Performed<bool>(c, MethodHead, apiURL, payload, None, carrier, parse, err, stream)
    ensures stream.Some? ==> fresh(stream.value)
  {
    err, stream := Execute<bool>(c, MethodHead, apiURL, payload, None, carrier, parse);
  }

  /** GET: never sends a body. */
  method Get<V>(c: Client, apiURL: string, sink: Option<Sink<V>>, carrier: Option<HeaderCarrier>,
                parse: string -> ParsedURL)
    returns (err: Option<Error>, ghost stream: Option<Body>)
    modifies CarrierFrame(carrier), SinkFrame(sink)
    ensures Performed(c, MethodGet, apiURL, None, sink, carrier, parse, err, stream)
    ensures stream.Some? ==> fresh(stream.value)
  {
    err, stream := Execute(c, MethodGet, apiURL, None, sink, carrier, parse);
  }

  method Post<V>(c: Client, apiURL: string, payload: Option<seq<Byte>>, sink: Option<Sink<V>>,
                 carrier: Option<HeaderCarrier>, parse: string -> ParsedURL)
    returns (err: Option<Error>, ghost stream: Option<Body>)
    modifies CarrierFrame(carrier), SinkFrame(sink)
    ensures Performed(c, MethodPost, apiURL, payload, sink, carrier, parse, err, stream)
    ensures stream.Some? ==> fresh(stream.value)
  {
    err, stream := Execute(c, MethodPost, apiURL, payload, sink, carrier, parse);
  }

  method Put<V>(c: Client, apiURL: string, payload: Option<seq<Byte>>, sink: Option<Sink<V>>,
                carrier: Option<HeaderCarrier>, parse: string -> ParsedURL)
    returns (err: Option<Error>, ghost stream: Option<Body>)
    modifies CarrierFrame(carrier), SinkFrame(sink)
    ensures Performed(c, MethodPut, apiURL, payload, sink, carrier, parse, err, stream)
    ensures stream.Some? ==> fresh(stream.value)
  {
    err, stream := Execute(c, MethodPut, apiURL, payload, sink, carrier, parse);
  }

  method Patch<V>(c: Client, apiURL: string, payload: Option<seq<Byte>>, sink: Option<Sink<V>>,
                  carrier: Option<HeaderCarrier>, parse: string -> ParsedURL)
    returns (err: Option<Error>, ghost stream: Option<Body>)
    modifies CarrierFrame(carrier), SinkFrame(sink)
    ensures Performed(c, MethodPatch, apiURL, payload, sink, carrier, parse, err, stream)
    ensures stream.Some? ==> fresh(stream.value)
  {
    err, stream := Execute(c, MethodPatch, apiURL, payload, sink, carrier, parse);
  }

  method Delete<V>(c: Client, apiURL: string, payload: Option<seq<Byte>>, sink: Option<Sink<V>>,
                   carrier: Option<HeaderCarrier>, parse: string -> ParsedURL)
    returns (err: Option<Error>, ghost stream: Option<Body>)
    modifies CarrierFrame(carrier), SinkFrame(sink)
    ensures Performed(c, MethodDelete, apiURL, payload, sink, carrier, parse, err, stream)
    ensures stream.Some? ==> fresh(stream.value)
  {
    err, stream := Execute(c, MethodDelete, apiURL, payload, sink, carrier, parse);
  }
}
