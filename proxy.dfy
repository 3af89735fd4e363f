/** The forwarding decisions of the proxy: which headers cross the proxy,
    which method is replayed, and what `handle_request` answers for each
    outcome of routing, body reading, parsing and the upstream exchange. The
    network is outside the model: the request body as read, the JSON decoder
    and the upstream exchange are parameters. */
module Proxy {
  import opened Common
  import opened Json
  import opened Event
  import opened Config
  import opened Parser

  // ---------------------------------------------------------------------------
  // Methods (`method_to_reqwest`)
  // ---------------------------------------------------------------------------

  /** An HTTP method as the server parsed it; `Extension` is any other token. */
  datatype Method = GET | POST | PUT | DELETE | PATCH | HEAD | OPTIONS | CONNECT | TRACE | Extension(token: string)

  predicate IsMapped(m: Method) {
    m.GET? || m.POST? || m.PUT? || m.DELETE? || m.PATCH? || m.HEAD? || m.OPTIONS?
  }

  /** The method replayed upstream: the seven common methods map to
      themselves, every other method to GET. */
  function MethodToReqwest(m: Method): (r: Method)
    ensures IsMapped(r)
    ensures IsMapped(m) ==> r == m
    ensures !IsMapped(m) ==> r == GET
  {
    match m
    case GET => GET
    case POST => POST
    case PUT => PUT
    case DELETE => DELETE
    case PATCH => PATCH
    case HEAD => HEAD
    case OPTIONS => OPTIONS
    case _ => GET
  }

  // ---------------------------------------------------------------------------
  // Headers
  // ---------------------------------------------------------------------------

  /** A header as received: its name and its raw value bytes. */
  datatype Header = Header(name: string, value: seq<byte>)

  /** A header as sent on: name and value as text. */
  datatype TextHeader = TextHeader(name: string, value: string)

  const HopByHopNames: set<string> :=
    {"connection", "keep-alive", "proxy-authenticate", "proxy-authorization", "te",
     "trailers", "transfer-encoding", "upgrade", "host"}

  /** `is_hop_by_hop_header`, on an already lower-cased name. */
  function IsHopByHop(name: string): (r: bool)
    ensures r <==> name in HopByHopNames
  {
    match name
    case "connection" => true
    case "keep-alive" => true
    case "proxy-authenticate" => true
    case "proxy-authorization" => true
    case "te" => true
    case "trailers" => true
    case "transfer-encoding" => true
    case "upgrade" => true
    case "host" => true
    case _ => false
  }

  /** `HeaderValue::to_str`: the value as text when every byte is visible
      ASCII or a tab, otherwise nothing. */
  function ValueText(value: seq<byte>): (r: Option<string>)
    ensures r.Some? <==> forall i :: 0 <= i < |value| ==> IsVisible(value[i])
    ensures r.Some? ==> |r.value| == |value| && forall i :: 0 <= i < |value| ==> r.value[i] as int == value[i]
  {
    if value == [] then Some("")
    else if !IsVisible(value[0]) then None
    else match ValueText(value[1..])
      case None => None
      case Some(rest) => Some([value[0] as char] + rest)
  }

  predicate IsVisible(b: byte) { (32 <= b < 127) || b == 9 }

  /** Whether a header crosses the proxy: its lower-cased name is not
      hop-by-hop (nor `content-encoding`, on the way back) and its value is text. */
  predicate Forwardable(h: Header, response: bool) {
    var lower := ToLower(h.name);
    !IsHopByHop(lower) && !(response && lower == "content-encoding") && ValueText(h.value).Some?
  }

  /** What one header contributes to the forwarded list. */
  function Kept(h: Header, response: bool): (r: seq<TextHeader>)
    ensures |r| <= 1
    ensures r != [] <==> Forwardable(h, response)
    ensures r != [] ==> r[0] == TextHeader(h.name, ValueText(h.value).value)
  {
    if Forwardable(h, response) then [TextHeader(h.name, ValueText(h.value).value)] else []
  }

  /** The headers that cross the proxy, in their original order. */
  function Forwarded(hs: seq<Header>, response: bool): seq<TextHeader>
  {
    if hs == [] then [] else Kept(hs[0], response) + Forwarded(hs[1..], response)
  }

  /** Filtering distributes over concatenation, and a single header is kept
      exactly when it is forwardable: so order is preserved and nothing but
      hop-by-hop, non-text and (on responses) `content-encoding` headers is
      dropped. */
  lemma {:induction false} ForwardedConcat(a: seq<Header>, b: seq<Header>, response: bool)
    ensures Forwarded(a + b, response) == Forwarded(a, response) + Forwarded(b, response)
  {
    if a == [] {
      assert a + b == b;
    } else {
      assert (a + b)[1..] == a[1..] + b;
      assert (a + b)[0] == a[0];
      ForwardedConcat(a[1..], b, response);
      calc {
        Forwarded(a + b, response);
        Kept(a[0], response) + Forwarded(a[1..] + b, response);
        Kept(a[0], response) + (Forwarded(a[1..], response) + Forwarded(b, response));
        (Kept(a[0], response) + Forwarded(a[1..], response)) + Forwarded(b, response);
      }
    }
  }

  lemma ForwardedSingle(h: Header, response: bool)
    ensures Forwarded([h], response) ==
              if Forwardable(h, response) then [TextHeader(h.name, ValueText(h.value).value)] else []
  {
    assert [h][1..] == [];
    assert Forwarded([h], response) == Kept(h, response) + [];
  }

  /** No forwarded header is hop-by-hop, whatever the case of its name; no
      forwarded response header is `content-encoding`. */
  lemma {:induction false} ForwardedClean(hs: seq<Header>, response: bool)
    ensures forall k :: 0 <= k < |Forwarded(hs, response)| ==>
              !IsHopByHop(ToLower(Forwarded(hs, response)[k].name))
              && (response ==> ToLower(Forwarded(hs, response)[k].name) != "content-encoding")
  {
    if hs != [] {
      ForwardedClean(hs[1..], response);
    }
  }

  /** Every forwardable header is forwarded. */
  lemma {:induction false} ForwardedComplete(hs: seq<Header>, response: bool, i: nat)
    requires i < |hs| && Forwardable(hs[i], response)
    ensures TextHeader(hs[i].name, ValueText(hs[i].value).value) in Forwarded(hs, response)
  {
    if i > 0 {
      assert hs[1..][i - 1] == hs[i];
      ForwardedComplete(hs[1..], response, i - 1);
    }
  }

  /** On the same header list, the response filter keeps no more headers
      than the request filter: it drops everything the request filter drops,
      and `content-encoding` besides. */
  lemma {:induction false} ResponseFilterStricter(hs: seq<Header>)
    ensures |Forwarded(hs, true)| <= |Forwarded(hs, false)|
  {
    if hs != [] {
      ResponseFilterStricter(hs[1..]);
    }
  }

  /** The header-copy loop of the outbound request. */
  method CopyRequestHeaders(hs: seq<Header>) returns (out: seq<TextHeader>)
    ensures out == Forwarded(hs, false)
  {
    out := [];
    for i := 0 to |hs|
      invariant out == Forwarded(hs[..i], false)
    {
      var lower := ToLower(hs[i].name);
      if !IsHopByHop(lower) {
        var text := ValueText(hs[i].value);
        if text.Some? {
          out := out + [TextHeader(hs[i].name, text.value)];
        }
      }
      assert hs[..i + 1] == hs[..i] + [hs[i]];
      ForwardedConcat(hs[..i], [hs[i]], false);
      ForwardedSingle(hs[i], false);
    }
    assert hs[..|hs|] == hs;
  }

  /** The header-copy loop of the response to the client. */
  method CopyResponseHeaders(hs: seq<Header>) returns (out: seq<TextHeader>)
    ensures out == Forwarded(hs, true)
  {
    out := [];
    for i := 0 to |hs|
      invariant out == Forwarded(hs[..i], true)
    {
      var lower := ToLower(hs[i].name);
      if !IsHopByHop(lower) && lower != "content-encoding" {
        var text := ValueText(hs[i].value);
        if text.Some? {
          out := out + [TextHeader(hs[i].name, text.value)];
        }
      }
      assert hs[..i + 1] == hs[..i] + [hs[i]];
      ForwardedConcat(hs[..i], [hs[i]], true);
      ForwardedSingle(hs[i], true);
    }
    assert hs[..|hs|] == hs;
  }

  // ---------------------------------------------------------------------------
  // `handle_request`
  // ---------------------------------------------------------------------------

  datatype Body = Text(text: string) | Bytes(bytes: seq<byte>)

  datatype Response = Response(status: nat, headers: seq<TextHeader>, body: Body)

  /** The request replayed to the vendor. */
  datatype Outbound = Outbound(httpMethod: Method, url: string, headers: seq<TextHeader>, body: seq<byte>)

  /** How the upstream exchange ended: the send failed (with the error's
      text), the response body could not be read, or a full response came back. */
  datatype Upstream =
    | SendFailed(error: string)
    | ReadFailed
    | Received(status: nat, headers: seq<Header>, body: seq<byte>)

  /** `uri.path_and_query()`, or "/" when the URI has none. */
  function RequestPath(pathAndQuery: Option<string>): string
  {
    if pathAndQuery.Some? then pathAndQuery.value else "/"
  }

  /** The answer given to the client once the upstream exchange has ended. */
  function Relay(result: Upstream): (r: Response)
    ensures result.SendFailed? ==> r.status == 502 && r.body == Text("Upstream error: " + result.error)
    ensures result.ReadFailed? ==> r.status == 502
    ensures !result.Received? ==> r.headers == []
    ensures result.Received? ==> r.status == result.status && r.body == Bytes(result.body)
                                 && r.headers == Forwarded(result.headers, true)
  {
    match result
    case SendFailed(e) => Response(502, [], Text("Upstream error: " + e))
    case ReadFailed => Response(502, [], Text("Failed to read upstream response"))
    case Received(status, headers, body) => Response(status, Forwarded(headers, true), Bytes(body))
  }

  /** One request through the proxy.
      `bodyRead` is the collected request body (`None` when reading failed),
      `decode` stands for JSON decoding, `send` for the upstream exchange,
      `queueFull` for a full event queue; `now` is the capture time.
      Returns the response, the event offered to the queue (if any), whether
      the queue took it, the routed provider, and the request replayed upstream
      (if any). */
  method HandleRequest(
    httpMethod: Method, pathAndQuery: Option<string>, headers: seq<Header>,
    providers: map<string, ProviderConfig>, bodyRead: Option<seq<byte>>,
    decode: seq<byte> -> Option<Json>, now: Timestamp, countTokens: string -> nat,
    queueFull: bool, send: Outbound -> Upstream)
    returns (response: Response, event: Option<RequestEvent>, delivered: bool,
             provider: Option<string>, outbound: Option<Outbound>)
    // routing
    ensures provider.Some? ==> provider.value in providers
                               && Contains(RequestPath(pathAndQuery), providers[provider.value].pathPattern)
    ensures provider.None? <==>
              forall name :: name in providers ==> !Contains(RequestPath(pathAndQuery), providers[name].pathPattern)
    ensures provider.None? ==> response == Response(400, [], Text("Unknown provider"))
    // body read failure
    ensures provider.Some? && bodyRead.None? ==> response == Response(400, [], Text("Failed to read request body"))
    // forwarding happens exactly when routing and reading succeeded
    ensures outbound.Some? <==> provider.Some? && bodyRead.Some?
    ensures outbound.Some? ==>
              outbound.value == Outbound(MethodToReqwest(httpMethod),
                                         providers[provider.value].baseUrl + RequestPath(pathAndQuery),
                                         Forwarded(headers, false), bodyRead.value)
              && response == Relay(send(outbound.value))
    // telemetry
    ensures event.Some? <==> outbound.Some? && |bodyRead.value| > 0 && decode(bodyRead.value).Some?
    ensures event.Some? ==>
              event.value == NormalizedEvent(decode(bodyRead.value).value, RequestPath(pathAndQuery),
                                             provider.value, now, countTokens)
    ensures delivered <==> event.Some? && !queueFull
  {
    event, delivered, outbound := None, false, None;
    var path := RequestPath(pathAndQuery);
    provider := DetectProvider(path, providers);
    if provider.None? {
      response := Response(400, [], Text("Unknown provider"));
      return;
    }
    var config := providers[provider.value];
    if bodyRead.None? {
      response := Response(400, [], Text("Failed to read request body"));
      return;
    }
    var bytes := bodyRead.value;
    if |bytes| > 0 {
      event := ParseRequest(bytes, decode, path, provider.value, now, countTokens);
      // `try_send`: a full queue drops the event and only logs.
      delivered := event.Some? && !queueFull;
    }
    var forwarded := CopyRequestHeaders(headers);
    var request := Outbound(MethodToReqwest(httpMethod), config.baseUrl + path, forwarded, bytes);
    outbound := Some(request);
    var result := send(request);
    match result {
      case SendFailed(e) =>
        response := Response(502, [], Text("Upstream error: " + e));
      case ReadFailed =>
        response := Response(502, [], Text("Failed to read upstream response"));
      case Received(status, respHeaders, respBody) =>
        var copied := CopyResponseHeaders(respHeaders);
        response := Response(status, copied, Bytes(respBody));
    }
  }
}
