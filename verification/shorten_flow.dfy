/** The chat client and the API route put together: the call `handleShorten`
    makes becomes the route's JSON body, and the route's answer becomes the
    call's outcome the way the `shortenUrl` service helper turns a response
    into a resolved short URL or a thrown error. */
module ShortenFlow {
  import opened Optional
  import opened JsString
  import opened Scheme
  import ShortenRoute
  import ChatInterface

  const FallbackError: string := "Network response was not ok"

  /** `JSON.stringify({ longUrl, customDomain, customAlias })`: the client
      always sends all three fields as strings, possibly empty. */
  function RouteRequest(call: ChatInterface.ShortenCall): (req: ShortenRoute.ShortenRequest)
  {
    ShortenRoute.ShortenRequest(Some(call.longUrl), Some(call.customDomain), Some(call.customAlias))
  }

  /** `shortenUrl`'s reading of a response: an OK answer resolves to its
      `shortUrl`; an error answer throws its `error` text, or a fixed message
      when that text is empty. */
  function ClientOutcome(resp: ShortenRoute.Response): (o: ChatInterface.CallOutcome)
    ensures o.Resolved? <==> resp.Shortened?
    ensures resp.Shortened? ==> o.shortUrl == resp.shortUrl
    ensures resp.Failed? ==> o.reason != ""
  {
    match resp
    case Shortened(shortUrl, _) => ChatInterface.Resolved(shortUrl)
    case Failed(_, error) => ChatInterface.Rejected(if error != "" then error else FallbackError)
  }

  /** Whatever the user typed, a call the client actually makes always gets
      past the route's "URL is required" check. */
  lemma ClientCallsPassPresenceCheck(s: ChatInterface.ChatState, ctx: ShortenRoute.RequestContext)
    requires ChatInterface.CanSubmit(s)
    ensures ShortenRoute.Post(RouteRequest(ChatInterface.Submit(s).value.call), ctx).Shortened?
  {
    var url := ChatInterface.Submit(s).value.call.longUrl;
    HasSchemeShape(url);
    assert ShortenRoute.IsTruthy(RouteRequest(ChatInterface.Submit(s).value.call).longUrl);
  }

  /** A submission that gets past the guard, answered by the route, appends
      exactly one message whose short URL starts with a scheme and ends in
      "/" followed by the ID the route chose; with a non-blank alias that ID
      is the trimmed alias, and with a blank domain the short URL is built
      on the request's own origin. */
  lemma SubmitThroughRoute(s: ChatInterface.ChatState, ctx: ShortenRoute.RequestContext,
                           clock: ChatInterface.Clock)
    requires ChatInterface.CanSubmit(s)
    ensures var resp := ShortenRoute.Post(RouteRequest(ChatInterface.Submit(s).value.call), ctx);
            var next := ChatInterface.HandleShorten(s, ClientOutcome(resp), clock).next;
            && resp.Shortened?
            && |next.messages| == |s.messages| + 1
            && next.messages[|s.messages|].shortUrl == resp.shortUrl
            && HasScheme(next.messages[|s.messages|].shortUrl)
            && EndsWith(next.messages[|s.messages|].shortUrl, "/" + resp.id)
            && (Trim(s.customAlias) != "" ==> resp.id == Trim(s.customAlias))
            && (Trim(s.customDomain) == "" ==>
                  resp.shortUrl == ShortenRoute.DefaultOrigin(ctx.nodeEnv, ctx.host) + "/" + resp.id)
  {
    ClientCallsPassPresenceCheck(s, ctx);
  }
}
