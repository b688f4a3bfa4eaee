/** The rate-limit middleware: derives a client address from the proxy
    headers, keys the limiter by `kind:address`, and turns a refusal into 429.
    The limiter itself (a sliding window in a remote store) is the input
    `allowed`, its verdict for an identifier. */
module RateLimit {
  import opened Common
  import opened Http

  datatype LimitKind = AuthLimit | ApiLimit | BookingLimit | NewsletterLimit | WebhookLimit

  function KindName(k: LimitKind): (name: string)
    ensures name != "" && ':' !in name
  {
    match k
    case AuthLimit => "auth"
    case ApiLimit => "api"
    case BookingLimit => "booking"
    case NewsletterLimit => "newsletter"
    case WebhookLimit => "webhook"
  }

  /** The client address: the first entry of a non-empty `x-forwarded-for`,
      otherwise a non-empty `x-real-ip`, otherwise "unknown". */
  function ClientIp(req: Request): (ip: string)
    ensures Present(Header(req, "x-forwarded-for")) ==>
      var fwd := Header(req, "x-forwarded-for").value;
      ip <= fwd && ',' !in ip && (|ip| < |fwd| ==> fwd[|ip|] == ',')
    ensures !Present(Header(req, "x-forwarded-for")) && Present(Header(req, "x-real-ip")) ==>
      ip == Header(req, "x-real-ip").value
    ensures !Present(Header(req, "x-forwarded-for")) && !Present(Header(req, "x-real-ip")) ==>
      ip == "unknown"
  {
    var forwarded := Header(req, "x-forwarded-for");
    if Present(forwarded) then TakeUntil(forwarded.value, ',')
    else
      var realIp := Header(req, "x-real-ip");
      if Present(realIp) then realIp.value else "unknown"
  }

  function Identifier(k: LimitKind, req: Request): string {
    KindName(k) + ":" + ClientIp(req)
  }

  /** The identifier splits back into its kind and address at its first ':'
      (an IPv6 address may hold further colons), so limiter buckets of
      different kinds or addresses never collide. */
  lemma IdentifierSplits(k: LimitKind, req: Request)
    ensures TakeUntil(Identifier(k, req), ':') == KindName(k)
    ensures Identifier(k, req)[|KindName(k)| + 1..] == ClientIp(req)
  {
    var name, id := KindName(k), Identifier(k, req);
    assert id[..|name|] == name;
    assert id[|name|] == ':';
    TakeUntilUnique(id, ':', name);
  }

  lemma IdentifierInjective(k1: LimitKind, r1: Request, k2: LimitKind, r2: Request)
    requires Identifier(k1, r1) == Identifier(k2, r2)
    ensures k1 == k2 && ClientIp(r1) == ClientIp(r2)
  {
    IdentifierSplits(k1, r1);
    IdentifierSplits(k2, r2);
    assert KindName(k1) == KindName(k2);
  }

  const TooManyRequests: Response := Fail(429, "Too many requests")

  /** The middleware: None (null) lets the request through. */
  function Check(k: LimitKind, req: Request, allowed: string -> bool): (r: Option<Response>)
    ensures r.None? <==> allowed(KindName(k) + ":" + ClientIp(req))
    ensures r.Some? ==> r.value == TooManyRequests
  {
    if allowed(Identifier(k, req)) then None else Some(TooManyRequests)
  }
}
