/** `POST /api/newsletter/subscribe`: the newsletter rate limit, the email
    schema, then an insert into the subscriber set unless the address is
    already there. */
module Newsletter {
  import opened Common
  import opened Store
  import opened Http
  import opened RateLimit
  import opened Validation

  const ServerError: Response := Fail(500, "Internal Server Error")
  const AlreadySubscribed: Response := Response(200, MessageBody("Already subscribed"))
  const Subscribed: Response := Response(201, MessageBody("Successfully subscribed"))

  function Post(s: State, req: Request, allowed: string -> bool, f: Formats): (out: Outcome)
    ensures !allowed(Identifier(NewsletterLimit, req)) ==> out == Outcome(s, TooManyRequests)
    ensures allowed(Identifier(NewsletterLimit, req)) && req.body.MalformedBody? ==> out == Outcome(s, ServerError)
    ensures allowed(Identifier(NewsletterLimit, req)) && req.body.JsonBody? ==>
      var p := ParseSubscribe(f, req.body.json);
      && (p.Rejected? ==> out == Outcome(s, Fail(400, p.issues[0])))
      && (p.Parsed? && p.data in s.subscribers ==> out == Outcome(s, AlreadySubscribed))
      && (p.Parsed? && p.data !in s.subscribers ==>
            out == Outcome(s.(subscribers := s.subscribers + {p.data}), Subscribed))
  {
    var limited := RateLimit.Check(NewsletterLimit, req, allowed);
    if limited.Some? then Outcome(s, limited.value)
    else if req.body.MalformedBody? then Outcome(s, ServerError)
    else
      var v := ValidateRequest(ParseSubscribe(f, req.body.json));
      if !v.success then
        FirstIssueReported(f, req.body.json, SubscribeShape);
        Outcome(s, Fail(400, v.error.value))
      else
        var email := v.data.value;
        if email in s.subscribers then Outcome(s, AlreadySubscribed)
        else Outcome(s.(subscribers := s.subscribers + {email}), Subscribed)
  }

  /** Subscribing grows the set by at most the one address and never drops
      one; only the subscriber set changes. */
  lemma PostOnlyAdds(s: State, req: Request, allowed: string -> bool, f: Formats)
    ensures var s' := Post(s, req, allowed, f).state;
      && s.subscribers <= s'.subscribers
      && |s'.subscribers - s.subscribers| <= 1
      && s' == s.(subscribers := s'.subscribers)
  {
    var s' := Post(s, req, allowed, f).state;
    if s' != s {
      var e := ParseSubscribe(f, req.body.json).data;
      assert s'.subscribers - s.subscribers == {e};
    }
  }

  /** Subscribing twice leaves the set subscribing once leaves, and the
      second answer is 'Already subscribed' once the first one added it. */
  lemma PostIdempotent(s: State, req: Request, allowed: string -> bool, f: Formats)
    requires allowed(Identifier(NewsletterLimit, req))
    ensures var once := Post(s, req, allowed, f);
      && Post(once.state, req, allowed, f).state == once.state
      && (once.response.status == 201 ==> Post(once.state, req, allowed, f).response == AlreadySubscribed)
  {
  }

  lemma PostKeepsValid(s: State, req: Request, allowed: string -> bool, f: Formats)
    requires Valid(s)
    ensures Valid(Post(s, req, allowed, f).state)
    ensures SnapshotsKept(s, Post(s, req, allowed, f).state)
  {
  }
}
