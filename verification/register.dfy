/** `POST /api/auth/register`: the auth rate limit, the registration schema,
    a refusal for a taken email, then a user with the hashed password. The
    hash is the input `hash`; the store supplies the new id. */
module Register {
  import opened Common
  import opened Store
  import opened Http
  import opened RateLimit
  import opened Validation

  const RegistrationFailed: Response := Fail(500, "An error occurred during registration")
  const EmailTaken: Response := Fail(400, "User with this email already exists")

  predicate EmailInUse(s: State, email: string) {
    exists u :: u in s.users && s.users[u].email == email
  }

  function Post(s: State, req: Request, allowed: string -> bool, f: Formats, hash: string -> string,
                newId: Id): (out: Outcome)
    ensures !allowed(Identifier(AuthLimit, req)) ==> out == Outcome(s, TooManyRequests)
    ensures allowed(Identifier(AuthLimit, req)) && req.body.MalformedBody? ==> out == Outcome(s, RegistrationFailed)
    ensures allowed(Identifier(AuthLimit, req)) && req.body.JsonBody? ==>
      var p := ParseRegister(f, req.body.json);
      && (p.Rejected? ==> out == Outcome(s, Fail(400, p.issues[0])))
      && (p.Parsed? && EmailInUse(s, p.data.email) ==> out == Outcome(s, EmailTaken))
      && (p.Parsed? && !EmailInUse(s, p.data.email) ==>
            (out.response.status == 201 <==> newId !in s.users)
            && (newId in s.users ==> out == Outcome(s, RegistrationFailed)))
    ensures out.response.status != 201 ==> out.state == s
    ensures out.response.status == 201 ==>
      && req.body.JsonBody? && ParseRegister(f, req.body.json).Parsed?
      && var d := ParseRegister(f, req.body.json).data;
      && !EmailInUse(s, d.email) && newId !in s.users
      && out.state == s.(users := s.users[newId := User(d.name, d.email, Some(hash(d.password)))])
      && out.response.body == UserBody(newId, d.name, d.email, "User created successfully")
  {
    var limited := RateLimit.Check(AuthLimit, req, allowed);
    if limited.Some? then Outcome(s, limited.value)
    else if req.body.MalformedBody? then Outcome(s, RegistrationFailed)
    else
      var v := ValidateRequest(ParseRegister(f, req.body.json));
      if !v.success then
        FirstIssueReported(f, req.body.json, RegisterShape);
        Outcome(s, Fail(400, v.error.value))
      else
        var d := v.data.value;
        if EmailInUse(s, d.email) then Outcome(s, EmailTaken)
        else if newId in s.users then Outcome(s, RegistrationFailed)
        else
          var user := User(d.name, d.email, Some(hash(d.password)));
          Outcome(s.(users := s.users[newId := user]), Response(201, UserBody(newId, user.name, user.email, "User created successfully")))
  }

  /** Under sequential registrations emails stay unique: the new user's
      address was in no existing row. */
  lemma PostKeepsEmailsUnique(s: State, req: Request, allowed: string -> bool, f: Formats, hash: string -> string,
                              newId: Id)
    requires EmailsUnique(s)
    ensures EmailsUnique(Post(s, req, allowed, f, hash, newId).state)
  {
  }

  /** The 201 answer echoes the stored user's id, name and email, and the
      stored password is the hash of the submitted one, never the text
      itself unless the hash returns it. */
  lemma CreatedAnswerMatchesStore(s: State, req: Request, allowed: string -> bool, f: Formats, hash: string -> string,
                                  newId: Id)
    requires Post(s, req, allowed, f, hash, newId).response.status == 201
    ensures var out := Post(s, req, allowed, f, hash, newId);
      var body := out.response.body;
      && body.UserBody? && body.id in out.state.users
      && out.state.users[body.id].name == body.name
      && out.state.users[body.id].email == body.email
      && out.state.users[body.id].password == Some(hash(ParseRegister(f, req.body.json).data.password))
  {
  }

  /** Registering the same details again is refused and changes nothing. */
  lemma SecondRegistrationRefused(s: State, req: Request, allowed: string -> bool, f: Formats, hash: string -> string,
                                  newId: Id, otherId: Id)
    requires Post(s, req, allowed, f, hash, newId).response.status == 201
    ensures var s' := Post(s, req, allowed, f, hash, newId).state;
      Post(s', req, allowed, f, hash, otherId) == Outcome(s', EmailTaken)
  {
    var s' := Post(s, req, allowed, f, hash, newId).state;
    var d := ParseRegister(f, req.body.json).data;
    assert s'.users[newId].email == d.email;
  }

  lemma PostKeepsValid(s: State, req: Request, allowed: string -> bool, f: Formats, hash: string -> string, newId: Id)
    requires Valid(s)
    ensures Valid(Post(s, req, allowed, f, hash, newId).state)
    ensures SnapshotsKept(s, Post(s, req, allowed, f, hash, newId).state)
  {
    PostKeepsEmailsUnique(s, req, allowed, f, hash, newId);
  }
}
