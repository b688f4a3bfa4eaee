/** The request schemas and `validateRequest`. A schema is an object shape:
    an ordered list of (key, rule) pairs. Parsing reports every issue in the
    order the validation library reports them (fields in shape order, checks
    of a field in declaration order; a value of the wrong type gives a single
    type issue), and `validateRequest` keeps the first. Email, UUID and URL
    syntax are left abstract in `Formats`. */
module Validation {
  import opened Common

  /** The format checks the schemas delegate to the validation library. */
  datatype Formats = Formats(isEmail: string -> bool, isUuid: string -> bool, isUrl: string -> bool)

  /** The parsed data, or the issues' messages in report order. */
  datatype Parse<T> = Parsed(data: T) | Rejected(issues: seq<string>)

  // ---------------------------------------------------------------------
  // Type issues

  function TypeName(j: Json): string {
    match j
    case JUndefined => "undefined"
    case JNull => "null"
    case JBool(_) => "boolean"
    case JInt(_) => "number"
    case JFrac(_) => "number"
    case JStr(_) => "string"
    case JArray => "array"
    case JObject(_) => "object"
  }

  /** The library's message for a value of the wrong type. */
  function TypeIssue(expected: string, j: Json): (m: string)
    ensures m != ""
    ensures j.JUndefined? ==> m == "Required"
    ensures !j.JUndefined? ==> m == "Expected " + expected + ", received " + TypeName(j)
  {
    if j.JUndefined? then "Required" else "Expected " + expected + ", received " + TypeName(j)
  }

  // ---------------------------------------------------------------------
  // Character classes of the regular expressions

  predicate IsUpper(c: char) { 'A' <= c <= 'Z' }

  predicate IsLower(c: char) { 'a' <= c <= 'z' }

  predicate IsDigit(c: char) { '0' <= c <= '9' }

  /** `\s` of JavaScript regular expressions. */
  predicate IsJsSpace(c: char) {
    var n := c as int;
    (9 <= n <= 13) || n == 32 || n == 0xA0 || n == 0x1680 || (0x2000 <= n <= 0x200A)
    || n == 0x2028 || n == 0x2029 || n == 0x202F || n == 0x205F || n == 0x3000 || n == 0xFEFF
  }

  datatype CharClass = Upper | Lower | Digit | NonAlnum | NameChar

  /** `[A-Z]`, `[a-z]`, `[0-9]`, `[^A-Za-z0-9]` and `[a-zA-Z\s-']`. */
  predicate InClass(c: char, k: CharClass) {
    match k
    case Upper => IsUpper(c)
    case Lower => IsLower(c)
    case Digit => IsDigit(c)
    case NonAlnum => !IsUpper(c) && !IsLower(c) && !IsDigit(c)
    case NameChar => IsUpper(c) || IsLower(c) || IsJsSpace(c) || c == '-' || c == '\''
  }

  /** The unanchored test `/[class]/.test(s)`, scanning left to right. */
  function Search(s: string, k: CharClass): (found: bool)
    ensures found <==> exists i :: 0 <= i < |s| && InClass(s[i], k)
  {
    if s == [] then false
    else if InClass(s[0], k) then true
    else
      var found := Search(s[1..], k);
      assert forall i :: 1 <= i < |s| ==> s[i] == s[1..][i - 1];
      found
  }

  /** The anchored test `/^[class]+$/.test(s)`. */
  function FullMatch(s: string, k: CharClass): (ok: bool)
    ensures ok <==> |s| > 0 && forall i :: 0 <= i < |s| ==> InClass(s[i], k)
  {
    if |s| == 0 then false
    else if !InClass(s[0], k) then false
    else if |s| == 1 then true
    else
      var ok := FullMatch(s[1..], k);
      assert forall i :: 1 <= i < |s| ==> s[i] == s[1..][i - 1];
      ok
  }

  // ---------------------------------------------------------------------
  // Field rules

  datatype Rule =
    | NameRule                      // register.name
    | EmailRule                     // register/login/newsletter email
    | StrongPasswordRule            // register.password
    | LoginPasswordRule             // login.password
    | UuidRule(field: IdField)      // activityId, slotId, bookingId
    | OrderIdRule                   // captureOrder.orderID
    | ParticipantsRule              // booking.participants

  datatype IdField = ActivityIdField | SlotIdField | BookingIdField

  function UuidMessage(field: IdField): string {
    match field
    case ActivityIdField => "Invalid activity ID"
    case SlotIdField => "Invalid slot ID"
    case BookingIdField => "Invalid booking ID"
  }

  /** One issue when the check fails, none when it holds. */
  function Check(ok: bool, message: string): seq<string> {
    if ok then [] else [message]
  }

  // ---------------------------------------------------------------------
  // What each rule accepts, stated directly, and the issues it reports

  /** 2 to 50 characters, each an ASCII letter, a whitespace, `-` or `'`. */
  predicate ValidName(s: string) {
    2 <= |s| <= 50 && forall i :: 0 <= i < |s| ==> InClass(s[i], NameChar)
  }

  predicate ValidEmail(f: Formats, s: string) {
    f.isEmail(s) && |s| <= 255
  }

  /** 12 to 128 characters with an upper-case letter, a lower-case letter, a
      digit and a character that is none of those. */
  predicate StrongPassword(s: string) {
    && 12 <= |s| <= 128
    && (exists i :: 0 <= i < |s| && IsUpper(s[i]))
    && (exists i :: 0 <= i < |s| && IsLower(s[i]))
    && (exists i :: 0 <= i < |s| && IsDigit(s[i]))
    && (exists i :: 0 <= i < |s| && !IsUpper(s[i]) && !IsLower(s[i]) && !IsDigit(s[i]))
  }

  function NameIssues(s: string): (r: seq<string>)
    ensures r == [] <==> ValidName(s)
    ensures r != [] ==> r[0] != ""
  {
    Check(|s| >= 2, "Name must be at least 2 characters")
    + Check(|s| <= 50, "Name must be less than 50 characters")
    + Check(FullMatch(s, NameChar), "Name can only contain letters, spaces, hyphens, and apostrophes")
  }

  function EmailIssues(f: Formats, s: string): (r: seq<string>)
    ensures r == [] <==> ValidEmail(f, s)
    ensures r != [] ==> r[0] != ""
  {
    Check(f.isEmail(s), "Invalid email address")
    + Check(|s| <= 255, "Email must be less than 255 characters")
  }

  function StrongPasswordIssues(s: string): (r: seq<string>)
    ensures r == [] <==> StrongPassword(s)
    ensures r != [] ==> r[0] != ""
  {
    var special := Search(s, NonAlnum);
    assert special <==> exists i :: 0 <= i < |s| && !IsUpper(s[i]) && !IsLower(s[i]) && !IsDigit(s[i]);
    Check(|s| >= 12, "Password must be at least 12 characters")
    + Check(|s| <= 128, "Password must be less than 128 characters")
    + Check(Search(s, Upper), "Password must contain at least one uppercase letter")
    + Check(Search(s, Lower), "Password must contain at least one lowercase letter")
    + Check(Search(s, Digit), "Password must contain at least one number")
    + Check(special, "Password must contain at least one special character")
  }

  function LoginPasswordIssues(s: string): (r: seq<string>)
    ensures r == [] <==> 1 <= |s| <= 128
    ensures r != [] ==> r[0] != ""
  {
    Check(|s| >= 1, "Password is required")
    + Check(|s| <= 128, "Password must be less than 128 characters")
  }

  /** The issues of the participants number: integer, at least 1, at most 20.
      A non-integer strictly between `floor` and `floor + 1` is at least 1
      exactly when `floor >= 1` and at most 20 exactly when `floor <= 19`. */
  function ParticipantsIssues(j: Json): (r: seq<string>)
    ensures r == [] <==> j.JInt? && 1 <= j.i <= 20
    ensures r != [] ==> r[0] != ""
    ensures j.JFrac? ==> r[0] == "Participants must be an integer"
    ensures j.JInt? && j.i < 1 ==> r == ["At least 1 participant is required"]
    ensures j.JInt? && j.i > 20 ==> r == ["Maximum 20 participants allowed"]
    ensures !j.JInt? && !j.JFrac? ==> r == [TypeIssue("number", j)]
  {
    match j
    case JInt(n) =>
      Check(n >= 1, "At least 1 participant is required")
      + Check(n <= 20, "Maximum 20 participants allowed")
    case JFrac(fl) =>
      ["Participants must be an integer"]
      + Check(fl >= 1, "At least 1 participant is required")
      + Check(fl <= 19, "Maximum 20 participants allowed")
    case _ => [TypeIssue("number", j)]
  }

  predicate Accepts(f: Formats, rule: Rule, j: Json) {
    match rule
    case ParticipantsRule => j.JInt? && 1 <= j.i <= 20
    case NameRule => j.JStr? && ValidName(j.s)
    case EmailRule => j.JStr? && ValidEmail(f, j.s)
    case StrongPasswordRule => j.JStr? && StrongPassword(j.s)
    case LoginPasswordRule => j.JStr? && 1 <= |j.s| <= 128
    case UuidRule(_) => j.JStr? && f.isUuid(j.s)
    case OrderIdRule => j.JStr? && |j.s| >= 1
  }

  /** The issues of one field value: checks in declaration order, or a
      single type issue for a value of the wrong type. A field has no issue
      exactly when its rule accepts it. */
  function FieldIssues(f: Formats, rule: Rule, j: Json): (r: seq<string>)
    ensures r == [] <==> Accepts(f, rule, j)
    ensures r != [] ==> r[0] != ""
  {
    if rule.ParticipantsRule? then ParticipantsIssues(j)
    else if !j.JStr? then [TypeIssue("string", j)]
    else
      match rule
      case NameRule => NameIssues(j.s)
      case EmailRule => EmailIssues(f, j.s)
      case StrongPasswordRule => StrongPasswordIssues(j.s)
      case LoginPasswordRule => LoginPasswordIssues(j.s)
      case UuidRule(field) => Check(f.isUuid(j.s), UuidMessage(field))
      case OrderIdRule => Check(|j.s| >= 1, "Order ID is required")
  }

  // ---------------------------------------------------------------------
  // Object shapes

  type Shape = seq<(string, Rule)>

  predicate FieldOk(f: Formats, body: Json, entry: (string, Rule)) {
    Accepts(f, entry.1, Get(body, entry.0))
  }

  predicate AcceptsFields(f: Formats, body: Json, shape: Shape) {
    forall k :: 0 <= k < |shape| ==> FieldOk(f, body, shape[k])
  }

  function EntryIssues(f: Formats, body: Json, entry: (string, Rule)): (r: seq<string>)
    ensures r == [] <==> FieldOk(f, body, entry)
    ensures r != [] ==> r[0] != ""
  {
    FieldIssues(f, entry.1, Get(body, entry.0))
  }

  /** The issues of every field, in shape order. */
  function FieldsIssues(f: Formats, body: Json, shape: Shape): (r: seq<string>)
    ensures r == [] <==> AcceptsFields(f, body, shape)
    ensures r != [] ==> r[0] != ""
  {
    if shape == [] then []
    else
      assert forall k :: 1 <= k < |shape| ==> shape[k] == shape[1..][k - 1];
      EntryIssues(f, body, shape[0]) + FieldsIssues(f, body, shape[1..])
  }

  /** Field `k` is the first field the shape rejects. */
  predicate FirstFailure(f: Formats, body: Json, shape: Shape, k: int)
    requires 0 <= k < |shape|
  {
    (forall m :: 0 <= m < k ==> FieldOk(f, body, shape[m])) && !FieldOk(f, body, shape[k])
  }

  /** The first issue reported is the first issue of the first field that fails. */
  lemma {:induction false} FirstIssueOfFirstFailure(f: Formats, body: Json, shape: Shape)
    requires FieldsIssues(f, body, shape) != []
    ensures exists k :: 0 <= k < |shape| && FirstFailure(f, body, shape, k)
                        && FieldsIssues(f, body, shape)[0] == EntryIssues(f, body, shape[k])[0]
  {
    var head := EntryIssues(f, body, shape[0]);
    if head != [] {
      assert FirstFailure(f, body, shape, 0);
    } else {
      FirstIssueOfFirstFailure(f, body, shape[1..]);
      var k :| 0 <= k < |shape[1..]| && FirstFailure(f, body, shape[1..], k)
        && FieldsIssues(f, body, shape[1..])[0] == EntryIssues(f, body, shape[1..][k])[0];
      assert forall m :: 1 <= m < |shape| ==> shape[m] == shape[1..][m - 1];
      assert FirstFailure(f, body, shape, k + 1);
    }
  }

  /** The issues of an object schema: one type issue for a body that is not
      an object, otherwise the issues of its fields. */
  function SchemaIssues(f: Formats, body: Json, shape: Shape): (r: seq<string>)
    ensures r == [] <==> body.JObject? && AcceptsFields(f, body, shape)
    ensures r != [] ==> r[0] != ""
  {
    if !body.JObject? then [TypeIssue("object", body)] else FieldsIssues(f, body, shape)
  }

  // ---------------------------------------------------------------------
  // The schemas

  const RegisterShape: Shape := [("name", NameRule), ("email", EmailRule), ("password", StrongPasswordRule)]

  const LoginShape: Shape := [("email", EmailRule), ("password", LoginPasswordRule)]

  const BookingShape: Shape :=
    [("activityId", UuidRule(ActivityIdField)), ("slotId", UuidRule(SlotIdField)),
     ("participants", ParticipantsRule)]

  const SubscribeShape: Shape := [("email", EmailRule)]

  const BookingIdShape: Shape := [("bookingId", UuidRule(BookingIdField))]

  const CaptureOrderShape: Shape := [("orderID", OrderIdRule)]

  datatype RegisterData = RegisterData(name: string, email: string, password: string)

  datatype LoginData = LoginData(email: string, password: string)

  datatype BookingData = BookingData(activityId: string, slotId: string, participants: int)

  /** `schemas.auth.register`. */
  function ParseRegister(f: Formats, body: Json): (r: Parse<RegisterData>)
    ensures r.Parsed? <==>
      && body.JObject?
      && Get(body, "name").JStr? && ValidName(Get(body, "name").s)
      && Get(body, "email").JStr? && ValidEmail(f, Get(body, "email").s)
      && Get(body, "password").JStr? && StrongPassword(Get(body, "password").s)
    ensures r.Parsed? ==>
      r.data == RegisterData(Get(body, "name").s, Get(body, "email").s, Get(body, "password").s)
    ensures r.Rejected? ==> r.issues == SchemaIssues(f, body, RegisterShape)
  {
    var issues := SchemaIssues(f, body, RegisterShape);
    assert AcceptsFields(f, body, RegisterShape) <==>
      FieldOk(f, body, RegisterShape[0]) && FieldOk(f, body, RegisterShape[1])
      && FieldOk(f, body, RegisterShape[2]);
    if issues == [] then
      Parsed(RegisterData(Get(body, "name").s, Get(body, "email").s, Get(body, "password").s))
    else Rejected(issues)
  }

  /** `schemas.auth.login`. */
  function ParseLogin(f: Formats, body: Json): (r: Parse<LoginData>)
    ensures r.Parsed? <==>
      && body.JObject?
      && Get(body, "email").JStr? && ValidEmail(f, Get(body, "email").s)
      && Get(body, "password").JStr? && 1 <= |Get(body, "password").s| <= 128
    ensures r.Parsed? ==> r.data == LoginData(Get(body, "email").s, Get(body, "password").s)
    ensures r.Rejected? ==> r.issues == SchemaIssues(f, body, LoginShape)
  {
    var issues := SchemaIssues(f, body, LoginShape);
    assert AcceptsFields(f, body, LoginShape) <==>
      FieldOk(f, body, LoginShape[0]) && FieldOk(f, body, LoginShape[1]);
    if issues == [] then Parsed(LoginData(Get(body, "email").s, Get(body, "password").s))
    else Rejected(issues)
  }

  /** `schemas.booking.create`. */
  function ParseBooking(f: Formats, body: Json): (r: Parse<BookingData>)
    ensures r.Parsed? <==>
      && body.JObject?
      && Get(body, "activityId").JStr? && f.isUuid(Get(body, "activityId").s)
      && Get(body, "slotId").JStr? && f.isUuid(Get(body, "slotId").s)
      && Get(body, "participants").JInt? && 1 <= Get(body, "participants").i <= 20
    ensures r.Parsed? ==>
      r.data == BookingData(Get(body, "activityId").s, Get(body, "slotId").s, Get(body, "participants").i)
    ensures r.Rejected? ==> r.issues == SchemaIssues(f, body, BookingShape)
  {
    var issues := SchemaIssues(f, body, BookingShape);
    assert AcceptsFields(f, body, BookingShape) <==>
      FieldOk(f, body, BookingShape[0]) && FieldOk(f, body, BookingShape[1])
      && FieldOk(f, body, BookingShape[2]);
    if issues == [] then
      Parsed(BookingData(Get(body, "activityId").s, Get(body, "slotId").s, Get(body, "participants").i))
    else Rejected(issues)
  }

  /** `schemas.newsletter.subscribe`: the email. */
  function ParseSubscribe(f: Formats, body: Json): (r: Parse<string>)
    ensures r.Parsed? <==> body.JObject? && Get(body, "email").JStr? && ValidEmail(f, Get(body, "email").s)
    ensures r.Parsed? ==> r.data == Get(body, "email").s
    ensures r.Rejected? ==> r.issues == SchemaIssues(f, body, SubscribeShape)
  {
    var issues := SchemaIssues(f, body, SubscribeShape);
    assert AcceptsFields(f, body, SubscribeShape) <==> FieldOk(f, body, SubscribeShape[0]);
    if issues == [] then Parsed(Get(body, "email").s) else Rejected(issues)
  }

  /** `schemas.payment.createIntent` and `schemas.paypal.createOrder`: the booking id. */
  function ParseBookingId(f: Formats, body: Json): (r: Parse<string>)
    ensures r.Parsed? <==> body.JObject? && Get(body, "bookingId").JStr? && f.isUuid(Get(body, "bookingId").s)
    ensures r.Parsed? ==> r.data == Get(body, "bookingId").s
    ensures r.Rejected? ==> r.issues == SchemaIssues(f, body, BookingIdShape)
  {
    var issues := SchemaIssues(f, body, BookingIdShape);
    assert AcceptsFields(f, body, BookingIdShape) <==> FieldOk(f, body, BookingIdShape[0]);
    if issues == [] then Parsed(Get(body, "bookingId").s) else Rejected(issues)
  }

  /** `schemas.paypal.captureOrder`: the order id. */
  function ParseCaptureOrder(f: Formats, body: Json): (r: Parse<string>)
    ensures r.Parsed? <==> body.JObject? && Get(body, "orderID").JStr? && |Get(body, "orderID").s| >= 1
    ensures r.Parsed? ==> r.data == Get(body, "orderID").s
    ensures r.Rejected? ==> r.issues == SchemaIssues(f, body, CaptureOrderShape)
  {
    var issues := SchemaIssues(f, body, CaptureOrderShape);
    assert AcceptsFields(f, body, CaptureOrderShape) <==> FieldOk(f, body, CaptureOrderShape[0]);
    if issues == [] then Parsed(Get(body, "orderID").s) else Rejected(issues)
  }

  // ---------------------------------------------------------------------
  // validateRequest

  datatype Validation<T> = Validation(success: bool, data: Option<T>, error: Option<string>)

  /** `validateRequest`: the data on success; otherwise no data and the first
      issue's message, or 'Invalid input' when there is no usable message. */
  function ValidateRequest<T>(p: Parse<T>): (v: Validation<T>)
    ensures v.success <==> p.Parsed?
    ensures v.success ==> v.data == Some(p.data) && v.error.None?
    ensures !v.success ==> v.data.None? && v.error.Some?
    ensures !v.success && |p.issues| > 0 && p.issues[0] != "" ==> v.error == Some(p.issues[0])
    ensures !v.success && (|p.issues| == 0 || p.issues[0] == "") ==> v.error == Some("Invalid input")
  {
    match p
    case Parsed(d) => Validation(true, Some(d), None)
    case Rejected(issues) =>
      Validation(false, None, Some(if |issues| > 0 && issues[0] != "" then issues[0] else "Invalid input"))
  }

  /** For every schema a rejection is reported with the first issue of the
      first field that fails, or with the type issue of a body that is not an
      object; the 'Invalid input' fallback is never reached. */
  lemma FirstIssueReported(f: Formats, body: Json, shape: Shape)
    requires SchemaIssues(f, body, shape) != []
    ensures ValidateRequest<()>(Rejected(SchemaIssues(f, body, shape))).error == Some(SchemaIssues(f, body, shape)[0])
    ensures SchemaIssues(f, body, shape)[0] != ""
    ensures body.JObject? ==> (exists k :: 0 <= k < |shape| && FirstFailure(f, body, shape, k)
                                        && SchemaIssues(f, body, shape)[0] == EntryIssues(f, body, shape[k])[0])
    ensures !body.JObject? ==> SchemaIssues(f, body, shape)[0] == TypeIssue("object", body)
  {
    if body.JObject? {
      FirstIssueOfFirstFailure(f, body, shape);
    }
  }

  /** A fractional participants count is always reported as not an integer,
      whatever its size, once both ids are well-formed. */
  lemma FractionReportsInteger(f: Formats, a: string, s: string, fl: int)
    requires f.isUuid(a) && f.isUuid(s)
    ensures var body := JObject(map["activityId" := JStr(a), "slotId" := JStr(s), "participants" := JFrac(fl)]);
      ValidateRequest(ParseBooking(f, body)).error == Some("Participants must be an integer")
  {
    var body := JObject(map["activityId" := JStr(a), "slotId" := JStr(s), "participants" := JFrac(fl)]);
    assert EntryIssues(f, body, BookingShape[0]) == [];
    assert EntryIssues(f, body, BookingShape[1]) == [];
    assert EntryIssues(f, body, BookingShape[2])[0] == "Participants must be an integer";
    var rest := BookingShape[1..][1..];
    assert rest == [BookingShape[2]] && rest[1..] == [];
    assert FieldsIssues(f, body, rest) == EntryIssues(f, body, BookingShape[2]);
    assert FieldsIssues(f, body, BookingShape[1..]) == FieldsIssues(f, body, rest);
    assert FieldsIssues(f, body, BookingShape) == FieldsIssues(f, body, BookingShape[1..]);
  }
}
