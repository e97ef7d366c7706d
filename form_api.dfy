/** The request pipeline that the three serverless form endpoints share
    (api/contactApi.js, api/inquiryApi.js, api/emailSubscribingApi.js).

    The three handlers are one straight-line sequence -- method check,
    connection, validation, duplicate lookup, insert, two mails, reply --
    that differ only in their texts, their validation rules, their duplicate
    policy and the document they insert.  `Kind` names the endpoint and every
    per-endpoint choice below is a `match` on it, one arm per file.

    What the handlers take from libraries is a parameter (`Externals`): joi's
    e-mail syntax check and its `number()` rule, JavaScript's `Number(...)`,
    and the casting mongoose applies to every field it stores or filters on
    (lowercase/trim for e-mails, `Number` for the contact phone, ...).  What
    the outside world answers on one request (does the connection succeed,
    does the lookup throw, what does `save()` give, is each mail delivered)
    is the per-request `Env`. */
module FormApi {
  import opened Wrappers

  /** A JSON value, as far as the handlers look at it.  `Missing` is a key
      that is absent (JavaScript `undefined`); `Other` stands for `null`,
      booleans, arrays and objects, which no rule here accepts. */
  datatype Json = Missing | Str(text: string) | Num(value: real) | Other

  /** A parsed request body, and a stored document: field name to value. */
  type Body = map<string, Json>
  type Record = map<string, Json>

  /** The endpoint: api/contactApi.js, api/inquiryApi.js or api/emailSubscribingApi.js. */
  datatype Kind = Contact | Inquiry | Newsletter

  /** The handle `mongoose.connect` resolves to. */
  datatype Conn = Conn(id: nat)

  datatype Request = Request(verb: string, body: Body)

  /** How `newDoc.save()` ends: a truthy document, a falsy value, or a
      rejection (a unique-index violation, a cast error, a lost connection). */
  datatype SaveOutcome = Saved | SavedFalsy | SaveThrows

  /** What the outside world does during one request.  `connect` is what
      `mongoose.connect` would resolve to if it were called (None: it rejects). */
  datatype Env = Env(connect: Option<Conn>, lookupThrows: bool, save: SaveOutcome,
                     userMailOk: bool, operatorMailOk: bool)

  /** Library behaviour the handlers rely on without defining it. */
  datatype Externals = Externals(
    isEmail: string -> bool,         // joi string().email({ tlds: { allow: false } })
    isNumber: Json -> bool,          // joi number(), which also converts numeric strings
    toNumber: Json -> Json,          // JavaScript Number(...)
    cast: (string, Json) -> Json)    // the schema's cast of one field, for documents and filters alike

  /** The HTTP reply: status code and the JSON body's isSuccess and message. */
  datatype Response = Response(status: int, isSuccess: bool, message: string)

  /** A delivered mail: to the submitter's address or to the operator's own account. */
  datatype Addressee = Submitter(address: Json) | Operator
  datatype Mail = Mail(to: Addressee, subject: string)

  /** Everything one request changes: the reply, the store, the connection
      cache, and the mails that were delivered. */
  datatype Outcome = Outcome(response: Response, store: seq<Record>, cached: Option<Conn>, sent: seq<Mail>)

  /** A run of sequential requests starts from and ends in a server state. */
  datatype Server = Server(store: seq<Record>, cached: Option<Conn>)
  datatype Call = Call(req: Request, env: Env)

  function Get(b: Body, key: string): Json
  {
    if key in b then b[key] else Missing
  }

  /** JavaScript template interpolation of a validated string field. */
  function Text(v: Json): string
  {
    if v.Str? then v.text else ""
  }

  // ---------------------------------------------------------------- texts

  function NotAllowedText(kind: Kind): string
  {
    if kind == Contact then "Only Post Method Is Allowed" else "Only POST method allowed"
  }

  const ValidationErrorText: string := "Validation Error"
  const InternalErrorText: string := "Internal Server Error"

  function DuplicateText(kind: Kind): string
    requires kind != Inquiry
  {
    if kind == Contact then "Data Already Exists" else "Already Subscribed"
  }

  function SaveFailedText(kind: Kind): string
  {
    match kind
    case Contact => "Error While Inserting Contact Details"
    case Inquiry => "Error Saving Inquiry"
    case Newsletter => "Error While Subscribing"
  }

  function CreatedText(kind: Kind): string
  {
    match kind
    case Contact => "New Contact Details Added Successfully"
    case Inquiry => "Inquiry Submitted Successfully"
    case Newsletter => "Subscribed Successfully"
  }

  // ----------------------------------------------------------- validation

  /** joi `string()`: a string, and not the empty one (joi refuses "" unless allowed). */
  predicate JoiString(v: Json)
  {
    v.Str? && |v.text| > 0
  }

  /** joi `string().email({ tlds: { allow: false } }).required()`. */
  predicate JoiEmail(ext: Externals, v: Json)
  {
    JoiString(v) && ext.isEmail(v.text)
  }

  /** The joi schema each handler validates with.  The contact handler
      validates only name, phone and email (message is never checked); the
      inquiry handler also validates an optional string message and wants a
      phone string of at least 10 characters; the newsletter handler
      validates only the e-mail. */
  predicate Validates(kind: Kind, ext: Externals, body: Body)
    ensures Validates(kind, ext, body) ==> "email" in body && JoiEmail(ext, body["email"])
    ensures Validates(kind, ext, body) && kind != Newsletter ==>
              "name" in body && JoiString(body["name"]) && "phone" in body
    ensures Validates(kind, ext, body) && kind == Inquiry ==>
              body["phone"].Str? && |body["phone"].text| >= 10
  {
    match kind
    case Contact =>
      && JoiString(Get(body, "name"))
      && Get(body, "phone") != Missing && ext.isNumber(Get(body, "phone"))
      && JoiEmail(ext, Get(body, "email"))
    case Inquiry =>
      && JoiString(Get(body, "name"))
      && JoiString(Get(body, "phone")) && |Get(body, "phone").text| >= 10
      && JoiEmail(ext, Get(body, "email"))
      && (Get(body, "message") == Missing || JoiString(Get(body, "message")))
    case Newsletter =>
      JoiEmail(ext, Get(body, "email"))
  }

  /** The contact handler validates `{ name, phone, email }` only: the
      message, and any other field, never decides validity. */
  lemma ContactIgnoresOtherFields(ext: Externals, body: Body, key: string, v: Json)
    requires key !in {"name", "phone", "email"}
    ensures Validates(Contact, ext, body[key := v]) == Validates(Contact, ext, body)
  {
  }

  /** The newsletter handler validates `{ email }` only. */
  lemma NewsletterIgnoresOtherFields(ext: Externals, body: Body, key: string, v: Json)
    requires key != "email"
    ensures Validates(Newsletter, ext, body[key := v]) == Validates(Newsletter, ext, body)
  {
  }

  // ------------------------------------------------------------ the store

  /** Whether the handler looks for an existing record before inserting. */
  predicate HasLookup(kind: Kind)
  {
    kind != Inquiry
  }

  /** A stored record satisfies the filter `{ key: v }`. */
  predicate Matches(r: Record, key: string, v: Json)
  {
    key in r && r[key] == v
  }

  /** Some stored record has the submitted e-mail, cast as the schema casts it. */
  predicate EmailTaken(ext: Externals, store: seq<Record>, body: Body)
  {
    exists r | r in store :: Matches(r, "email", ext.cast("email", Get(body, "email")))
  }

  /** Some stored record has the submitted phone, cast as the schema casts it. */
  predicate PhoneTaken(ext: Externals, store: seq<Record>, body: Body)
  {
    exists r | r in store :: Matches(r, "phone", ext.cast("phone", Get(body, "phone")))
  }

  /** `findOne` with the handler's filter finds a record: email OR phone for
      contacts, email alone for subscriptions; the filter values are cast
      by the schema exactly as stored values are. */
  predicate IsDuplicate(kind: Kind, ext: Externals, store: seq<Record>, body: Body)
    ensures kind == Inquiry || store == [] ==> !IsDuplicate(kind, ext, store, body)
    ensures kind == Contact ==>
              (IsDuplicate(kind, ext, store, body) <==> EmailTaken(ext, store, body) || PhoneTaken(ext, store, body))
    ensures kind == Newsletter ==> (IsDuplicate(kind, ext, store, body) <==> EmailTaken(ext, store, body))
  {
    match kind
    case Contact =>
      exists r | r in store ::
        Matches(r, "email", ext.cast("email", Get(body, "email")))
        || Matches(r, "phone", ext.cast("phone", Get(body, "phone")))
    case Inquiry => false
    case Newsletter =>
      exists r | r in store :: Matches(r, "email", ext.cast("email", Get(body, "email")))
  }

  /** The fields each mongoose schema declares; the store keeps no others. */
  function SchemaFields(kind: Kind): set<string>
  {
    match kind
    case Contact => {"name", "email", "phone", "message"}
    case Inquiry => {"name", "email", "phone", "message"}
    case Newsletter => {"email"}
  }

  /** The object the handler hands to the model constructor:
      `{...req.body, phone: Number(phone)}`, `req.body`, or `{ email }`. */
  function Document(kind: Kind, ext: Externals, body: Body): (d: Body)
    ensures kind == Contact ==>
              && d.Keys == body.Keys + {"phone"} && d["phone"] == ext.toNumber(Get(body, "phone"))
              && forall k | k in body && k != "phone" :: d[k] == body[k]
    ensures kind == Inquiry ==> d == body
    ensures kind == Newsletter ==> d.Keys == {"email"} && d["email"] == Get(body, "email")
  {
    match kind
    case Contact => body["phone" := ext.toNumber(Get(body, "phone"))]
    case Inquiry => body
    case Newsletter => map["email" := Get(body, "email")]
  }

  /** The record the store keeps for a submission: the document restricted
      to the schema's fields, each field cast by the schema. */
  function NewRecord(kind: Kind, ext: Externals, body: Body): (r: Record)
    ensures r.Keys == Document(kind, ext, body).Keys * SchemaFields(kind)
    ensures forall k | k in body && k in SchemaFields(kind) && !(kind == Contact && k == "phone") && kind != Newsletter ::
              k in r && r[k] == ext.cast(k, body[k])
    ensures kind == Contact ==> "phone" in r && r["phone"] == ext.cast("phone", ext.toNumber(Get(body, "phone")))
    ensures kind == Newsletter ==> r == map["email" := ext.cast("email", Get(body, "email"))]
  {
    var doc := Document(kind, ext, body);
    var r := map k | k in doc && k in SchemaFields(kind) :: ext.cast(k, doc[k]);
    assert kind == Newsletter ==> r.Keys == {"email"};
    r
  }

  // -------------------------------------------------------------- the mail

  function UserSubject(kind: Kind): string
  {
    match kind
    case Contact => "Thanks for Contacting Vastu Craft"
    case Inquiry => "Thanks for your Inquiry"
    case Newsletter => "Welcome to Vastu Craft Newsletter"
  }

  function OperatorSubject(kind: Kind, body: Body): string
  {
    match kind
    case Contact => "New Contact Request from " + Text(Get(body, "name"))
    case Inquiry => "New Inquiry from " + Text(Get(body, "name"))
    case Newsletter => "New Newsletter Subscription"
  }

  /** The mails that arrive when both sends are awaited: a failed send is
      logged and swallowed, so it only drops its own mail. */
  function Notifications(kind: Kind, body: Body, env: Env): (m: seq<Mail>)
    ensures |m| == (if env.userMailOk then 1 else 0) + (if env.operatorMailOk then 1 else 0)
    ensures Mail(Submitter(Get(body, "email")), UserSubject(kind)) in m <==> env.userMailOk
    ensures Mail(Operator, OperatorSubject(kind, body)) in m <==> env.operatorMailOk
  {
    (if env.userMailOk then [Mail(Submitter(Get(body, "email")), UserSubject(kind))] else [])
    + (if env.operatorMailOk then [Mail(Operator, OperatorSubject(kind, body))] else [])
  }

  // ------------------------------------------------------------- the handler

  /** One request through `handler`.  A method other than POST is answered
      405 at once.  Otherwise `dbConnection` runs first (connecting only when
      nothing is cached), then validation (400), then -- with no live
      connection and buffering disabled -- the first store call throws (500);
      then the duplicate lookup (throws: 500; found: 409), then `save()`
      (throws: 500; falsy: 400; truthy: append, send both mails, 201). */
  function Step(kind: Kind, ext: Externals, store: seq<Record>, cached: Option<Conn>, req: Request, env: Env): (o: Outcome)
    ensures o.response.status in {201, 400, 405, 409, 500}
    ensures o.response.isSuccess <==> o.response.status == 201
    // Anything but POST: 405 before the connection, validator or store is touched.
    ensures o.response.status == 405 <==> req.verb != "POST"
    ensures req.verb != "POST" ==>
              o == Outcome(Response(405, false, NotAllowedText(kind)), store, cached, [])
    // A POST always goes through dbConnection, whatever its body.
    ensures req.verb == "POST" && cached.Some? ==> o.cached == cached
    ensures req.verb == "POST" && cached.None? ==> o.cached == env.connect
    ensures req.verb == "POST" && !Validates(kind, ext, req.body) ==>
              o.response == Response(400, false, ValidationErrorText)
    ensures o.response.status == 400 ==>
              o.response.message == ValidationErrorText || (env.save == SavedFalsy && o.response.message == SaveFailedText(kind))
    // No live connection: the first model call throws.
    ensures req.verb == "POST" && Validates(kind, ext, req.body) && o.cached.None? ==>
              o.response == Response(500, false, InternalErrorText)
    // The duplicate lookup throws.
    ensures req.verb == "POST" && Validates(kind, ext, req.body) && o.cached.Some? && HasLookup(kind) && env.lookupThrows ==>
              o.response == Response(500, false, InternalErrorText)
    // Past the lookup, save() decides: falsy gives 400 with the endpoint's text, a throw gives 500.
    ensures && req.verb == "POST" && Validates(kind, ext, req.body) && o.cached.Some?
            && !(HasLookup(kind) && env.lookupThrows) && !IsDuplicate(kind, ext, store, req.body) ==>
              && (env.save == SavedFalsy ==> o.response == Response(400, false, SaveFailedText(kind)))
              && (env.save == SaveThrows ==> o.response == Response(500, false, InternalErrorText))
    ensures o.response.status == 409 <==>
              && req.verb == "POST" && Validates(kind, ext, req.body) && o.cached.Some?
              && HasLookup(kind) && !env.lookupThrows && IsDuplicate(kind, ext, store, req.body)
    ensures o.response.status == 409 ==> o.response.message == DuplicateText(kind)
    ensures o.response.status == 201 <==>
              && req.verb == "POST" && Validates(kind, ext, req.body) && o.cached.Some?
              && !(HasLookup(kind) && env.lookupThrows) && !IsDuplicate(kind, ext, store, req.body)
              && env.save == Saved
    ensures o.response.status == 201 ==>
              && o.response.message == CreatedText(kind)
              && o.store == store + [NewRecord(kind, ext, req.body)]
              && o.sent == Notifications(kind, req.body, env)
    // Nothing is written and no mail goes out on any other reply.
    ensures o.response.status != 201 ==> o.store == store && o.sent == []
  {
    if req.verb != "POST" then
      Outcome(Response(405, false, NotAllowedText(kind)), store, cached, [])
    else
      var live := if cached.Some? then cached else env.connect;
      if !Validates(kind, ext, req.body) then
        Outcome(Response(400, false, ValidationErrorText), store, live, [])
      else if live.None? || (HasLookup(kind) && env.lookupThrows) then
        Outcome(Response(500, false, InternalErrorText), store, live, [])
      else if IsDuplicate(kind, ext, store, req.body) then
        Outcome(Response(409, false, DuplicateText(kind)), store, live, [])
      else
        match env.save
        case SaveThrows => Outcome(Response(500, false, InternalErrorText), store, live, [])
        case SavedFalsy => Outcome(Response(400, false, SaveFailedText(kind)), store, live, [])
        case Saved =>
          Outcome(Response(201, true, CreatedText(kind)), store + [NewRecord(kind, ext, req.body)],
                  live, Notifications(kind, req.body, env))
  }

  /** `Step` once validation, the connection and the lookup have been passed. */
  lemma StepAtSave(kind: Kind, ext: Externals, store: seq<Record>, cached: Option<Conn>, req: Request, env: Env)
    requires req.verb == "POST" && Validates(kind, ext, req.body) && cached.Some?
    requires !(HasLookup(kind) && env.lookupThrows) && !IsDuplicate(kind, ext, store, req.body)
    ensures var o := Step(kind, ext, store, cached, req, env);
            && (env.save == SaveThrows ==> o == Outcome(Response(500, false, InternalErrorText), store, cached, []))
            && (env.save == SavedFalsy ==> o == Outcome(Response(400, false, SaveFailedText(kind)), store, cached, []))
            && (env.save == Saved ==>
                  o == Outcome(Response(201, true, CreatedText(kind)), store + [NewRecord(kind, ext, req.body)],
                               cached, Notifications(kind, req.body, env)))
  {
  }

  /** Requests handled one after another. */
  function Run(kind: Kind, ext: Externals, s: Server, calls: seq<Call>): Server
    decreases |calls|
  {
    if calls == [] then s
    else
      var o := Step(kind, ext, s.store, s.cached, calls[0].req, calls[0].env);
      Run(kind, ext, Server(o.store, o.cached), calls[1..])
  }

  // ------------------------------------------------------------ properties

  /** The fields no two stored records may share: the duplicate lookup's keys. */
  function NaturalKey(kind: Kind): set<string>
  {
    match kind
    case Contact => {"email", "phone"}
    case Inquiry => {}
    case Newsletter => {"email"}
  }

  predicate Distinct(a: Record, b: Record, key: string)
  {
    !(key in a && key in b && a[key] == b[key])
  }

  /** No two stored records share a value of a natural-key field. */
  ghost predicate Unique(kind: Kind, store: seq<Record>)
  {
    forall i, j, key | 0 <= i < j < |store| && key in NaturalKey(kind) :: Distinct(store[i], store[j], key)
  }

  /** The contact handler stores `Number(phone)` but filters on `phone`; the
      lookup can only see a stored phone if the schema casts both alike. */
  ghost predicate Coherent(kind: Kind, ext: Externals)
  {
    kind == Contact ==>
      forall v | ext.isNumber(v) :: ext.cast("phone", ext.toNumber(v)) == ext.cast("phone", v)
  }

  /** The record a successful request adds shares no natural-key value with
      any record already stored. */
  lemma NewRecordIsFresh(kind: Kind, ext: Externals, store: seq<Record>, body: Body, i: int, key: string)
    requires Coherent(kind, ext)
    requires Validates(kind, ext, body) && !IsDuplicate(kind, ext, store, body)
    requires 0 <= i < |store| && key in NaturalKey(kind)
    ensures Distinct(store[i], NewRecord(kind, ext, body), key)
  {
    var r := NewRecord(kind, ext, body);
    assert store[i] in store;
    if key == "email" {
      assert "email" in body;
      assert r["email"] == ext.cast("email", Get(body, "email"));
    } else {
      assert kind == Contact && key == "phone";
      assert r["phone"] == ext.cast("phone", Get(body, "phone"));
    }
  }

  /** One request keeps the natural keys unique. */
  lemma StepKeepsUnique(kind: Kind, ext: Externals, store: seq<Record>, cached: Option<Conn>, req: Request, env: Env)
    requires Coherent(kind, ext) && Unique(kind, store)
    ensures Unique(kind, Step(kind, ext, store, cached, req, env).store)
  {
    var o := Step(kind, ext, store, cached, req, env);
    if o.response.status == 201 {
      var r := NewRecord(kind, ext, req.body);
      forall i, j, key | 0 <= i < j < |o.store| && key in NaturalKey(kind)
        ensures Distinct(o.store[i], o.store[j], key)
      {
        if j == |store| {
          NewRecordIsFresh(kind, ext, store, req.body, i, key);
        }
      }
    }
  }

  /** Over any sequence of requests handled one at a time, no two stored
      contacts share an e-mail or a phone, and no two subscriptions share an
      e-mail. */
  lemma {:induction false} RunKeepsUnique(kind: Kind, ext: Externals, s: Server, calls: seq<Call>)
    requires Coherent(kind, ext) && Unique(kind, s.store)
    ensures Unique(kind, Run(kind, ext, s, calls).store)
    decreases |calls|
  {
    if calls != [] {
      var o := Step(kind, ext, s.store, s.cached, calls[0].req, calls[0].env);
      StepKeepsUnique(kind, ext, s.store, s.cached, calls[0].req, calls[0].env);
      RunKeepsUnique(kind, ext, Server(o.store, o.cached), calls[1..]);
    }
  }

  /** Records are never changed or removed: the store only grows at its end. */
  lemma {:induction false} RunOnlyAppends(kind: Kind, ext: Externals, s: Server, calls: seq<Call>)
    ensures s.store <= Run(kind, ext, s, calls).store
    decreases |calls|
  {
    if calls != [] {
      var o := Step(kind, ext, s.store, s.cached, calls[0].req, calls[0].env);
      RunOnlyAppends(kind, ext, Server(o.store, o.cached), calls[1..]);
    }
  }

  /** Once a connection is cached, no later request replaces it. */
  lemma {:induction false} RunKeepsConnection(kind: Kind, ext: Externals, s: Server, calls: seq<Call>)
    requires s.cached.Some?
    ensures Run(kind, ext, s, calls).cached == s.cached
    decreases |calls|
  {
    if calls != [] {
      var o := Step(kind, ext, s.store, s.cached, calls[0].req, calls[0].env);
      RunKeepsConnection(kind, ext, Server(o.store, o.cached), calls[1..]);
    }
  }

  /** A match stays a match: records only accumulate, so a body the lookup
      refuses now is refused after any later requests too. */
  lemma {:induction false} RunKeepsDuplicate(kind: Kind, ext: Externals, s: Server, calls: seq<Call>, body: Body)
    requires IsDuplicate(kind, ext, s.store, body)
    ensures IsDuplicate(kind, ext, Run(kind, ext, s, calls).store, body)
    decreases |calls|
  {
    if calls != [] {
      var o := Step(kind, ext, s.store, s.cached, calls[0].req, calls[0].env);
      assert forall r | r in s.store :: r in o.store;
      RunKeepsDuplicate(kind, ext, Server(o.store, o.cached), calls[1..], body);
    }
  }

  /** Sending the same contact or subscription again right after it was
      accepted is answered 409 and writes nothing. */
  lemma ResubmitConflicts(kind: Kind, ext: Externals, store: seq<Record>, cached: Option<Conn>, req: Request, env: Env, again: Env)
    requires kind != Inquiry
    requires Step(kind, ext, store, cached, req, env).response.status == 201
    requires !again.lookupThrows
    ensures var o := Step(kind, ext, store, cached, req, env);
            var o' := Step(kind, ext, o.store, o.cached, req, again);
            o'.response == Response(409, false, DuplicateText(kind)) && o'.store == o.store
  {
    var o := Step(kind, ext, store, cached, req, env);
    var r := NewRecord(kind, ext, req.body);
    assert r in o.store;
    assert "email" in req.body;
    assert Matches(r, "email", ext.cast("email", Get(req.body, "email")));
  }

  /** The inquiry endpoint has no duplicate check: the same valid inquiry
      sent twice is stored twice. */
  lemma InquiryAcceptsRepeats(ext: Externals, store: seq<Record>, cached: Option<Conn>, req: Request, env: Env)
    requires req.verb == "POST" && Validates(Inquiry, ext, req.body)
    requires cached.Some? || env.connect.Some?
    requires env.save == Saved
    ensures var o := Step(Inquiry, ext, store, cached, req, env);
            var o' := Step(Inquiry, ext, o.store, o.cached, req, env);
            && o.response.status == 201 && o'.response.status == 201
            && o'.store == store + [NewRecord(Inquiry, ext, req.body), NewRecord(Inquiry, ext, req.body)]
  {
  }

  /** The reply and the store do not depend on whether the mails go out. */
  lemma MailDoesNotDecide(kind: Kind, ext: Externals, store: seq<Record>, cached: Option<Conn>, req: Request, env: Env, u: bool, v: bool)
    ensures var o := Step(kind, ext, store, cached, req, env);
            var o' := Step(kind, ext, store, cached, req, env.(userMailOk := u, operatorMailOk := v));
            o'.response == o.response && o'.store == o.store && o'.cached == o.cached
  {
  }
}
