/** One serverless endpoint as the process sees it: the module-level
    `cached` connection, the collection behind the model, and the mails it
    has delivered.  `Handle` is `handler` run on one request; it is proved
    against `FormApi.Step`, whose contract states the request's outcome. */
module ApiHandler {
  import opened Wrappers
  import opened FormApi

  class Endpoint {
    const kind: Kind
    const ext: Externals
    var store: seq<Record>
    var cached: Option<Conn>
    /** How many times `mongoose.connect` has been called. */
    var connectAttempts: nat
    var outbox: seq<Mail>

    /** The store never holds two records with the same natural key. */
    ghost predicate Valid()
      reads this
    {
      Coherent(kind, ext) && Unique(kind, store)
    }

    /** A cold start: the module is loaded afresh, so `cached` is null, but
        the collection is whatever the database already holds. */
    constructor (kind: Kind, ext: Externals, collection: seq<Record>)
      requires Coherent(kind, ext) && Unique(kind, collection)
      ensures Valid()
      ensures this.kind == kind && this.ext == ext
      ensures store == collection && cached == None && connectAttempts == 0 && outbox == []
    {
      this.kind := kind;
      this.ext := ext;
      store := collection;
      cached := None;
      connectAttempts := 0;
      outbox := [];
    }

    /** `dbConnection`: a cached handle is returned without reconnecting;
        otherwise `mongoose.connect` is called, and only a handle it
        resolves to is cached -- a rejection leaves `cached` empty, returns
        nothing, and the next call tries again. */
    method DbConnection(attempt: Option<Conn>) returns (c: Option<Conn>)
      modifies this`cached, this`connectAttempts
      ensures old(cached).Some? ==> c == old(cached) && cached == old(cached) && connectAttempts == old(connectAttempts)
      ensures old(cached).None? ==> c == attempt && cached == attempt && connectAttempts == old(connectAttempts) + 1
    {
      if cached.Some? {
        return cached;
      }
      connectAttempts := connectAttempts + 1;
      match attempt {
        case Some(_) =>
          cached := attempt;
          c := cached;
        case None =>
          c := None;
      }
    }

    /** `sendMail`: a failed send is logged and swallowed. */
    method SendMail(to: Addressee, subject: string, delivered: bool)
      modifies this`outbox
      ensures outbox == old(outbox) + if delivered then [Mail(to, subject)] else []
    {
      if delivered {
        outbox := outbox + [Mail(to, subject)];
      }
    }

    /** `handler` on one request. */
    method Handle(req: Request, env: Env) returns (res: Response)
      requires Valid()
      modifies this
      ensures Valid()
      ensures var o := Step(kind, ext, old(store), old(cached), req, env);
              res == o.response && store == o.store && cached == o.cached && outbox == old(outbox) + o.sent
      ensures connectAttempts == old(connectAttempts) + if req.verb == "POST" && old(cached).None? then 1 else 0
    {
      if req.verb != "POST" {
        return Response(405, false, NotAllowedText(kind));
      }
      var conn := DbConnection(env.connect);
      assert Step(kind, ext, store, old(cached), req, env) == Step(kind, ext, store, cached, req, env);
      res := Submission(req, env);
    }

    /** The rest of `handler`'s `try` block, once `dbConnection` has run:
        validation, the duplicate lookup, `save()` and the two mails. */
    method Submission(req: Request, env: Env) returns (res: Response)
      requires Valid() && req.verb == "POST"
      requires cached.None? ==> env.connect.None?
      modifies this`store, this`outbox
      ensures Valid()
      ensures var o := Step(kind, ext, old(store), cached, req, env);
              res == o.response && store == o.store && outbox == old(outbox) + o.sent
    {
      ghost var o := Step(kind, ext, store, cached, req, env);
      var body := req.body;
      if !Validates(kind, ext, body) {
        return Response(400, false, ValidationErrorText);
      }
      if cached.None? {
        // bufferCommands is off: the first model call throws
        return Response(500, false, InternalErrorText);
      }
      if HasLookup(kind) {
        if env.lookupThrows {
          return Response(500, false, InternalErrorText);
        }
        var found := IsDuplicate(kind, ext, store, body);
        if found {
          return Response(409, false, DuplicateText(kind));
        }
      }
      res := Insert(req, env);
    }

    /** From `new Model(...)` to the reply: `save()` and, when it gives a
        document, both mails awaited together. */
    method Insert(req: Request, env: Env) returns (res: Response)
      requires Valid() && req.verb == "POST" && Validates(kind, ext, req.body) && cached.Some?
      requires !(HasLookup(kind) && env.lookupThrows) && !IsDuplicate(kind, ext, store, req.body)
      modifies this`store, this`outbox
      ensures Valid()
      ensures var o := Step(kind, ext, old(store), cached, req, env);
              res == o.response && store == o.store && outbox == old(outbox) + o.sent
    {
      StepAtSave(kind, ext, store, cached, req, env);
      var body := req.body;
      var record := NewRecord(kind, ext, body);
      match env.save {
        case SaveThrows =>
          res := Response(500, false, InternalErrorText);
        case SavedFalsy =>
          res := Response(400, false, SaveFailedText(kind));
        case Saved =>
          StepKeepsUnique(kind, ext, store, cached, req, env);
          store := store + [record];
          SendMail(Submitter(Get(body, "email")), UserSubject(kind), env.userMailOk);
          SendMail(Operator, OperatorSubject(kind, body), env.operatorMailOk);
          res := Response(201, true, CreatedText(kind));
      }
    }
  }
}
