/** The posts endpoint: connect, dispatch on the HTTP method, list or create posts, and turn any
    thrown error into the internal-error envelope. The database connector, the token verifier
    and the store are the `Backend` parameter; the environment flag is the `Env` parameter. */
module PostsHandler {
  import opened Wrappers
  import opened JsValues
  import Pagination
  import QueryFilter
  import BearerToken

  const TOKEN_REQUIRED := "Authorization token required"
  const INVALID_TOKEN := "Invalid or expired token"
  const FIELDS_REQUIRED := "Title and content are required"
  const INTERNAL_ERROR := "Internal server error"
  const DEVELOPMENT := "development"
  const GET := "GET"
  const POST := "POST"
  const ALLOWED_METHODS := [GET, POST]
  const TITLE := "title"
  const CONTENT := "content"
  const AUTHOR := "author"
  /** What reading `req.body.title` throws when the body is `undefined` or `null`. */
  const BODY_UNDEFINED := "Cannot read properties of undefined (reading 'title')"
  const BODY_NULL := "Cannot read properties of null (reading 'title')"

  /** The list parameters; `page` and `limit` already parsed to integers. */
  datatype Query = Query(
    category: Option<string>,
    language: Option<string>,
    page: Option<int>,
    limit: Option<int>)

  /** The parts of an incoming request the handler reads. */
  datatype Request = Request(
    verb: string,
    query: Query,
    authorization: Option<string>,
    body: Option<Value>)

  /** `process.env.NODE_ENV`. */
  datatype Env = Env(nodeEnv: Option<string>)

  /** What the token verifier returns for a valid token. */
  datatype User = User(id: Value)

  /** The paginated read: the filter, the number of records skipped and the page size.
      The count query receives the same `filter`. */
  datatype ListQuery = ListQuery(filter: QueryFilter.Filter, skip: int, limit: int)

  /** The answers of the external collaborators. `connect` holds the error message when
      connecting rejects; each other call either resolves with a value or rejects. */
  datatype Backend = Backend(
    connect: Option<string>,
    verify: string -> Result<Option<User>>,
    find: ListQuery -> Result<seq<Doc>>,
    count: QueryFilter.Filter -> Result<nat>,
    create: Doc -> Result<Doc>)

  /** The JSON response, one variant per status code the handler sends. */
  datatype Response =
    | Listed(posts: seq<Doc>, total: nat, page: int, totalPages: nat)
    | Created(post: Doc)
    | BadRequest(message: string)
    | Unauthorized(message: string)
    | NotAllowed(allow: seq<string>, message: string)
    | Internal(message: string, error: Option<string>)

  function StatusCode(r: Response): int {
    match r
    case Listed(_, _, _, _) => 200
    case Created(_) => 201
    case BadRequest(_) => 400
    case Unauthorized(_) => 401
    case NotAllowed(_, _) => 405
    case Internal(_, _) => 500
  }

  /** The `success` field of the envelope. */
  predicate Succeeded(r: Response) {
    r.Listed? || r.Created?
  }

  /** How a method branch ends: by sending a response or by throwing. */
  datatype Completion = Returned(response: Response) | Threw(message: string)

  /** A method branch's completion together with the store calls it made. */
  datatype Attempt = Attempt(completion: Completion, listed: Option<ListQuery>, written: Option<Doc>)

  /** What one request produces: the response sent, the paginated read issued (if any) and the
      record handed to `Post.create` (if any). */
  datatype Exchange = Exchange(response: Response, listed: Option<ListQuery>, written: Option<Doc>)

  /** The `catch` block's envelope: the detail is the error's message, and only in development. */
  function InternalError(message: string, env: Env): (r: Response)
    ensures StatusCode(r) == 500 && !Succeeded(r)
    ensures r.Internal? && r.message == INTERNAL_ERROR
    ensures r.error.Some? <==> env.nodeEnv == Some(DEVELOPMENT)
    ensures r.error.Some? ==> r.error.value == message
  {
    Internal(INTERNAL_ERROR, if env.nodeEnv == Some(DEVELOPMENT) then Some(message) else None)
  }

  /** The `default` branch: 405 advertising exactly GET and POST. */
  function MethodNotAllowed(verb: string): (r: Response)
    ensures StatusCode(r) == 405 && !Succeeded(r)
    ensures r.NotAllowed? && |r.allow| == 2 && (set m | m in r.allow) == {GET, POST}
    ensures r.message == "Method " + verb + " not allowed"
  {
    NotAllowed(ALLOWED_METHODS, "Method " + verb + " not allowed")
  }

  /** `{ ...body, author: id }`: every field of the body, with `author` set to `id` whether or
      not the body had one. */
  function WithAuthor(body: Doc, id: Value): (record: Doc)
    ensures record.Keys == body.Keys + {AUTHOR}
    ensures record[AUTHOR] == id
    ensures forall k :: k in body && k != AUTHOR ==> record[k] == body[k]
  {
    body[AUTHOR := id]
  }

  /** The read the list branch issues for these parameters. */
  function ListQueryFor(query: Query): (q: ListQuery)
    ensures q.filter == QueryFilter.Build(query.category, query.language)
    ensures Pagination.MIN_LIMIT <= q.limit <= Pagination.MAX_LIMIT
    ensures q.limit == Pagination.EffectiveLimit(query.limit)
    ensures q.skip >= 0 && q.skip % q.limit == 0
    ensures q.skip / q.limit == Pagination.EffectivePage(query.page) - 1
  {
    var page := Pagination.EffectivePage(query.page);
    var limit := Pagination.EffectiveLimit(query.limit);
    Pagination.SkipBounds(page, limit);
    ListQuery(QueryFilter.Build(query.category, query.language), Pagination.Skip(page, limit), limit)
  }

  /** The `GET` branch: both queries are issued; if either rejects the branch throws (the
      find's error first), otherwise the page of posts is sent with the pagination data. */
  function HandleGet(query: Query, backend: Backend): (a: Attempt)
    ensures a.listed == Some(ListQueryFor(query)) && a.written.None?
    ensures var q := ListQueryFor(query);
      a.completion.Returned? <==> backend.find(q).Success? && backend.count(q.filter).Success?
    ensures a.completion.Returned? ==>
      var q := ListQueryFor(query);
      var r := a.completion.response;
      && r.Listed? && StatusCode(r) == 200
      && r.posts == backend.find(q).value && r.total == backend.count(q.filter).value
      && r.page >= 1 && q.skip == (r.page - 1) * q.limit
      && r.total <= r.totalPages * q.limit
      && (r.total > 0 ==> (r.totalPages - 1) * q.limit < r.total)
      && (r.total == 0 ==> r.totalPages == 0)
    ensures var q := ListQueryFor(query);
      backend.find(q).Failure? ==> a.completion == Threw(backend.find(q).error)
    ensures var q := ListQueryFor(query);
      backend.find(q).Success? && backend.count(q.filter).Failure? ==>
        a.completion == Threw(backend.count(q.filter).error)
  {
    var page := Pagination.EffectivePage(query.page);
    var q := ListQueryFor(query);
    var posts := backend.find(q);
    var total := backend.count(q.filter);
    var completion :=
      if posts.Failure? then Threw(posts.error)
      else if total.Failure? then Threw(total.error)
      else Returned(Listed(posts.value, total.value, page, Pagination.TotalPages(total.value, q.limit)));
    Attempt(completion, Some(q), None)
  }

  /** The error that reading `req.body.title` throws: only an `undefined` or `null` body has
      no properties to read. */
  function BodyReadError(body: Option<Value>): (e: Option<string>)
    ensures e.Some? <==> body.None? || body == Some(Null)
    ensures body.None? ==> e == Some(BODY_UNDEFINED)
    ensures body == Some(Null) ==> e == Some(BODY_NULL)
  {
    match body
    case None => Some(BODY_UNDEFINED)
    case Some(Null) => Some(BODY_NULL)
    case Some(_) => None
  }

  /** `body.key` for a body that can be read: an object's field; a string, number, boolean or
      array body has no `title` or `content`, so the property is `undefined`. */
  function BodyField(body: Value, key: string): Option<Value> {
    match body
    case Obj(fields) => Field(fields, key)
    case _ => None
  }

  /** The token the verifier is asked about, if the header yields one. */
  function Token(req: Request): Option<string> {
    BearerToken.Candidate(req.authorization)
  }

  /** A request passes every guard of the `POST` branch: a non-empty token, a verifier that
      resolves with a user, and a body object with truthy `title` and `content`. */
  predicate Admitted(req: Request, backend: Backend) {
    && !BearerToken.Missing(req.authorization)
    && backend.verify(Token(req).value).Success?
    && backend.verify(Token(req).value).value.Some?
    && req.body.Some? && req.body.value.Obj?
    && Truthy(Field(req.body.value.fields, TITLE))
    && Truthy(Field(req.body.value.fields, CONTENT))
  }

  /** The user the verifier resolves with, for a request whose token is present. */
  predicate VerifiedUser(req: Request, backend: Backend) {
    && !BearerToken.Missing(req.authorization)
    && backend.verify(Token(req).value).Success?
    && backend.verify(Token(req).value).value.Some?
  }

  /** The verified user of an admitted request. */
  function Author(req: Request, backend: Backend): User
    requires Admitted(req, backend)
  {
    backend.verify(Token(req).value).value.value
  }

  /** The `POST` branch: the guard chain with early returns, then the write. Each step is
      reached only when every earlier one passed. */
  function HandlePost(req: Request, backend: Backend): (a: Attempt)
    ensures a.listed.None?
    ensures a.written.Some? <==> Admitted(req, backend)
    ensures a.written.Some? ==>
      a.written == Some(WithAuthor(req.body.value.fields, Author(req, backend).id))
    ensures a.completion.Returned? && a.completion.response.Created? <==>
      Admitted(req, backend) && backend.create(a.written.value).Success?
    ensures a.completion.Returned? && a.completion.response.Created? ==>
      a.completion.response.post == backend.create(a.written.value).value
    // 1. no token
    ensures BearerToken.Missing(req.authorization) ==>
      a.completion == Returned(Unauthorized(TOKEN_REQUIRED))
    // 2. the verifier rejects, or resolves with no user
    ensures !BearerToken.Missing(req.authorization) && backend.verify(Token(req).value).Failure? ==>
      a.completion == Threw(backend.verify(Token(req).value).error) && a.written.None?
    ensures !BearerToken.Missing(req.authorization) && backend.verify(Token(req).value) == Success(None) ==>
      a.completion == Returned(Unauthorized(INVALID_TOKEN))
    // 3. the body cannot be read, or lacks a truthy title or content
    ensures VerifiedUser(req, backend) && BodyReadError(req.body).Some? ==>
      a.completion == Threw(BodyReadError(req.body).value) && a.written.None?
    ensures VerifiedUser(req, backend) && BodyReadError(req.body).None? && !Admitted(req, backend) ==>
      a.completion == Returned(BadRequest(FIELDS_REQUIRED))
    // 4. the write rejects
    ensures a.written.Some? && backend.create(a.written.value).Failure? ==>
      a.completion == Threw(backend.create(a.written.value).error)
  {
    var token := BearerToken.Candidate(req.authorization);
    if !Present(token) then
      Attempt(Returned(Unauthorized(TOKEN_REQUIRED)), None, None)
    else
      match backend.verify(token.value)
      case Failure(e) => Attempt(Threw(e), None, None)
      case Success(None) => Attempt(Returned(Unauthorized(INVALID_TOKEN)), None, None)
      case Success(Some(user)) =>
        match req.body
        case None => Attempt(Threw(BODY_UNDEFINED), None, None)
        case Some(Null) => Attempt(Threw(BODY_NULL), None, None)
        case Some(Obj(fields)) =>
          if !Truthy(Field(fields, TITLE)) || !Truthy(Field(fields, CONTENT)) then
            Attempt(Returned(BadRequest(FIELDS_REQUIRED)), None, None)
          else
            var record := WithAuthor(fields, user.id);
            (match backend.create(record)
             case Failure(e) => Attempt(Threw(e), None, Some(record))
             case Success(post) => Attempt(Returned(Created(post)), None, Some(record)))
        case Some(_) =>
          // a string, number, boolean or array body: `title` is undefined
          Attempt(Returned(BadRequest(FIELDS_REQUIRED)), None, None)
  }

  /** The `switch` on the method. */
  function Dispatch(req: Request, backend: Backend): Attempt {
    if req.verb == GET then HandleGet(req.query, backend)
    else if req.verb == POST then HandlePost(req, backend)
    else Attempt(Returned(MethodNotAllowed(req.verb)), None, None)
  }

  /** The whole handler: connect, dispatch on the method, and catch whatever is thrown. */
  function Handle(req: Request, env: Env, backend: Backend): (x: Exchange)
    ensures x.listed.Some? <==> backend.connect.None? && req.verb == GET
    ensures x.written.Some? <==> backend.connect.None? && req.verb == POST && Admitted(req, backend)
    ensures x.response.Created? ==> x.written.Some? && req.verb == POST
    ensures StatusCode(x.response) in {200, 201, 400, 401, 405, 500}
    ensures x.response.Internal? ==>
      (x.response.error.Some? <==> env.nodeEnv == Some(DEVELOPMENT))
    // the catch boundary: whatever a branch throws is answered with the 500 envelope
    ensures backend.connect.None? && Dispatch(req, backend).completion.Threw? ==>
      x.response == InternalError(Dispatch(req, backend).completion.message, env)
    ensures backend.connect.None? && Dispatch(req, backend).completion.Returned? ==>
      x.response == Dispatch(req, backend).completion.response
  {
    match backend.connect
    case Some(e) => Exchange(InternalError(e, env), None, None)
    case None =>
      var a := Dispatch(req, backend);
      var response :=
        match a.completion
        case Returned(r) => r
        case Threw(e) => InternalError(e, env);
      Exchange(response, a.listed, a.written)
  }

  /** The `success` field is true exactly for the 2xx statuses. */
  lemma SuccessIffTwoHundred(r: Response)
    ensures Succeeded(r) <==> 200 <= StatusCode(r) < 300
  {
  }

  /** A failing connection is reported before any dispatch, whatever the method. */
  lemma ConnectFailure(req: Request, env: Env, backend: Backend)
    requires backend.connect.Some?
    ensures Handle(req, env, backend) == Exchange(InternalError(backend.connect.value, env), None, None)
  {
  }

  /** Any method other than `GET` and `POST` (compared case-sensitively) gets 405 and touches
      no store. */
  lemma UnsupportedMethod(req: Request, env: Env, backend: Backend)
    requires backend.connect.None? && req.verb != GET && req.verb != POST
    ensures Handle(req, env, backend) == Exchange(MethodNotAllowed(req.verb), None, None)
  {
  }

  /** A `GET` whose two queries resolve sends the fetched page with the normalised page number
      and the ceiling of `total / limit` as the page count. */
  lemma ListSucceeds(req: Request, env: Env, backend: Backend)
    requires backend.connect.None? && req.verb == GET
    requires backend.find(ListQueryFor(req.query)).Success?
    requires backend.count(ListQueryFor(req.query).filter).Success?
    ensures var q := ListQueryFor(req.query);
      var total := backend.count(q.filter).value;
      Handle(req, env, backend) == Exchange(
        Listed(backend.find(q).value, total,
               Pagination.EffectivePage(req.query.page), Pagination.TotalPages(total, q.limit)),
        Some(q), None)
  {
  }

  /** Guard 1: without a non-empty token the answer is 401 "Authorization token required",
      nothing is written, and the verifier is never consulted. */
  lemma MissingTokenRejected(req: Request, env: Env, backend: Backend,
                             verify: string -> Result<Option<User>>)
    requires backend.connect.None? && req.verb == POST
    requires BearerToken.Missing(req.authorization)
    ensures Handle(req, env, backend) == Exchange(Unauthorized(TOKEN_REQUIRED), None, None)
    ensures Handle(req, env, backend.(verify := verify)) == Handle(req, env, backend)
  {
  }

  /** Guard 2: a token the verifier rejects gives 401 "Invalid or expired token", nothing is
      written, and the body is never read. */
  lemma InvalidTokenRejected(req: Request, env: Env, backend: Backend, body: Option<Value>)
    requires backend.connect.None? && req.verb == POST
    requires !BearerToken.Missing(req.authorization)
    requires backend.verify(Token(req).value) == Success(None)
    ensures Handle(req, env, backend) == Exchange(Unauthorized(INVALID_TOKEN), None, None)
    ensures Handle(req.(body := body), env, backend) == Handle(req, env, backend)
  {
  }

  /** Guard 3: for a verified user and a readable body, a falsy `title` or `content` gives 400
      "Title and content are required" and the store is never asked to create anything. A body
      that is a string, number, boolean or array has neither field and lands here too. */
  lemma MissingFieldsRejected(req: Request, env: Env, backend: Backend,
                              create: Doc -> Result<Doc>)
    requires backend.connect.None? && req.verb == POST
    requires !BearerToken.Missing(req.authorization)
    requires backend.verify(Token(req).value).Success?
    requires backend.verify(Token(req).value).value.Some?
    requires BodyReadError(req.body).None?
    requires !Truthy(BodyField(req.body.value, TITLE)) || !Truthy(BodyField(req.body.value, CONTENT))
    ensures Handle(req, env, backend) == Exchange(BadRequest(FIELDS_REQUIRED), None, None)
    ensures Handle(req, env, backend.(create := create)) == Handle(req, env, backend)
  {
  }

  /** An admitted request writes the body with `author` replaced by the verified user's id, and
      a resolved write answers 201 with the stored post. */
  lemma PostCreated(req: Request, env: Env, backend: Backend)
    requires backend.connect.None? && req.verb == POST
    requires Admitted(req, backend)
    ensures var x := Handle(req, env, backend);
      && x.written.Some?
      && x.written.value[AUTHOR] == Author(req, backend).id
      && x.written.value[TITLE] == req.body.value.fields[TITLE]
      && x.written.value[CONTENT] == req.body.value.fields[CONTENT]
      && (backend.create(x.written.value).Success? ==>
            x.response == Created(backend.create(x.written.value).value))
      && (backend.create(x.written.value).Failure? ==>
            x.response == InternalError(backend.create(x.written.value).error, env))
  {
  }

  /** A rejected paginated read is answered with the 500 envelope carrying its message; the read
      was issued and nothing is written. */
  lemma ListFails(req: Request, env: Env, backend: Backend)
    requires backend.connect.None? && req.verb == GET
    requires backend.find(ListQueryFor(req.query)).Failure?
    ensures var q := ListQueryFor(req.query);
      Handle(req, env, backend) == Exchange(InternalError(backend.find(q).error, env), Some(q), None)
  {
  }

  /** A rejected count, after a resolved read, is answered with the 500 envelope carrying its
      message. */
  lemma CountFails(req: Request, env: Env, backend: Backend)
    requires backend.connect.None? && req.verb == GET
    requires backend.find(ListQueryFor(req.query)).Success?
    requires backend.count(ListQueryFor(req.query).filter).Failure?
    ensures var q := ListQueryFor(req.query);
      Handle(req, env, backend) == Exchange(InternalError(backend.count(q.filter).error, env), Some(q), None)
  {
  }

  /** A verifier that rejects is answered with the 500 envelope carrying its message, and
      nothing is written. */
  lemma VerifyFails(req: Request, env: Env, backend: Backend)
    requires backend.connect.None? && req.verb == POST
    requires !BearerToken.Missing(req.authorization)
    requires backend.verify(Token(req).value).Failure?
    ensures Handle(req, env, backend) ==
      Exchange(InternalError(backend.verify(Token(req).value).error, env), None, None)
  {
  }

  /** For a verified user, an `undefined` or `null` body makes reading `title` throw: the 500
      envelope carries that error, and nothing is written. */
  lemma BodyUnreadable(req: Request, env: Env, backend: Backend)
    requires backend.connect.None? && req.verb == POST
    requires VerifiedUser(req, backend)
    requires req.body.None? || req.body == Some(Null)
    ensures Handle(req, env, backend) ==
      Exchange(InternalError(BodyReadError(req.body).value, env), None, None)
  {
  }
}
