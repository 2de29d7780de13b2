/** The HTTP side: `StateView`, which maps each request method to operations on
    a freshly built `TerraformState`, and `make_json_error`, which turns a raised
    exception into a JSON error response. */
module Api {
  import opened JsonValue
  import opened Outcomes
  import opened Paths
  import opened State

  /** The methods routed to `/<env>`. */
  datatype Method = GET | POST | DELETE | LOCK | UNLOCK

  /** What `request.get_json()` finds: no JSON body (it returns `None`), a body
      declared as JSON that does not parse, or a JSON object. */
  datatype Body = Absent | Malformed | Parsed(doc: Document)

  datatype Request = Request(verb: Method, env: string, body: Body)

  /** A response: its status code and its JSON body. */
  datatype Response = Response(status: int, body: Json)

  /** What a handler returns (or raises), and the state directory afterwards. */
  datatype Reply = Reply(outcome: Result<Document>, files: Files)

  /** `make_json_error`: an `HTTPException` keeps its code and description,
      any other exception becomes code 500 with its string form; the status is
      the code in the body. */
  function MakeJsonError(e: Error): (r: Response)
    ensures r.body.Object? && r.body.fields.Keys == {"code", "message"}
    ensures r.body.fields["code"] == Int(r.status)
    ensures e.HttpException? ==> r.status == e.code && r.body.fields["message"] == Str(e.description)
    ensures e.Exception? ==> r.status == 500 && r.body.fields["message"] == Str(e.message)
  {
    var (code, message) := match e
      case HttpException(c, d) => (c, d)
      case Exception(m) => (500, m);
    Response(code, Object(map["code" := Int(code), "message" := Str(message)]))
  }

  /** `jsonify(self.state)` for a handler that returned, the registered error
      handler for one that raised. */
  function Respond(outcome: Result<Document>): (r: Response)
    ensures outcome.Success? ==> r.status == 200 && r.body == Object(outcome.value)
    ensures outcome.Failure? ==> r.body.Object? && "code" in r.body.fields && r.body.fields["code"] == Int(r.status)
  {
    match outcome
    case Success(d) => Response(200, Object(d))
    case Failure(e) => MakeJsonError(e)
  }

  /** `self.state.update(request.get_json())`: the merged document, or what
      `get_json` or `update` raises. */
  function MergeBody(doc: Document, body: Body): (r: Result<Document>)
    ensures r.Success? <==> body.Parsed?
    ensures body.Absent? ==> r == Failure(NoneNotIterable)
    ensures body.Malformed? ==> r == Failure(BadRequest)
    ensures body.Parsed? ==> r.value.Keys == doc.Keys + body.doc.Keys
  {
    match body
    case Absent => Failure(NoneNotIterable)
    case Malformed => Failure(BadRequest)
    case Parsed(b) => Success(Update(doc, b))
  }

  /** `get`: load the environment's document. */
  function GetReply(files: Files, p: string, env: string, doc: Document): (r: Reply)
    ensures r.files == files
  {
    Reply(Loaded(files, StateFileName(p, env), doc), files)
  }

  /** `post`: merge the body, then save. */
  function PostReply(files: Files, p: string, env: string, body: Body, doc: Document): (r: Reply)
    ensures r.outcome.Success? <==> body.Parsed?
    ensures r.outcome.Failure? ==> r.files == files
  {
    match MergeBody(doc, body)
    case Failure(e) => Reply(Failure(e), files)
    case Success(d) => Reply(Success(d), Saved(files, StateFileName(p, env), d))
  }

  /** `delete`: merge the body, destroy, and return the merged document. */
  function DeleteReply(files: Files, p: string, env: string, body: Body, doc: Document): (r: Reply)
    ensures r.outcome.Success? <==> body.Parsed?
    ensures r.outcome.Failure? ==> r.files == files
  {
    match MergeBody(doc, body)
    case Failure(e) => Reply(Failure(e), files)
    case Success(d) => Reply(Success(d), Destroyed(files, StateFileName(p, env)))
  }

  /** `lock`: take the lock, then load; no load happens when the lock raises. */
  function LockReply(files: Files, p: string, env: string, doc: Document): (r: Reply)
    ensures r.outcome == Failure(AlreadyLocked) <==> LockFileName(p, env) in files
    ensures LockFileName(p, env) in files ==> r.files == files
  {
    match Locked(files, LockFileName(p, env))
    case Failure(e) => Reply(Failure(e), files)
    case Success(f) => Reply(Loaded(f, StateFileName(p, env), doc), f)
  }

  /** `unlock`: release the lock, then load; no load happens when the release raises. */
  function UnlockReply(files: Files, p: string, env: string, doc: Document): (r: Reply)
    ensures r.outcome == Failure(NotLocked) <==> LockFileName(p, env) !in files
    ensures LockFileName(p, env) !in files ==> r.files == files
  {
    match Unlocked(files, LockFileName(p, env))
    case Failure(e) => Reply(Failure(e), files)
    case Success(f) => Reply(Loaded(f, StateFileName(p, env), doc), f)
  }

  /** One request, served by a view built for it: every request starts from
      the default document, and writes at most the state file and the lock
      file of its own environment. */
  function Handle(files: Files, p: string, req: Request): (r: Reply)
    ensures forall name :: name != StateFileName(p, req.env) && name != LockFileName(p, req.env) ==>
      SameEntry(r.files, files, name)
  {
    var doc := DefaultDocument();
    match req.verb
    case GET => GetReply(files, p, req.env, doc)
    case POST => PostReply(files, p, req.env, req.body, doc)
    case DELETE => DeleteReply(files, p, req.env, req.body, doc)
    case LOCK => LockReply(files, p, req.env, doc)
    case UNLOCK => UnlockReply(files, p, req.env, doc)
  }

  class StateView {
    const state: TerraformState

    constructor (fs: FileSystem, statePath: string)
      ensures fresh(state) && state.fs == fs && state.statePath == statePath
      ensures state.env == "None" && state.doc == DefaultDocument()
    {
      state := new TerraformState(fs, statePath);
    }

    method Get(env: string) returns (r: Result<Document>)
      modifies state
      ensures state.env == env
      ensures r.Success? ==> state.doc == r.value
      ensures Reply(r, state.fs.files) == GetReply(old(state.fs.files), state.statePath, env, old(state.doc))
    {
      state.env := env;
      var loaded := state.Load();
      r := if loaded.Pass? then Success(state.doc) else Failure(loaded.error);
    }

    method Post(env: string, body: Body) returns (r: Result<Document>)
      modifies state, state.fs
      ensures state.env == env
      ensures r.Success? ==> state.doc == r.value
      ensures Reply(r, state.fs.files) == PostReply(old(state.fs.files), state.statePath, env, body, old(state.doc))
    {
      state.env := env;
      var merged := MergeBody(state.doc, body);
      if merged.Failure? {
        return Failure(merged.error);
      }
      state.doc := merged.value;
      state.Save();
      r := Success(state.doc);
    }

    method Delete(env: string, body: Body) returns (r: Result<Document>)
      modifies state, state.fs
      ensures state.env == env
      ensures r.Success? ==> state.doc == r.value
      ensures Reply(r, state.fs.files) == DeleteReply(old(state.fs.files), state.statePath, env, body, old(state.doc))
    {
      state.env := env;
      var merged := MergeBody(state.doc, body);
      if merged.Failure? {
        return Failure(merged.error);
      }
      state.doc := merged.value;
      state.Destroy();
      r := Success(state.doc);
    }

    method Lock(env: string) returns (r: Result<Document>)
      modifies state, state.fs
      ensures state.env == env
      ensures r.Success? ==> state.doc == r.value
      ensures Reply(r, state.fs.files) == LockReply(old(state.fs.files), state.statePath, env, old(state.doc))
    {
      state.env := env;
      var locked := state.Lock();
      if locked.Fail? {
        return Failure(locked.error);
      }
      var loaded := state.Load();
      r := if loaded.Pass? then Success(state.doc) else Failure(loaded.error);
    }

    method Unlock(env: string) returns (r: Result<Document>)
      modifies state, state.fs
      ensures state.env == env
      ensures r.Success? ==> state.doc == r.value
      ensures Reply(r, state.fs.files) == UnlockReply(old(state.fs.files), state.statePath, env, old(state.doc))
    {
      state.env := env;
      var unlocked := state.Unlock();
      if unlocked.Fail? {
        return Failure(unlocked.error);
      }
      var loaded := state.Load();
      r := if loaded.Pass? then Success(state.doc) else Failure(loaded.error);
    }
  }

  /** Serve one request: build a view over the shared state directory,
      dispatch on the method, and turn the result or the exception into a
      response. */
  method Serve(fs: FileSystem, statePath: string, req: Request) returns (resp: Response)
    modifies fs
    ensures resp == Respond(Handle(old(fs.files), statePath, req).outcome)
    ensures fs.files == Handle(old(fs.files), statePath, req).files
  {
    var view := new StateView(fs, statePath);
    var r: Result<Document>;
    match req.verb {
      case GET => r := view.Get(req.env);
      case POST => r := view.Post(req.env, req.body);
      case DELETE => r := view.Delete(req.env, req.body);
      case LOCK => r := view.Lock(req.env);
      case UNLOCK => r := view.Unlock(req.env);
    }
    resp := Respond(r);
  }
}
