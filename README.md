# terrastate: a verified model of the Terraform remote-state backend

terrastate is a small HTTP service that Terraform's `http` backend talks to.
It keeps one state document per environment name in a state directory, as the
file `<env>-tfstate.json`, and marks an environment as locked by the presence of
the file `<env>-tfstate.lock`. Every request builds a fresh `TerraformState`
holding the default document, points it at the environment of the URL, and
runs one or two of its operations: `load` (a shallow merge of the stored
document into the in-memory one), `save`, `destroy`, `lock` and `unlock`.
Exceptions are turned into `{"code", "message"}` JSON responses by
`make_json_error`.

The model is in seven modules:

- `JsonValue` (json.dfy): opaque JSON values, documents as `map<string, Json>`, and `dict.update` as `Update`.
- `Outcomes` (outcomes.dfy): the exceptions the backend raises and `Result`/`Outcome` for operations that may raise.
- `Paths` (paths.dfy): POSIX `os.path.join` and the two file-name helpers.
- `State` (state.dfy): the state directory as a `FileSystem` object holding `map<string, Content>`, one value-level function per operation, and the `TerraformState` class whose methods are proved against those functions.
- `StateProperties` (state_lemmas.dfy): what the operations promise alone and in sequence.
- `Api` (api.dfy): `make_json_error`, the `StateView` class (one method per HTTP method), one reply function per handler, and `Serve`, which builds a view per request over the shared directory.
- `ApiProperties` (api_lemmas.dfy): what a client observes across requests.

The disk is a separate object that every per-request `TerraformState` shares,
so state survives between requests while the in-memory document does not.

Some of what the code does is worth stating plainly, because a client might
expect otherwise:

- "Already locked" and "Not locked" are plain exceptions, so they are answered with status 500. Terraform's http backend expects 409 or 423 for a lock conflict.
- DELETE answers the default document merged with the request body. It does not answer a confirmation.
- POST merges its body into the default document before saving. A later GET answers exactly the body if and only if the body has the keys `version`, `serial` and `modules`.
- `TerraformState` does not validate environment names: for a name starting with `/`, the file names ignore the state path. The `/<env>` route cannot deliver a name containing `/`, because its string converter matches no `/`.
- A request without a JSON body (`get_json()` returns `None`) makes POST and DELETE raise `TypeError` before any file is touched.

## Model

| member | source | states |
|---|---|---|
| JsonValue.Update | terrastate/app.py:57 | `dict.update`: the keys are the union; the other document's keys take its values; every other key keeps its own value |
| JsonValue.UpdateAbsorbs | terrastate/app.py:57 | merging the same document twice is the same as merging it once |
| JsonValue.UpdateWithOwnResult | terrastate/app.py:57 | merging a document into itself, or into a document it was already merged into, changes nothing |
| JsonValue.UpdateCovering | terrastate/app.py:57 | when the merged document has every key of the current one, the result is exactly the merged document |
| Paths.Join | terrastate/app.py:48 | `os.path.join`: the result ends with the file name; an absolute name replaces the directory; otherwise the result starts with the directory, followed by a `/` exactly when the directory is non-empty and does not already end in `/` |
| Paths.StateFileName | terrastate/app.py:47-48 | the state file name ends with `env + "-tfstate.json"`; when `env` is relative it starts with the state path, followed by `/` unless the path is empty or ends in `/` |
| Paths.LockFileName | terrastate/app.py:50-51 | the lock file name ends with `env + "-tfstate.lock"`; when `env` is relative it starts with the state path, followed by `/` unless the path is empty or ends in `/` |
| Paths.StateAndLockNamesDiffer | terrastate/app.py:47-51 | no state file name equals any lock file name, for any state paths and environments |
| Paths.JoinInjective | terrastate/app.py:48 | joining two relative names onto the same directory gives equal paths only for equal names |
| Paths.StateFileNameInjective | terrastate/app.py:47-48 | two environments whose names do not start with `/` share a state file only if they are the same environment |
| Paths.LockFileNameInjective | terrastate/app.py:50-51 | two environments whose names do not start with `/` share a lock file only if they are the same environment |
| Paths.AbsoluteEnvironmentIgnoresStatePath | terrastate/app.py:47-51 | for an environment starting with `/`, both file names are the environment plus its suffix, and the state path is ignored |
| State.RootModule | terrastate/app.py:30-34 | the root module is a module record with path `["root"]`, no outputs and no resources |
| State.DefaultDocument | terrastate/app.py:27-35 | the default document has exactly the keys `version` = 1, `serial` = 0 and `modules` = the single root module, and has the state envelope |
| State.Loaded | terrastate/app.py:53-57 | `load` succeeds exactly when the state file is absent or holds a document |
| State.Saved | terrastate/app.py:59-61 | after `save` the directory holds the old names plus the state file |
| State.Destroyed | terrastate/app.py:63-65 | after `destroy` the directory holds the old names minus the state file |
| State.Locked | terrastate/app.py:67-71 | `lock` succeeds exactly when the lock file is absent, and then adds just that name |
| State.Unlocked | terrastate/app.py:73-77 | `unlock` succeeds exactly when the lock file is present, and then removes just that name |
| State.TerraformState.constructor | terrastate/app.py:22-35 | a fresh state holds the default document, and its environment is `None`, which formats as `"None"` |
| State.TerraformState.Load | terrastate/app.py:53-57 | the in-memory document becomes the `Loaded` document, or stays as it was when `load` raises |
| State.TerraformState.Save | terrastate/app.py:59-61 | the directory becomes `Saved` of the in-memory document under the environment's state file |
| State.TerraformState.Destroy | terrastate/app.py:63-65 | the directory becomes `Destroyed` at the environment's state file |
| State.TerraformState.Lock | terrastate/app.py:67-71 | the directory becomes the `Locked` one, or is unchanged and "Already locked" is raised |
| State.TerraformState.Unlock | terrastate/app.py:73-77 | the directory becomes the `Unlocked` one, or is unchanged and "Not locked" is raised |
| StateProperties.LoadWithoutFileKeepsDocument | terrastate/app.py:54-55 | `load` without a state file leaves the document unchanged |
| StateProperties.LoadIsShallowMerge | terrastate/app.py:56-57 | `load` of a stored document: stored keys override, keys the file lacks keep their current values |
| StateProperties.SaveThenLoad | terrastate/app.py:53-61 | after `save` the stored entry is the saved document, and `load` then leaves the document unchanged |
| StateProperties.SaveTouchesOnlyItsFile | terrastate/app.py:59-61 | `save` leaves every other file as it was |
| StateProperties.DestroyRemovesOnlyItsFile | terrastate/app.py:63-65 | `destroy` removes the state file, present or not, and leaves every other file as it was |
| StateProperties.DestroyIdempotent | terrastate/app.py:63-65 | `destroy` twice has the effect of `destroy` once |
| StateProperties.LockWhenLocked | terrastate/app.py:68-69 | `lock` on an existing lock file raises "Already locked" |
| StateProperties.LockWhenUnlocked | terrastate/app.py:67-71 | `lock` without a lock file creates it as a lock marker and leaves every other file as it was |
| StateProperties.UnlockWhenUnlocked | terrastate/app.py:76-77 | `unlock` without a lock file raises "Not locked" |
| StateProperties.UnlockWhenLocked | terrastate/app.py:74-75 | `unlock` removes an existing lock file and leaves every other file as it was |
| StateProperties.LockThenUnlockRestores | terrastate/app.py:67-77 | starting unlocked, `lock` then `unlock` gives back the original directory |
| StateProperties.UnlockThenLockRestores | terrastate/app.py:67-77 | starting with a lock marker, `unlock` then `lock` gives back the original directory |
| StateProperties.LockingKeepsStateFiles | terrastate/app.py:47-51 | `lock` and `unlock` of any environment never change any state file |
| StateProperties.StoringKeepsLockFiles | terrastate/app.py:47-51 | `save` and `destroy` of any environment never change any lock file |
| Api.MakeJsonError | terrastate/app.py:140-151 | an `HTTPException` keeps its code and description; any other exception gives 500 and its string; the body holds exactly `code` and `message`, and the status equals `code` |
| Api.Respond | terrastate/app.py:101 | a returned document is answered with 200 and the document; an error is answered with a body whose `code` equals the status |
| Api.MergeBody | terrastate/app.py:105 | merging the request body succeeds exactly for a JSON object body; no JSON body raises `TypeError`, an unparsable one raises `BadRequest` |
| Api.GetReply | terrastate/app.py:98-101 | GET never changes the directory |
| Api.PostReply | terrastate/app.py:103-107 | POST succeeds exactly for a JSON object body, and a failed POST leaves the directory unchanged |
| Api.DeleteReply | terrastate/app.py:109-113 | DELETE succeeds exactly for a JSON object body, and a failed DELETE leaves the directory unchanged |
| Api.LockReply | terrastate/app.py:115-119 | LOCK raises "Already locked" exactly when the lock file exists, and then changes nothing; the successful case is stated by `LockAnswersLikeGet` |
| Api.UnlockReply | terrastate/app.py:121-125 | UNLOCK raises "Not locked" exactly when the lock file is absent, and then changes nothing; the successful case is stated by `UnlockAnswersLikeGet` |
| Api.Handle | terrastate/app.py:93-96 | a request starts from the default document and changes no file other than the state file and the lock file of its environment |
| Api.StateView.constructor | terrastate/app.py:93-96 | a view builds a fresh state over the shared directory holding the default document |
| Api.StateView.Get | terrastate/app.py:98-101 | sets the environment, then loads; result and directory are `GetReply` |
| Api.StateView.Post | terrastate/app.py:103-107 | sets the environment, merges the body, then saves; result and directory are `PostReply` |
| Api.StateView.Delete | terrastate/app.py:109-113 | sets the environment, merges the body, then destroys and answers the merged document; result and directory are `DeleteReply` |
| Api.StateView.Lock | terrastate/app.py:115-119 | sets the environment, locks, then loads only if locking did not raise; result and directory are `LockReply` |
| Api.StateView.Unlock | terrastate/app.py:121-125 | sets the environment, unlocks, then loads only if unlocking did not raise; result and directory are `UnlockReply` |
| Api.Serve | terrastate/app.py:132-151 | one request on a fresh view over the shared directory: the response and the new directory are those of `Handle`, with exceptions passed through `make_json_error` |
| ApiProperties.GetOfUnwrittenEnvironment | terrastate/app.py:98-101 | GET of a never-written environment answers 200 with the default document and writes nothing |
| ApiProperties.PostThenGet | terrastate/app.py:98-107 | POST stores and answers the default document merged with the body; GET right after answers the same document and writes nothing |
| ApiProperties.PostThenGetFullDocument | terrastate/app.py:98-107 | GET after POST answers exactly the body if and only if the body has every key of the default document |
| ApiProperties.BodylessWriteChangesNothing | terrastate/app.py:103-113 | POST or DELETE without a JSON object body changes no file and is answered 500 (no body) or 400 (unparsable body) |
| ApiProperties.DeleteEchoesMergedBody | terrastate/app.py:109-113 | DELETE removes the state file whether or not it existed, and answers the merged request body, not the stored document |
| ApiProperties.DeleteIdempotent | terrastate/app.py:109-113 | a second DELETE succeeds and changes nothing more than the first |
| ApiProperties.SecondLockFails | terrastate/app.py:115-119 | after any LOCK, a second LOCK raises "Already locked", is answered 500 and changes nothing |
| ApiProperties.UnlockWithoutLockFails | terrastate/app.py:121-125 | UNLOCK without a lock file raises "Not locked", is answered 500 and changes nothing |
| ApiProperties.LockAnswersLikeGet | terrastate/app.py:115-119 | a LOCK without a lock file adds the lock marker, changes nothing else, and answers what GET answers |
| ApiProperties.UnlockAnswersLikeGet | terrastate/app.py:121-125 | an UNLOCK with a lock file removes it, changes nothing else, and answers what GET answers |
| ApiProperties.LockUnlockLockCycle | terrastate/app.py:115-125 | from the unlocked state LOCK, UNLOCK and LOCK all succeed; UNLOCK restores the directory and the second LOCK repeats the first |
| ApiProperties.OtherEnvironmentsUntouched | terrastate/app.py:47-51 | a request for one environment leaves the state and lock files of every other environment alone, when neither name starts with `/` |
| ApiProperties.LockingAndStoringAreSeparate | terrastate/app.py:47-51 | LOCK and UNLOCK never change a state file; GET, POST and DELETE never change a lock file |

## Left out

- Creating the state directory (`_mkstatedir`, `os.makedirs`) and reading `config.json` (`Config`): the state path is a parameter.
- Failures of the operating system (permissions, a full disk, a directory where a file is expected): no `OSError` or `IOError` is modelled.
- JSON floating-point numbers are not represented; documents are opaque to the backend, so nothing depends on them.
- JSON text: pretty-printing on save and parsing on load. A stored file holds either a document or the lock marker. A stored JSON value that is not an object is not modelled.
- Request bodies that parse to JSON but are not objects (arrays, numbers, strings), which `dict.update` treats in its own ways.
- Flask and werkzeug plumbing: route registration, `as_view`, `jsonify` beyond status and body, and the error-handler registration loop. HEAD (werkzeug adds it to the GET rule, and `MethodView` serves it with `get`, dropping the body) and OPTIONS (answered by Flask itself) are not modelled. Other methods get 405 from Flask; they are not modelled either.
- The `/` route, which calls the handlers with `env=None`. The model takes the environment as a plain string, and `"None"` is the name that route would use.
- Concurrency: the gap between the existence check and the create in `lock`, and the lack of atomic writes in `save`. The model is sequential and claims no atomicity.
- An `HTTPException` whose code is `None`.
- The Flask version is taken to be one before 1.1, where the 500 handler receives the raised exception itself. From Flask 1.1 on, it receives an `InternalServerError` with werkzeug's generic description, so the message of a 500 response would differ from the model's.
- terratemplate/render.py is not part of this model.
