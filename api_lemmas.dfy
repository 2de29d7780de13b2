/** What a sequence of requests against one state directory observes. */
module ApiProperties {
  import opened JsonValue
  import opened Outcomes
  import opened Paths
  import opened State
  import opened StateProperties
  import opened Api

  /** GET of an environment that was never written answers the default document. */
  lemma GetOfUnwrittenEnvironment(files: Files, p: string, env: string, body: Body)
    requires StateFileName(p, env) !in files
    ensures Handle(files, p, Request(GET, env, body)) == Reply(Success(DefaultDocument()), files)
    ensures Respond(Handle(files, p, Request(GET, env, body)).outcome) == Response(200, Object(DefaultDocument()))
  {
  }

  /** POST stores the default document merged with the body and answers it; a
      GET right after answers the same document and writes nothing. */
  lemma PostThenGet(files: Files, p: string, env: string, b: Document, body: Body)
    ensures var posted := Handle(files, p, Request(POST, env, Parsed(b)));
      && posted.outcome == Success(Update(DefaultDocument(), b))
      && posted.files[StateFileName(p, env)] == JsonFile(Update(DefaultDocument(), b))
      && Handle(posted.files, p, Request(GET, env, body)) == Reply(posted.outcome, posted.files)
  {
    var merged := Update(DefaultDocument(), b);
    UpdateWithOwnResult(DefaultDocument(), b);
    assert Loaded(Saved(files, StateFileName(p, env), merged), StateFileName(p, env), DefaultDocument())
      == Success(Update(DefaultDocument(), merged));
  }

  /** GET after POST answers exactly the body if and only if the body carries
      every key of the default envelope. */
  lemma PostThenGetFullDocument(files: Files, p: string, env: string, b: Document, body: Body)
    ensures var posted := Handle(files, p, Request(POST, env, Parsed(b)));
      (Handle(posted.files, p, Request(GET, env, body)).outcome == Success(b) <==> DefaultDocument().Keys <= b.Keys)
  {
    PostThenGet(files, p, env, b, body);
    if DefaultDocument().Keys <= b.Keys {
      UpdateCovering(DefaultDocument(), b);
    }
  }

  /** POST or DELETE without a JSON object body raises before touching the
      disk: 500 when there is no JSON body, 400 when it does not parse. */
  lemma BodylessWriteChangesNothing(files: Files, p: string, env: string, body: Body, verb: Method)
    requires verb in {POST, DELETE} && !body.Parsed?
    ensures Handle(files, p, Request(verb, env, body)).files == files
    ensures var resp := Respond(Handle(files, p, Request(verb, env, body)).outcome);
      resp.status == if body.Absent? then 500 else 400
  {
  }

  /** DELETE removes the state file, whether or not it existed, and answers
      the default document merged with the request body, not what was stored. */
  lemma DeleteEchoesMergedBody(files: Files, p: string, env: string, b: Document)
    ensures var deleted := Handle(files, p, Request(DELETE, env, Parsed(b)));
      && deleted.outcome == Success(Update(DefaultDocument(), b))
      && StateFileName(p, env) !in deleted.files
  {
  }

  /** A second DELETE changes nothing more than the first. */
  lemma DeleteIdempotent(files: Files, p: string, env: string, b: Document, c: Document)
    ensures var once := Handle(files, p, Request(DELETE, env, Parsed(b)));
      && Handle(once.files, p, Request(DELETE, env, Parsed(c))).files == once.files
      && Handle(once.files, p, Request(DELETE, env, Parsed(c))).outcome.Success?
  {
  }

  /** A second LOCK, whatever the first did, raises "Already locked", which is
      answered with status 500, and changes nothing. */
  lemma SecondLockFails(files: Files, p: string, env: string, b: Body, c: Body)
    ensures var first := Handle(files, p, Request(LOCK, env, b));
      && Handle(first.files, p, Request(LOCK, env, c)) == Reply(Failure(AlreadyLocked), first.files)
      && Respond(Failure(AlreadyLocked)) == Response(500, Object(map["code" := Int(500), "message" := Str("Already locked")]))
  {
  }

  /** UNLOCK without a lock file raises "Not locked" and changes nothing. */
  lemma UnlockWithoutLockFails(files: Files, p: string, env: string, b: Body)
    requires LockFileName(p, env) !in files
    ensures Handle(files, p, Request(UNLOCK, env, b)) == Reply(Failure(NotLocked), files)
    ensures Respond(Failure(NotLocked)).status == 500
  {
  }

  /** A successful LOCK creates the lock marker, changes nothing else, and
      answers what a GET of the environment answers. */
  lemma LockAnswersLikeGet(files: Files, p: string, env: string, doc: Document)
    requires LockFileName(p, env) !in files
    ensures LockReply(files, p, env, doc).files == files[LockFileName(p, env) := LockMarker]
    ensures LockReply(files, p, env, doc).outcome == GetReply(files, p, env, doc).outcome
  {
    StateAndLockNamesDiffer(p, env, p, env);
    assert SameEntry(files[LockFileName(p, env) := LockMarker], files, StateFileName(p, env));
  }

  /** A successful UNLOCK removes the lock file, changes nothing else, and
      answers what a GET of the environment answers. */
  lemma UnlockAnswersLikeGet(files: Files, p: string, env: string, doc: Document)
    requires LockFileName(p, env) in files
    ensures UnlockReply(files, p, env, doc).files == files - {LockFileName(p, env)}
    ensures UnlockReply(files, p, env, doc).outcome == GetReply(files, p, env, doc).outcome
  {
    StateAndLockNamesDiffer(p, env, p, env);
    assert SameEntry(files - {LockFileName(p, env)}, files, StateFileName(p, env));
  }

  /** LOCK, UNLOCK, LOCK from the unlocked state all succeed; the UNLOCK
      restores the directory and the second LOCK reproduces the first. */
  lemma LockUnlockLockCycle(files: Files, p: string, env: string, b: Body)
    requires LockFileName(p, env) !in files
    requires StateFileName(p, env) !in files || files[StateFileName(p, env)].JsonFile?
    ensures var first := Handle(files, p, Request(LOCK, env, b));
      var second := Handle(first.files, p, Request(UNLOCK, env, b));
      var third := Handle(second.files, p, Request(LOCK, env, b));
      && first.outcome.Success? && second.outcome.Success? && third.outcome.Success?
      && first.files == files[LockFileName(p, env) := LockMarker]
      && second.files == files
      && third.files == first.files
  {
    var lock, state := LockFileName(p, env), StateFileName(p, env);
    StateAndLockNamesDiffer(p, env, p, env);
    LockThenUnlockRestores(files, lock);
    assert SameEntry(files[lock := LockMarker], files, state);
  }

  /** Requests for one environment leave the files of every other environment
      alone, provided neither name starts with `/`. */
  lemma OtherEnvironmentsUntouched(files: Files, p: string, req: Request, other: string)
    requires !IsAbsolute(req.env) && !IsAbsolute(other) && other != req.env
    ensures SameEntry(Handle(files, p, req).files, files, StateFileName(p, other))
    ensures SameEntry(Handle(files, p, req).files, files, LockFileName(p, other))
  {
    if StateFileName(p, other) == StateFileName(p, req.env) {
      StateFileNameInjective(p, other, req.env);
    }
    if LockFileName(p, other) == LockFileName(p, req.env) {
      LockFileNameInjective(p, other, req.env);
    }
    StateAndLockNamesDiffer(p, other, p, req.env);
    StateAndLockNamesDiffer(p, req.env, p, other);
  }

  /** LOCK and UNLOCK never change a state file; GET, POST and DELETE never
      change a lock file. */
  lemma LockingAndStoringAreSeparate(files: Files, p: string, req: Request, q: string, f: string)
    ensures req.verb in {LOCK, UNLOCK} ==> SameEntry(Handle(files, p, req).files, files, StateFileName(q, f))
    ensures req.verb in {GET, POST, DELETE} ==> SameEntry(Handle(files, p, req).files, files, LockFileName(q, f))
  {
    LockingKeepsStateFiles(files, p, req.env, q, f);
    StoringKeepsLockFiles(files, p, req.env, Update(DefaultDocument(), if req.body.Parsed? then req.body.doc else map[]), q, f);
  }
}
