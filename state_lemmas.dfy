/** What the five state operations promise, alone and in sequence. */
module StateProperties {
  import opened JsonValue
  import opened Outcomes
  import opened Paths
  import opened State

  /** Without a state file, `load` leaves the in-memory document as it was. */
  lemma LoadWithoutFileKeepsDocument(files: Files, name: string, doc: Document)
    requires name !in files
    ensures Loaded(files, name, doc) == Success(doc)
  {
  }

  /** With a state file, `load` is a shallow merge: stored keys override,
      keys the file lacks keep their current values. */
  lemma LoadIsShallowMerge(files: Files, name: string, doc: Document)
    requires name in files && files[name].JsonFile?
    ensures var r := Loaded(files, name, doc);
      && r.Success?
      && r.value.Keys == doc.Keys + files[name].doc.Keys
      && (forall k :: k in files[name].doc ==> r.value[k] == files[name].doc[k])
      && (forall k :: k in doc && k !in files[name].doc ==> r.value[k] == doc[k])
  {
  }

  /** `save` then `load` of the same file: the stored entry is the saved
      document, and loading it back leaves the document unchanged. */
  lemma SaveThenLoad(files: Files, name: string, doc: Document)
    ensures Saved(files, name, doc)[name] == JsonFile(doc)
    ensures Loaded(Saved(files, name, doc), name, doc) == Success(doc)
  {
    UpdateWithOwnResult(doc, doc);
  }

  /** `save` touches no other file. */
  lemma SaveTouchesOnlyItsFile(files: Files, name: string, doc: Document, other: string)
    requires other != name
    ensures SameEntry(Saved(files, name, doc), files, other)
  {
  }

  /** `destroy` removes the file and nothing else; a missing file is no error. */
  lemma DestroyRemovesOnlyItsFile(files: Files, name: string, other: string)
    requires other != name
    ensures name !in Destroyed(files, name)
    ensures SameEntry(Destroyed(files, name), files, other)
  {
  }

  /** `destroy` twice has the effect of `destroy` once. */
  lemma DestroyIdempotent(files: Files, name: string)
    ensures Destroyed(Destroyed(files, name), name) == Destroyed(files, name)
  {
  }

  /** `lock` on an existing lock file raises "Already locked". */
  lemma LockWhenLocked(files: Files, name: string)
    requires name in files
    ensures Locked(files, name) == Failure(AlreadyLocked)
  {
  }

  /** `lock` without a lock file creates it and leaves every other file as it was. */
  lemma LockWhenUnlocked(files: Files, name: string, other: string)
    requires name !in files && other != name
    ensures Locked(files, name).Success?
    ensures Locked(files, name).value[name] == LockMarker
    ensures SameEntry(Locked(files, name).value, files, other)
  {
  }

  /** `unlock` without a lock file raises "Not locked". */
  lemma UnlockWhenUnlocked(files: Files, name: string)
    requires name !in files
    ensures Unlocked(files, name) == Failure(NotLocked)
  {
  }

  /** `unlock` removes an existing lock file and leaves every other file as it was. */
  lemma UnlockWhenLocked(files: Files, name: string, other: string)
    requires name in files && other != name
    ensures Unlocked(files, name).Success?
    ensures name !in Unlocked(files, name).value
    ensures SameEntry(Unlocked(files, name).value, files, other)
  {
  }

  /** Starting unlocked, `lock` then `unlock` restores the directory exactly. */
  lemma LockThenUnlockRestores(files: Files, name: string)
    requires name !in files
    ensures Locked(files, name).Success?
    ensures Unlocked(Locked(files, name).value, name) == Success(files)
  {
    var locked := files[name := LockMarker];
    assert locked - {name} == files;
  }

  /** Starting locked, `unlock` then `lock` restores the directory if the lock
      file held the marker. */
  lemma UnlockThenLockRestores(files: Files, name: string)
    requires name in files && files[name] == LockMarker
    ensures Unlocked(files, name).Success?
    ensures Locked(Unlocked(files, name).value, name) == Success(files)
  {
    var unlocked := files - {name};
    assert unlocked[name := LockMarker] == files;
  }

  /** `lock` and `unlock` of any environment never touch any state file. */
  lemma LockingKeepsStateFiles(files: Files, p: string, e: string, q: string, f: string)
    ensures Locked(files, LockFileName(p, e)).Success? ==>
      SameEntry(Locked(files, LockFileName(p, e)).value, files, StateFileName(q, f))
    ensures Unlocked(files, LockFileName(p, e)).Success? ==>
      SameEntry(Unlocked(files, LockFileName(p, e)).value, files, StateFileName(q, f))
  {
    StateAndLockNamesDiffer(q, f, p, e);
  }

  /** `save` and `destroy` of any environment never touch any lock file. */
  lemma StoringKeepsLockFiles(files: Files, p: string, e: string, doc: Document, q: string, f: string)
    ensures SameEntry(Saved(files, StateFileName(p, e), doc), files, LockFileName(q, f))
    ensures SameEntry(Destroyed(files, StateFileName(p, e)), files, LockFileName(q, f))
  {
    StateAndLockNamesDiffer(p, e, q, f);
  }
}
