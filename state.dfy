/** `TerraformState`: the in-memory state document of one environment and the
    five operations that move it to and from the state directory. */
module State {
  import opened JsonValue
  import opened Outcomes
  import opened Paths

  /** What a file in the state directory holds: a state document written by
      `save`, or the text a `lock` writes into a lock file. */
  datatype Content = JsonFile(doc: Document) | LockMarker

  /** The state directory: file name to content. Presence of a name is what
      `os.path.isfile` asks about. */
  type Files = map<string, Content>

  /** The file `name` is present in both directories with the same content, or
      absent from both. */
  predicate SameEntry(a: Files, b: Files, name: string)
  {
    (name in a <==> name in b) && (name in a ==> a[name] == b[name])
  }

  /** The disk, shared by every request (and every process) that uses the same
      state directory. */
  class FileSystem {
    var files: Files

    constructor (files: Files)
      ensures this.files == files
    {
      this.files := files;
    }
  }

  /** The root module of an empty state: path `["root"]`, no outputs and no
      resources. */
  function RootModule(): (m: Json)
    ensures IsModule(m) && m.fields["path"] == Array([Str("root")])
    ensures m.fields["outputs"] == Object(map[]) && m.fields["resources"] == Object(map[])
  {
    Object(map["path" := Array([Str("root")]), "outputs" := Object(map[]), "resources" := Object(map[])])
  }

  /** A module record: a path of names, and objects of outputs and resources. */
  predicate IsModule(m: Json)
  {
    && m.Object?
    && "path" in m.fields && m.fields["path"].Array?
    && (forall n :: n in m.fields["path"].items ==> n.Str?)
    && "outputs" in m.fields && m.fields["outputs"].Object?
    && "resources" in m.fields && m.fields["resources"].Object?
  }

  /** The envelope every state document has: integer `version` and `serial`,
      and an array of modules. */
  predicate HasEnvelope(d: Document)
  {
    && "version" in d && d["version"].Int?
    && "serial" in d && d["serial"].Int?
    && "modules" in d && d["modules"].Array?
    && (forall m :: m in d["modules"].items ==> IsModule(m))
  }

  /** The document a freshly built `TerraformState` holds. */
  function DefaultDocument(): (d: Document)
    ensures HasEnvelope(d) && d.Keys == {"version", "serial", "modules"}
    ensures d["version"] == Int(1) && d["serial"] == Int(0)
    ensures d["modules"] == Array([RootModule()])
  {
    map["version" := Int(1), "serial" := Int(0), "modules" := Array([RootModule()])]
  }

  /** `load` on the file `name`, starting from the in-memory document `doc`:
      the document after the merge, or the exception `json.load` raises. */
  function Loaded(files: Files, name: string, doc: Document): (r: Result<Document>)
    ensures r.Success? <==> name !in files || files[name].JsonFile?
  {
    if name !in files then Success(doc)
    else match files[name]
      case JsonFile(stored) => Success(Update(doc, stored))
      case LockMarker => Failure(NotJson)
  }

  /** `save` of `doc` into the file `name`. */
  function Saved(files: Files, name: string, doc: Document): (r: Files)
    ensures r.Keys == files.Keys + {name}
  {
    files[name := JsonFile(doc)]
  }

  /** `destroy` of the file `name`. */
  function Destroyed(files: Files, name: string): (r: Files)
    ensures r.Keys == files.Keys - {name}
  {
    files - {name}
  }

  /** `lock` on the lock file `name`: the new directory, or the exception. */
  function Locked(files: Files, name: string): (r: Result<Files>)
    ensures r.Success? <==> name !in files
    ensures r.Success? ==> r.value.Keys == files.Keys + {name}
  {
    if name in files then Failure(AlreadyLocked) else Success(files[name := LockMarker])
  }

  /** `unlock` on the lock file `name`: the new directory, or the exception. */
  function Unlocked(files: Files, name: string): (r: Result<Files>)
    ensures r.Success? <==> name in files
    ensures r.Success? ==> r.value.Keys == files.Keys - {name}
  {
    if name in files then Success(files - {name}) else Failure(NotLocked)
  }

  class TerraformState {
    /** The environment the next operation works on. */
    var env: string
    /** The dictionary contents of the Python object. */
    var doc: Document
    const statePath: string
    const fs: FileSystem

    /** A fresh state: the default document and no environment yet. Python's
        `None` formats as `"None"` in a file name, so that is the environment
        an operation before any assignment would use. */
    constructor (fs: FileSystem, statePath: string)
      ensures this.fs == fs && this.statePath == statePath
      ensures env == "None" && doc == DefaultDocument()
    {
      this.fs := fs;
      this.statePath := statePath;
      env := "None";
      doc := DefaultDocument();
    }

    function StateFile(): (name: string)
      reads this
    {
      StateFileName(statePath, env)
    }

    function LockFile(): (name: string)
      reads this
    {
      LockFileName(statePath, env)
    }

    /** Merge the stored document of `env`, if there is one, into `doc`. */
    method Load() returns (r: Outcome)
      modifies this`doc
      ensures match Loaded(fs.files, StateFile(), old(doc))
        case Success(d) => r == Pass && doc == d
        case Failure(e) => r == Fail(e) && doc == old(doc)
    {
      var name := StateFile();
      if name !in fs.files {
        return Pass;
      }
      match fs.files[name]
      case JsonFile(stored) =>
        doc := Update(doc, stored);
        r := Pass;
      case LockMarker =>
        r := Fail(NotJson);
    }

    /** Write `doc` over the state file of `env`. */
    method Save()
      modifies fs
      ensures fs.files == Saved(old(fs.files), StateFile(), doc)
    {
      fs.files := fs.files[StateFile() := JsonFile(doc)];
    }

    /** Remove the state file of `env` if it exists. */
    method Destroy()
      modifies fs
      ensures fs.files == Destroyed(old(fs.files), StateFile())
    {
      if StateFile() in fs.files {
        fs.files := fs.files - {StateFile()};
      }
    }

    /** Create the lock file of `env`, or raise if it exists. */
    method Lock() returns (r: Outcome)
      modifies fs
      ensures match Locked(old(fs.files), LockFile())
        case Success(f) => r == Pass && fs.files == f
        case Failure(e) => r == Fail(e) && fs.files == old(fs.files)
    {
      if LockFile() in fs.files {
        return Fail(AlreadyLocked);
      }
      fs.files := fs.files[LockFile() := LockMarker];
      r := Pass;
    }

    /** Remove the lock file of `env`, or raise if there is none. */
    method Unlock() returns (r: Outcome)
      modifies fs
      ensures match Unlocked(old(fs.files), LockFile())
        case Success(f) => r == Pass && fs.files == f
        case Failure(e) => r == Fail(e) && fs.files == old(fs.files)
    {
      if LockFile() in fs.files {
        fs.files := fs.files - {LockFile()};
        r := Pass;
      } else {
        r := Fail(NotLocked);
      }
    }
  }
}
