/** The key/value state store of appwrite_lab/_state.py: a dictionary held in
    memory and mirrored, as a JSON document, in one file on disk. */
module StateStore {
  import opened Wrappers

  /** A JSON value as `json.load` returns it. Objects are maps: the key order of a
      Python dict is not modelled. */
  datatype Json =
    | JNull
    | JBool(b: bool)
    | JInt(i: int)
    | JStr(s: string)
    | JArr(items: seq<Json>)
    | JObj(fields: map<string, Json>)

  /** Python truthiness of a JSON value: `None`, `False`, `0` and the empty string,
      list and dict are false. */
  predicate Falsy(j: Json)
  {
    match j
    case JNull => true
    case JBool(b) => !b
    case JInt(i) => i == 0
    case JStr(s) => s == ""
    case JArr(items) => items == []
    case JObj(fields) => fields == map[]
  }

  /** What a file holds: a JSON object, or text that `json.load` cannot read as one. */
  datatype FileContent = Document(doc: map<string, Json>) | Unreadable

  /** The part of the file system the store touches: the files that exist, and the
      paths that cannot be opened for writing. */
  class Disk {
    var files: map<string, FileContent>
    var readOnly: set<string>

    constructor (files: map<string, FileContent>, readOnly: set<string>)
      ensures this.files == files && this.readOnly == readOnly
    {
      this.files := files;
      this.readOnly := readOnly;
    }

    /** `open(path, "w")` followed by a write of `doc`; false when the file cannot be
        opened for writing, and then nothing is written. */
    method Write(path: string, doc: map<string, Json>) returns (ok: bool)
      modifies this
      ensures ok <==> path !in readOnly
      ensures readOnly == old(readOnly)
      ensures files == if ok then old(files)[path := Document(doc)] else old(files)
    {
      ok := path !in readOnly;
      if ok {
        files := files[path := Document(doc)];
      }
    }
  }

  /** The StateError raised by `State.__init__`. */
  datatype StateError =
    | CreateFailed  // "Failed to create state file: ..."
    | LoadFailed    // "Failed to load state file: ..."

  /** The path a store uses: the given one unless it is missing or empty. */
  function StatePath(path: Option<string>, defaultPath: string): (p: string)
    ensures path.Some? && path.value != "" ==> p == path.value
    ensures path.None? || path.value == "" ==> p == defaultPath
  {
    if path.None? || path.value == "" then defaultPath else path.value
  }

  class State {
    const path: string
    var data: map<string, Json>
    const disk: Disk

    /** The file at `path` holds exactly the in-memory dictionary. */
    predicate Persisted()
      reads this, disk
    {
      path in disk.files && disk.files[path] == Document(data)
    }

    constructor Make(path: string, data: map<string, Json>, disk: Disk)
      ensures this.path == path && this.data == data && this.disk == disk
    {
      this.path := path;
      this.data := data;
      this.disk := disk;
    }

    /** `State(path)`: a missing file is created holding `{}` and the store starts empty;
        an existing file is loaded. Failing to create or to load raises StateError. */
    static method Open(path: Option<string>, defaultPath: string, disk: Disk) returns (r: Result<State, StateError>)
      modifies disk
      ensures disk.readOnly == old(disk.readOnly)
      ensures r.Ok? ==>
        && fresh(r.value) && r.value.disk == disk
        && r.value.path == StatePath(path, defaultPath) && r.value.Persisted()
      ensures var p := StatePath(path, defaultPath);
        && (p !in old(disk.files) && p !in disk.readOnly ==>
              r.Ok? && r.value.data == map[] && disk.files == old(disk.files)[p := Document(map[])])
        && (p !in old(disk.files) && p in disk.readOnly ==>
              r == Err(CreateFailed) && disk.files == old(disk.files))
        && (p in old(disk.files) && old(disk.files)[p].Unreadable? ==>
              r == Err(LoadFailed) && disk.files == old(disk.files))
        && (p in old(disk.files) && old(disk.files)[p].Document? ==>
              r.Ok? && r.value.data == old(disk.files)[p].doc && disk.files == old(disk.files))
    {
      var p := StatePath(path, defaultPath);
      if p !in disk.files {
        var ok := disk.Write(p, map[]);
        if !ok {
          return Err(CreateFailed);
        }
        var s := new State.Make(p, map[], disk);
        return Ok(s);
      }
      if disk.files[p].Unreadable? {
        return Err(LoadFailed);
      }
      var s := new State.Make(p, disk.files[p].doc, disk);
      return Ok(s);
    }

    /** `get(key, default)`: the stored value, or `default` when the key is absent. */
    function Get(key: string, default: Json): (r: Json)
      reads this
      ensures key in data ==> r == data[key]
      ensures key !in data ==> r == default
    {
      if key in data then data[key] else default
    }

    /** `save`: rewrites the file with the whole dictionary. The write fails, raising,
        when the file cannot be opened for writing; the dictionary is kept either way. */
    method Save() returns (ok: bool)
      modifies disk
      ensures ok <==> path !in disk.readOnly
      ensures disk.readOnly == old(disk.readOnly)
      ensures ok ==> Persisted()
      ensures disk.files == if ok then old(disk.files)[path := Document(data)] else old(disk.files)
    {
      ok := disk.Write(path, data);
    }

    /** `set(key, value)`: the dictionary takes the new value, then is saved. When the
        save raises, the dictionary has already changed and the file has not. */
    method Set(key: string, value: Json) returns (ok: bool)
      modifies this, disk
      ensures data == old(data)[key := value]
      ensures Get(key, JNull) == value
      ensures forall k, d :: k != key ==> Get(k, d) == old(Get(k, d))
      ensures ok <==> path !in disk.readOnly
      ensures disk.readOnly == old(disk.readOnly)
      ensures ok ==> Persisted()
      ensures disk.files == if ok then old(disk.files)[path := Document(data)] else old(disk.files)
    {
      data := data[key := value];
      ok := Save();
    }
  }
}
