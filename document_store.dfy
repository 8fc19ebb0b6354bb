// The JSON documents of the content API as files on disk, and the safe
// read and write operations of the error-handling layer: reading
// classifies every failure, writing serialises first, keeps a backup of
// the previous contents when it can, and then replaces the file.
module DocumentStore {
  import opened Wrappers
  import opened Strings
  import opened JsValue
  import opened AppErrors

  /** What a path holds: text that parses as JSON, text that does not, or
      a file the process may not read or write (`reason` is the message of
      the system error). */
  datatype Entry = JsonText(v: Value) | Garbled | Unavailable(reason: string)

  /** Every stored JSON text holds a value JSON.parse can produce. */
  predicate ValidFiles(files: map<string, Entry>)
  {
    forall p :: p in files && files[p].JsonText? ==> IsJson(files[p].v)
  }

  predicate Writable(files: map<string, Entry>, p: string)
  {
    p !in files || !files[p].Unavailable?
  }

  predicate Readable(files: map<string, Entry>, p: string)
  {
    p in files && !files[p].Unavailable?
  }

  function BackupPath(path: string): string
  {
    path + ".backup"
  }

  /** The text after the last `c`. */
  function AfterLast(s: string, c: char): (r: string)
    ensures EndsWith(s, r) && c !in r
    ensures |r| < |s| ==> s[|s| - |r| - 1] == c
  {
    if s == [] || s[|s| - 1] == c then []
    else
      var r := AfterLast(s[..|s| - 1], c) + [s[|s| - 1]];
      assert s[|s| - |r|..] == s[..|s| - 1][|s| - |r|..] + [s[|s| - 1]];
      r
  }

  /** `s` without its trailing `c` characters. */
  function DropTrailing(s: string, c: char): (r: string)
    ensures StartsWith(s, r) && (r == [] || r[|r| - 1] != c)
    ensures forall i :: |r| <= i < |s| ==> s[i] == c
  {
    if s != [] && s[|s| - 1] == c then
      var r := DropTrailing(s[..|s| - 1], c);
      assert s[..|r|] == s[..|s| - 1][..|r|];
      r
    else s
  }

  /** `path.basename`: the last segment, trailing separators ignored. */
  function Basename(path: string): string
  {
    AfterLast(DropTrailing(path, '/'), '/')
  }

  /** `safeReadJsonFile`: the parsed document, or the classified error. */
  function Read(files: map<string, Entry>, path: string): (r: Result<Value, Error>)
    ensures r.Ok? <==> path in files && files[path].JsonText?
    ensures r.Ok? ==> r.value == files[path].v
    ensures r.Err? ==> r.error.cls in {NotFoundClass, DatabaseClass, FileOperationClass}
    ensures r.Err? ==> (r.error.cls == NotFoundClass <==> path !in files)
    ensures r.Err? ==> (r.error.cls == DatabaseClass <==> path in files && files[path].Garbled?)
    ensures r.Err? ==> r.error.status.None?
  {
    if path !in files then Err(NotFoundError("File not found: " + Basename(path)))
    else match files[path]
      case JsonText(v) => Ok(v)
      case Garbled => Err(DatabaseError("Invalid JSON in file: " + Basename(path)))
      case Unavailable(reason) => Err(FileOperationError("Failed to read file: " + reason))
  }

  const SerializeFailure := ValidationError("Data cannot be serialized to JSON", [])

  /** The files after `fs.copyFile(path, path + '.backup')`, which needs a
      readable source and a writable target and otherwise changes nothing. */
  function Backup(files: map<string, Entry>, path: string): map<string, Entry>
  {
    if Readable(files, path) && Writable(files, BackupPath(path)) then files[BackupPath(path) := files[path]] else files
  }

  datatype WriteResult = WriteResult(result: Result<bool, Error>, files: map<string, Entry>)

  /** `safeWriteJsonFile`: the result and the files afterwards. */
  function Write(files: map<string, Entry>, path: string, data: Value): (w: WriteResult)
    ensures w.result.Ok? <==> !HasBigInt(data) && !data.Func? && Writable(files, path)
    ensures w.result.Ok? ==> path in w.files && w.files[path] == JsonText(Normalize(data)) && w.result.value
    ensures w.result.Err? ==> w.result.error.cls in {ValidationClass, FileOperationClass}
    ensures w.result.Err? ==> (w.result.error == SerializeFailure <==> HasBigInt(data) || data.Func?)
    ensures w.result.Err? ==> (path in w.files <==> path in files) && (path in files ==> w.files[path] == files[path])
    ensures HasBigInt(data) ==> w.files == files
    ensures !HasBigInt(data) && Readable(files, path) && Writable(files, BackupPath(path)) ==>
              BackupPath(path) in w.files && w.files[BackupPath(path)] == files[path]
    ensures forall p :: p != path && p != BackupPath(path) ==>
              (p in w.files <==> p in files) && (p in files ==> w.files[p] == files[p])
  {
    if HasBigInt(data) then WriteResult(Err(SerializeFailure), files)
    else
      var b := Backup(files, path);
      assert |BackupPath(path)| > |path|;
      if data.Func? then WriteResult(Err(SerializeFailure), b)
      else if !Writable(b, path) then WriteResult(Err(FileOperationError("Failed to write file: " + b[path].reason)), b)
      else WriteResult(Ok(true), b[path := JsonText(Normalize(data))])
  }

  /** The data directory. */
  class Disk {
    var files: map<string, Entry>

    ghost predicate Valid()
      reads this
    {
      ValidFiles(files)
    }

    constructor (files: map<string, Entry>)
      requires ValidFiles(files)
      ensures this.files == files && Valid()
    {
      this.files := files;
    }

    method SafeRead(path: string) returns (r: Result<Value, Error>)
      requires Valid()
      ensures r == Read(files, path)
      ensures r.Ok? ==> IsJson(r.value)
    {
      if path !in files {
        return Err(NotFoundError("File not found: " + Basename(path)));
      }
      match files[path]
      case JsonText(v) => r := Ok(v);
      case Garbled => r := Err(DatabaseError("Invalid JSON in file: " + Basename(path)));
      case Unavailable(reason) => r := Err(FileOperationError("Failed to read file: " + reason));
    }

    /** `fs.copyFile`; a failure leaves the disk as it was. */
    method CopyFile(src: string, dst: string) returns (ok: bool)
      modifies this
      ensures ok <==> Readable(old(files), src) && Writable(old(files), dst)
      ensures files == if ok then old(files)[dst := old(files)[src]] else old(files)
    {
      ok := Readable(files, src) && Writable(files, dst);
      if ok {
        files := files[dst := files[src]];
      }
    }

    method SafeWrite(path: string, data: Value) returns (r: Result<bool, Error>)
      requires Valid()
      modifies this
      ensures Write(old(files), path, data) == WriteResult(r, files)
      ensures Valid()
    {
      // JSON.stringify throws a TypeError on a BigInt before anything is touched.
      if HasBigInt(data) {
        return Err(SerializeFailure);
      }
      var backedUp := CopyFile(path, BackupPath(path));
      // A failed backup is only logged.
      if data.Func? {
        // JSON.stringify gave `undefined`, which fs.writeFile refuses with a TypeError.
        return Err(SerializeFailure);
      }
      if !Writable(files, path) {
        return Err(FileOperationError("Failed to write file: " + files[path].reason));
      }
      files := files[path := JsonText(Normalize(data))];
      r := Ok(true);
    }
  }

  /** Reading a document back after a successful write gives what
      JSON.stringify kept of the data, which is the data itself when it
      came from JSON. */
  lemma ReadAfterWrite(files: map<string, Entry>, path: string, data: Value)
    requires Write(files, path, data).result.Ok?
    ensures Read(Write(files, path, data).files, path) == Ok(Normalize(data))
    ensures IsJson(data) ==> Read(Write(files, path, data).files, path) == Ok(data)
  {
  }

  /** After a successful write the previous document can be read from the
      backup, whenever the copy could be made. */
  lemma BackupKeepsPrevious(files: map<string, Entry>, path: string, data: Value, previous: Value)
    requires path in files && files[path] == JsonText(previous) && Writable(files, BackupPath(path))
    requires Write(files, path, data).result.Ok?
    ensures Read(Write(files, path, data).files, BackupPath(path)) == Ok(previous)
  {
  }

  /** The write succeeds or fails independently of the backup: a backup
      that cannot be made changes neither the result nor the new document. */
  lemma BackupNotFatal(files: map<string, Entry>, path: string, data: Value)
    requires !Writable(files, BackupPath(path))
    requires !HasBigInt(data) && !data.Func? && Writable(files, path)
    ensures Write(files, path, data).result == Ok(true)
    ensures Write(files, path, data).files == files[path := JsonText(Normalize(data))]
  {
  }

  /** A write keeps every stored text valid JSON. */
  lemma WriteKeepsValid(files: map<string, Entry>, path: string, data: Value)
    requires ValidFiles(files)
    ensures ValidFiles(Write(files, path, data).files)
  {
  }
}
