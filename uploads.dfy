// The image upload route of the content server: the upload layer keeps
// only a file sent in the `image` field whose type is one of the allowed
// image types and whose size is within the limit, stores it under a name
// made of the field name, the clock and a random number followed by the
// extension of the sender's file name, and the route answers with where
// the file can be fetched.
module Uploads {
  import opened Wrappers
  import opened Strings
  import opened JsValue
  import opened AppErrors
  import opened Http
  import DocumentStore
  import ErrorHandler

  /** The media types the file filter lets through. */
  const AllowedTypes: seq<string> := ["image/jpeg", "image/jpg", "image/png", "image/gif", "image/webp"]
  /** The largest accepted file, in bytes (10 MB). */
  const MaxUploadSize := 10485760
  /** The one field name the route takes a file from. */
  const UploadField := "image"
  /** Where the stored uploads are served from. */
  const UploadsUrl := "/images/uploads/"

  // ---- File names ----

  /** The index of the last `.` in `s`. */
  function LastDot(s: string): (r: Option<nat>)
    ensures r.Some? ==> r.value < |s| && s[r.value] == '.' && forall j :: r.value < j < |s| ==> s[j] != '.'
    ensures r.None? ==> forall j :: 0 <= j < |s| ==> s[j] != '.'
  {
    if s == [] then None
    else if s[|s| - 1] == '.' then Some(|s| - 1)
    else LastDot(s[..|s| - 1])
  }

  /** `path.extname`: from the last `.` of the base name to its end; `""`
      when the base name has no `.`, starts with its only separating `.`
      (a hidden file such as `.env`), or is `..`. */
  function Extname(name: string): (e: string)
    ensures e == [] || (e[0] == '.' && forall j :: 1 <= j < |e| ==> e[j] != '.')
    ensures EndsWith(DocumentStore.Basename(name), e)
    ensures e != [] ==> |e| < |DocumentStore.Basename(name)|
  {
    var b := DocumentStore.Basename(name);
    match LastDot(b)
    case None => []
    case Some(d) => if d == 0 || b == ".." then [] else b[d..]
  }

  /** The extension of a plain file name is the text from its last dot. */
  lemma ExtnameOfName(stem: string, ext: string)
    requires stem != [] && stem != "." && '/' !in stem + ext && '.' !in ext
    ensures Extname(stem + "." + ext) == "." + ext
  {
    var n := stem + "." + ext;
    assert n[|n| - 1] != '/' || ext == [];
    assert DocumentStore.DropTrailing(n, '/') == n;
    AfterLastWhole(n, '/');
    assert DocumentStore.Basename(n) == n;
    var d := LastDot(n);
    assert n[|stem|] == '.';
    assert d.Some? && d.value == |stem|;
    assert n[|stem|..] == "." + ext;
  }

  /** A name without `/` is its own base name. */
  lemma AfterLastWhole(s: string, c: char)
    requires c !in s
    ensures DocumentStore.AfterLast(s, c) == s
  {
  }

  /** A hidden file's name has no extension. */
  lemma HiddenFileHasNoExtension(rest: string)
    requires '/' !in rest && '.' !in rest
    ensures Extname("." + rest) == ""
  {
    var n := "." + rest;
    assert n[|n| - 1] != '/';
    assert DocumentStore.DropTrailing(n, '/') == n;
    AfterLastWhole(n, '/');
    var d := LastDot(n);
    assert n[0] == '.';
  }

  /** The stored file name: field name, clock and random suffix joined by
      `_`, then the extension of the sender's name. */
  function StoredName(field: string, timestamp: nat, suffix: nat, original: string): (r: string)
    ensures StartsWith(r, field + "_")
    ensures EndsWith(r, Extname(original))
  {
    var ext := Extname(original);
    var last := NatText(suffix) + ext;
    var tail := NatText(timestamp) + ("_" + last);
    ConcatEnds(NatText(suffix), ext);
    ConcatEnds("_", last);
    EndsWithFurther("_" + last, last, ext);
    ConcatEnds(NatText(timestamp), "_" + last);
    EndsWithFurther(tail, "_" + last, ext);
    ConcatEnds(field + "_", tail);
    EndsWithFurther((field + "_") + tail, tail, ext);
    (field + "_") + tail
  }

  lemma ConcatEnds(a: string, b: string)
    ensures StartsWith(a + b, a) && EndsWith(a + b, b)
  {
    assert (a + b)[..|a|] == a;
    assert (a + b)[|a|..] == b;
  }

  lemma EndsWithFurther(s: string, t: string, u: string)
    requires EndsWith(s, t) && EndsWith(t, u)
    ensures EndsWith(s, u)
  {
    assert s[|s| - |u|..] == t[|t| - |u|..];
  }

  /** The number of leading decimal digits of `s`. */
  function DigitRun(s: string): (k: nat)
    ensures k <= |s| && forall i :: 0 <= i < k ==> IsDigit(s[i])
    ensures k < |s| ==> !IsDigit(s[k])
  {
    if s != [] && IsDigit(s[0]) then
      var k := 1 + DigitRun(s[1..]);
      assert forall i :: 1 <= i < k ==> s[i] == s[1..][i - 1];
      k
    else 0
  }

  lemma {:induction false} DigitRunPrefix(d: string, x: string)
    requires forall i :: 0 <= i < |d| ==> IsDigit(d[i])
    requires x == [] || !IsDigit(x[0])
    ensures DigitRun(d + x) == |d|
  {
    if d != [] {
      assert (d + x)[1..] == d[1..] + x;
      DigitRunPrefix(d[1..], x);
    }
  }

  /** A run of digits followed by a non-digit splits a string one way only. */
  lemma DigitSplit(d1: string, x1: string, d2: string, x2: string)
    requires forall i :: 0 <= i < |d1| ==> IsDigit(d1[i])
    requires forall i :: 0 <= i < |d2| ==> IsDigit(d2[i])
    requires x1 == [] || !IsDigit(x1[0])
    requires x2 == [] || !IsDigit(x2[0])
    requires d1 + x1 == d2 + x2
    ensures d1 == d2 && x1 == x2
  {
    DigitRunPrefix(d1, x1);
    DigitRunPrefix(d2, x2);
    assert d1 == (d1 + x1)[..|d1|];
    assert d2 == (d2 + x2)[..|d2|];
    assert x1 == (d1 + x1)[|d1|..];
    assert x2 == (d2 + x2)[|d2|..];
  }

  /** What follows the field name and its `_` in a stored name. */
  lemma StoredNameTail(field: string, timestamp: nat, suffix: nat, original: string)
    ensures StoredName(field, timestamp, suffix, original)[|field| + 1..]
            == NatText(timestamp) + ("_" + (NatText(suffix) + Extname(original)))
  {
    ConcatEnds(field + "_", NatText(timestamp) + ("_" + (NatText(suffix) + Extname(original))));
  }

  /** Two uploads stored under the same name in the same field were made at
      the same instant with the same random suffix and carry the same
      extension. */
  lemma StoredNameInjective(field: string, t1: nat, s1: nat, o1: string, t2: nat, s2: nat, o2: string)
    requires StoredName(field, t1, s1, o1) == StoredName(field, t2, s2, o2)
    ensures t1 == t2 && s1 == s2 && Extname(o1) == Extname(o2)
  {
    var e1, e2 := Extname(o1), Extname(o2);
    var m1, m2 := NatText(s1), NatText(s2);
    StoredNameTail(field, t1, s1, o1);
    StoredNameTail(field, t2, s2, o2);
    DigitSplit(NatText(t1), "_" + (m1 + e1), NatText(t2), "_" + (m2 + e2));
    DigitsValueOfNatText(t1);
    DigitsValueOfNatText(t2);
    assert m1 + e1 == ("_" + (m1 + e1))[1..];
    assert m2 + e2 == ("_" + (m2 + e2))[1..];
    DigitSplit(m1, e1, m2, e2);
    DigitsValueOfNatText(s1);
    DigitsValueOfNatText(s2);
  }

  // ---- The upload layer ----

  /** A file part of the multipart request, as the upload layer sees it. */
  datatype Incoming = Incoming(field: string, originalName: string, mimeType: string, size: nat)

  /** A file the upload layer stored. */
  datatype Uploaded = Uploaded(fileName: string, originalName: string, size: nat)

  const UnexpectedField := PlainError("MulterError", "Unexpected field", "LIMIT_UNEXPECTED_FILE")
  const InvalidType := PlainError("Error", "Invalid file type", "")
  const TooLarge := PlainError("MulterError", "File too large", "LIMIT_FILE_SIZE")

  /** What the upload layer does with one file part, in its order: the
      field name, the file filter, then the size limit while storing.
      `timestamp` and `suffix` are the clock and the random number the
      name is made from. */
  function Accept(f: Incoming, timestamp: nat, suffix: nat): (r: Result<Uploaded, Error>)
    ensures r.Ok? <==> f.field == UploadField && f.mimeType in AllowedTypes && f.size <= MaxUploadSize
    ensures r.Ok? ==> r.value == Uploaded(StoredName(UploadField, timestamp, suffix, f.originalName), f.originalName, f.size)
    ensures r.Err? ==> r.error == (if f.field != UploadField then UnexpectedField
                                   else if f.mimeType !in AllowedTypes then InvalidType
                                   else TooLarge)
  {
    if f.field != UploadField then Err(UnexpectedField)
    else if f.mimeType !in AllowedTypes then Err(InvalidType)
    else if f.size > MaxUploadSize then Err(TooLarge)
    else Ok(Uploaded(StoredName(f.field, timestamp, suffix, f.originalName), f.originalName, f.size))
  }

  const NoFile := Reply(400, Obj(map["error" := Str("No file uploaded")]))

  /** The answer for a stored file: where it is served, its stored and
      original names and its size. */
  function UploadedBody(u: Uploaded): (v: Value)
    ensures v.Obj? && v.fields.Keys == {"success", "path", "filename", "originalName", "size"}
    ensures v.fields["success"] == Bool(true) && v.fields["path"] == Str(UploadsUrl + u.fileName)
    ensures v.fields["filename"] == Str(u.fileName) && v.fields["originalName"] == Str(u.originalName)
    ensures v.fields["size"] == Num(u.size as real)
  {
    Obj(map["success" := Bool(true), "path" := Str(UploadsUrl + u.fileName), "filename" := Str(u.fileName),
            "originalName" := Str(u.originalName), "size" := Num(u.size as real)])
  }

  /** POST /api/upload after the authentication gates: the upload layer,
      then the handler. A request with no file part reaches the handler
      and gets its 400. */
  function UploadRoute(file: Option<Incoming>, timestamp: nat, suffix: nat): (o: Outcome)
    ensures file.None? ==> o == Send(NoFile)
    ensures !o.Next?
  {
    match file
    case None => Send(NoFile)
    case Some(f) =>
      match Accept(f, timestamp, suffix)
      case Err(e) => Fail(e)
      case Ok(u) => Send(Reply(200, UploadedBody(u)))
  }

  /** An upload is answered 200 exactly when a file came in the `image`
      field with an allowed type and within the size limit; the answer
      names the stored file and where it is served. */
  lemma UploadAcceptedIff(file: Option<Incoming>, timestamp: nat, suffix: nat)
    ensures var o := UploadRoute(file, timestamp, suffix);
            (o.Send? && o.reply.status == 200) <==>
              file.Some? && file.value.field == UploadField && file.value.mimeType in AllowedTypes && file.value.size <= MaxUploadSize
    ensures var o := UploadRoute(file, timestamp, suffix);
            o.Send? && o.reply.status == 200 ==>
              o.reply.body == UploadedBody(Uploaded(StoredName(UploadField, timestamp, suffix, file.value.originalName),
                                                    file.value.originalName, file.value.size))
  {
  }

  /** How the server answers each refusal of the upload layer. Its
      central error handler is never mounted, so the refusal reaches
      Express's final handler, and none of the three errors carries a
      `status` or a `statusCode`: each ends as a 500, with the stack
      shown outside production. */
  lemma UploadRefusals(f: Incoming, timestamp: nat, suffix: nat, production: bool, trace: string)
    ensures Accept(f, timestamp, suffix).Err? <==> UploadRoute(Some(f), timestamp, suffix).Fail?
    ensures UploadRoute(Some(f), timestamp, suffix).Fail? ==>
              var r := FinalHandler(UploadRoute(Some(f), timestamp, suffix).err, production, trace);
              r.status == 500 && (!production ==> r.page == StackPage(trace))
  {
  }

  /** A file of an allowed type sent in the `image` field, one byte over
      the limit, is answered 500 by the server as it stands and 400
      `FILE_TOO_LARGE` once the central error handler is mounted. */
  lemma OversizedFileStatus(f: Incoming, timestamp: nat, suffix: nat, production: bool, now: string, trace: string)
    requires f.field == UploadField && f.mimeType == "image/png" && f.size == MaxUploadSize + 1
    ensures FinalHandler(UploadRoute(Some(f), timestamp, suffix).err, production, trace).status == 500
    ensures ErrorHandler.HandleError(UploadRoute(Some(f), timestamp, suffix).err, production, now, trace).status == 400
  {
    UploadRefusals(f, timestamp, suffix, production, trace);
    UploadRefusalsMounted(f, timestamp, suffix, production, now, trace);
  }

  /** How the central error handler answers each refusal of the upload
      layer once it is mounted: a wrong field or an oversized file is a
      400 with its own code, while a refused type is an unrecognised error
      and so a 500. */
  lemma UploadRefusalsMounted(f: Incoming, timestamp: nat, suffix: nat, production: bool, now: string, trace: string)
    ensures f.field != UploadField ==>
              var r := ErrorHandler.HandleError(UploadRoute(Some(f), timestamp, suffix).err, production, now, trace);
              r.status == 400 && ErrorHandler.CodeOf(r) == "UNEXPECTED_FILE"
    ensures f.field == UploadField && f.mimeType !in AllowedTypes ==>
              var r := ErrorHandler.HandleError(UploadRoute(Some(f), timestamp, suffix).err, production, now, trace);
              r.status == 500 && ErrorHandler.CodeOf(r) == "INTERNAL_ERROR"
    ensures f.field == UploadField && f.mimeType in AllowedTypes && f.size > MaxUploadSize ==>
              var r := ErrorHandler.HandleError(UploadRoute(Some(f), timestamp, suffix).err, production, now, trace);
              r.status == 400 && ErrorHandler.CodeOf(r) == "FILE_TOO_LARGE"
  {
    if f.field != UploadField {
      ErrorHandler.HandleErrorTable(UnexpectedField, production, now, trace);
    } else if f.mimeType !in AllowedTypes {
      ErrorHandler.UnknownErrorIsInternal(InvalidType, production, now, trace);
    } else if f.size > MaxUploadSize {
      ErrorHandler.HandleErrorTable(TooLarge, production, now, trace);
    }
  }
}
