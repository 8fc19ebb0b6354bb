// The image listing of the content server: a walk over the public image
// directory that collects every regular file whose name ends in an image
// extension, with its URL, size, modification time and the folder it was
// found in. The directory tree is a value here; reading a directory that
// cannot be read yields nothing, and a file whose details cannot be read
// ends the listing of its directory with what was collected so far.
module ImageWalk {
  import opened Wrappers
  import opened Strings
  import opened JsValue
  import opened Http
  import Patterns

  /** The details `fs.stat` gives of a file. `modified` is the time, in
      the text JSON gives a date. */
  datatype Stat = Stat(size: nat, modified: string)

  /** A directory entry: a sub-directory with what reading it gives, a
      regular file with what `stat` gives (`None` when it fails), or
      anything else (a link, a socket). */
  datatype Item =
    | Folder(name: string, listing: Listing)
    | Regular(name: string, stat: Option<Stat>)
    | Special(name: string)

  /** What reading a directory gives. */
  datatype Listing = Unreadable | Listed(items: seq<Item>)

  /** One collected image. */
  datatype ImageInfo = ImageInfo(name: string, path: string, size: nat, modified: string, folder: string)

  /** `s` with every `\` replaced by `/`. */
  function Slashed(s: string): (r: string)
    ensures |r| == |s|
    ensures forall i :: 0 <= i < |s| ==> r[i] == (if s[i] == '\\' then '/' else s[i])
  {
    if s == [] then [] else [if s[0] == '\\' then '/' else s[0]] + Slashed(s[1..])
  }

  /** The relative path of an entry of the directory at `base`, as
      `path.join(base, name)` with back-slashes turned into slashes. */
  function Child(base: string, name: string): (r: string)
    ensures base == "" ==> r == Slashed(name)
    ensures base != "" ==> r == base + "/" + Slashed(name)
  {
    (if base == "" then "" else base + "/") + Slashed(name)
  }

  /** The folder an image of the directory at `base` is reported in. */
  function FolderLabel(base: string): (r: string)
    ensures r != ""
    ensures base != "" ==> r == base
  {
    if base == "" then "root" else base
  }

  /** A name the image test accepts. */
  predicate IsImageName(name: string)
  {
    Patterns.HasImageExtension(name)
  }

  /** The record collected for an image file of the directory at `base`. */
  function Info(base: string, name: string, st: Stat): ImageInfo
  {
    ImageInfo(name, "/images/" + Child(base, name), st.size, st.modified, FolderLabel(base))
  }

  // ---- The walk, as a specification ----

  /** The images collected from the entries of the directory at `base`. */
  function Scan(items: seq<Item>, base: string): seq<ImageInfo>
    decreases items
  {
    if items == [] then []
    else match items[0]
      case Folder(name, listing) =>
        var sub := if listing.Unreadable? then [] else Scan(listing.items, Child(base, name));
        sub + Scan(items[1..], base)
      case Regular(name, stat) =>
        if !IsImageName(name) then Scan(items[1..], base)
        else if stat.None? then []
        else [Info(base, name, stat.value)] + Scan(items[1..], base)
      case Special(_) => Scan(items[1..], base)
  }

  /** The images of a directory read at `base`. */
  function Walk(listing: Listing, base: string): (r: seq<ImageInfo>)
    ensures listing.Unreadable? ==> r == []
  {
    if listing.Unreadable? then [] else Scan(listing.items, base)
  }

  // ---- The walk, as the loop the server runs ----

  /** `getImagesRecursively(dir, base)`. */
  method ListImages(listing: Listing, base: string) returns (images: seq<ImageInfo>)
    ensures images == Walk(listing, base)
    decreases listing
  {
    images := [];
    if listing.Unreadable? {
      return;
    }
    var items := listing.items;
    var i := 0;
    while i < |items|
      invariant 0 <= i <= |items|
      invariant Scan(items, base) == images + Scan(items[i..], base)
    {
      var item := items[i];
      assert items[i..][0] == item && items[i..][1..] == items[i + 1..];
      match item {
        case Folder(name, sub) =>
          var found := ListImages(sub, Child(base, name));
          images := images + found;
        case Regular(name, stat) =>
          if IsImageName(name) {
            if stat.None? {
              return;
            }
            images := images + [Info(base, name, stat.value)];
          }
        case Special(_) =>
      }
      i := i + 1;
    }
    assert items[i..] == [];
  }

  // ---- What the walk finds ----

  /** The directory of `x` relative to the image root is `p`. */
  predicate PlacedIn(x: ImageInfo, p: string)
  {
    x.path == "/images/" + Child(p, x.name) && x.folder == FolderLabel(p)
  }

  /** What every collected record satisfies: an image name, its URL under
      `/images/` and its folder label, both from the same directory. */
  ghost predicate Sound(x: ImageInfo)
  {
    IsImageName(x.name) && exists p :: PlacedIn(x, p)
  }

  lemma {:induction false} ScanSound(items: seq<Item>, base: string)
    ensures forall k :: 0 <= k < |Scan(items, base)| ==> Sound(Scan(items, base)[k])
    decreases items
  {
    if items != [] {
      ScanSound(items[1..], base);
      match items[0]
      case Folder(name, listing) =>
        if listing.Listed? {
          ScanSound(listing.items, Child(base, name));
        }
      case Regular(name, stat) =>
        if IsImageName(name) && stat.Some? {
          assert PlacedIn(Info(base, name, stat.value), base);
        }
      case Special(_) =>
    }
  }

  /** Every collected record is an image file, placed where it was found. */
  lemma WalkSound(listing: Listing, base: string)
    ensures forall x :: x in Walk(listing, base) ==> Sound(x)
  {
    if listing.Listed? {
      ScanSound(listing.items, base);
    }
  }

  /** The number of image-named regular files reachable through readable
      directories. */
  function ImageCount(items: seq<Item>): nat
    decreases items
  {
    if items == [] then 0
    else match items[0]
      case Folder(_, listing) =>
        (if listing.Unreadable? then 0 else ImageCount(listing.items)) + ImageCount(items[1..])
      case Regular(name, _) => (if IsImageName(name) then 1 else 0) + ImageCount(items[1..])
      case Special(_) => ImageCount(items[1..])
  }

  /** Every directory can be read and every image file can be stat-ed. */
  predicate Healthy(items: seq<Item>)
    decreases items
  {
    items != [] ==>
      && (match items[0]
          case Folder(_, listing) => listing.Listed? && Healthy(listing.items)
          case Regular(name, stat) => IsImageName(name) ==> stat.Some?
          case Special(_) => true)
      && Healthy(items[1..])
  }

  /** The walk never finds more images than there are, and in a healthy
      tree it finds every one of them. */
  lemma {:induction false} ScanCount(items: seq<Item>, base: string)
    ensures |Scan(items, base)| <= ImageCount(items)
    ensures Healthy(items) ==> |Scan(items, base)| == ImageCount(items)
    decreases items
  {
    if items != [] {
      ScanCount(items[1..], base);
      match items[0]
      case Folder(name, listing) =>
        if listing.Listed? {
          ScanCount(listing.items, Child(base, name));
        }
      case Regular(_, _) =>
      case Special(_) =>
    }
  }

  /** In a healthy tree each image file of the top directory is listed
      with its details. */
  lemma {:induction false} ScanFindsTopLevel(items: seq<Item>, base: string, k: nat)
    requires Healthy(items) && k < |items| && items[k].Regular? && IsImageName(items[k].name)
    ensures items[k].stat.Some? && Info(base, items[k].name, items[k].stat.value) in Scan(items, base)
    decreases items
  {
    if k == 0 {
    } else {
      assert items[1..][k - 1] == items[k];
      ScanFindsTopLevel(items[1..], base, k - 1);
    }
  }

  /** Whether the scan of `items` stops early, at a file it cannot stat. */
  predicate Stops(items: seq<Item>)
  {
    exists k :: 0 <= k < |items| && items[k].Regular? && IsImageName(items[k].name) && items[k].stat.None?
  }

  /** Scanning two runs of entries one after the other: the second is
      scanned only if the first did not stop. */
  lemma {:induction false} ScanAppend(a: seq<Item>, b: seq<Item>, base: string)
    ensures Scan(a + b, base) == if Stops(a) then Scan(a, base) else Scan(a, base) + Scan(b, base)
    decreases a
  {
    if a == [] {
      assert a + b == b;
    } else {
      assert (a + b)[0] == a[0];
      assert (a + b)[1..] == a[1..] + b;
      ScanAppend(a[1..], b, base);
      StopsHead(a);
    }
  }

  lemma StopsHead(a: seq<Item>)
    requires a != []
    ensures Stops(a) <==> (a[0].Regular? && IsImageName(a[0].name) && a[0].stat.None?) || Stops(a[1..])
  {
    if Stops(a[1..]) {
      var k :| 0 <= k < |a[1..]| && a[1..][k].Regular? && IsImageName(a[1..][k].name) && a[1..][k].stat.None?;
      assert a[k + 1] == a[1..][k];
    }
    if Stops(a) {
      var k :| 0 <= k < |a| && a[k].Regular? && IsImageName(a[k].name) && a[k].stat.None?;
      if k > 0 {
        assert a[1..][k - 1] == a[k];
      }
    }
  }

  /** An unreadable sub-directory is skipped and the rest of its parent is
      still listed. */
  lemma UnreadableSkipped(a: seq<Item>, name: string, b: seq<Item>, base: string)
    ensures Scan(a + [Folder(name, Unreadable)] + b, base) == Scan(a + b, base)
  {
    var c := [Folder(name, Unreadable)] + b;
    assert a + [Folder(name, Unreadable)] + b == a + c;
    ScanAppend(a, c, base);
    ScanAppend(a, b, base);
    assert c[1..] == b;
  }

  /** An image file whose details cannot be read ends its directory's
      listing: nothing after it in that directory is listed. */
  lemma UnstatableStops(a: seq<Item>, name: string, b: seq<Item>, base: string)
    requires IsImageName(name)
    ensures Scan(a + [Regular(name, None)] + b, base) == Scan(a, base)
  {
    var c := [Regular(name, None)] + b;
    assert a + [Regular(name, None)] + b == a + c;
    ScanAppend(a, c, base);
  }

  // ---- GET /api/images ----

  /** The JSON of one record. */
  function InfoValue(x: ImageInfo): Value
  {
    Obj(map["name" := Str(x.name), "path" := Str(x.path), "size" := Num(x.size as real),
            "modified" := Str(x.modified), "folder" := Str(x.folder)])
  }

  function InfoValues(xs: seq<ImageInfo>): (r: seq<Value>)
    ensures |r| == |xs| && forall i :: 0 <= i < |xs| ==> r[i] == InfoValue(xs[i])
  {
    if xs == [] then [] else [InfoValue(xs[0])] + InfoValues(xs[1..])
  }

  /** The route answers the list of the walk of the image root; the walk
      itself never fails, so the route's 500 branch is never taken. */
  method GetImages(root: Listing) returns (r: Reply)
    ensures r.status == 200 && r.body == Arr(InfoValues(Walk(root, "")))
  {
    var images := ListImages(root, "");
    r := Reply(200, Arr(InfoValues(images)));
  }
}
