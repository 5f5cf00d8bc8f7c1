/** Upload storage (package `uploads`): MIME-type classification into categories,
    the size limit, content checks, file naming and the deletion guard. */
module Uploads {
  import opened Wrappers
  import opened Text
  import Base64

  type byte = Base64.byte

  /** Allowed MIME types (type to file extension), size limit and storage subdirectory. */
  datatype FileCategory = FileCategory(subdir: string, maxSize: int64, allowedTypes: map<string, string>)

  const MiB: int := 1048576  // 1 << 20

  function DefaultImageCategory(): FileCategory {
    FileCategory("images", 10 * MiB,
      map["image/jpeg" := ".jpg", "image/png" := ".png", "image/gif" := ".gif", "image/webp" := ".webp"])
  }

  function DefaultAudioCategory(): FileCategory {
    FileCategory("audio", 50 * MiB,
      map["audio/mpeg" := ".mp3", "audio/wav" := ".wav", "audio/x-m4a" := ".m4a",
          "audio/mp4" := ".m4a", "audio/ogg" := ".ogg"])
  }

  function DefaultCategories(): seq<FileCategory> {
    [DefaultImageCategory(), DefaultAudioCategory()]
  }

  /** Images come first (10485760 bytes, four types), then audio (52428800 bytes,
      five types, two of them stored as `.m4a`). */
  lemma DefaultCategoriesShape()
    ensures var c := DefaultCategories();
      |c| == 2 && c[0].subdir == "images" && c[1].subdir == "audio"
      && c[0].maxSize == 10485760 && c[1].maxSize == 52428800
      && |c[0].allowedTypes| == 4 && |c[1].allowedTypes| == 5
      && c[1].allowedTypes["audio/x-m4a"] == c[1].allowedTypes["audio/mp4"] == ".m4a"
  {
    var img := DefaultImageCategory().allowedTypes;
    var aud := DefaultAudioCategory().allowedTypes;
    assert img.Keys == {"image/jpeg", "image/png", "image/gif", "image/webp"};
    assert aud.Keys == {"audio/mpeg", "audio/wav", "audio/x-m4a", "audio/mp4", "audio/ogg"};
  }

  /** The functional options of `NewStorage`. */
  datatype StorageOption = WithCategories(cats: seq<FileCategory>) | WithCategory(cat: FileCategory)

  function ApplyOption(cats: seq<FileCategory>, o: StorageOption): seq<FileCategory> {
    match o
    case WithCategories(cs) => cs
    case WithCategory(c) => cats + [c]
  }

  /** The options applied in order. */
  function ApplyOptions(cats: seq<FileCategory>, opts: seq<StorageOption>): seq<FileCategory>
    decreases |opts|
  {
    if opts == [] then cats
    else ApplyOption(ApplyOptions(cats, opts[..|opts| - 1]), opts[|opts| - 1])
  }

  /** `WithCategory` appends and keeps every category already configured. */
  lemma WithCategoryAppends(cats: seq<FileCategory>, opts: seq<StorageOption>, c: FileCategory)
    ensures ApplyOptions(cats, opts + [WithCategory(c)]) == ApplyOptions(cats, opts) + [c]
  {
    assert (opts + [WithCategory(c)])[..|opts|] == opts;
  }

  /** `WithCategories` discards everything configured before it. */
  lemma {:induction false} WithCategoriesReplaces(cats: seq<FileCategory>, before: seq<StorageOption>,
                                                  cs: seq<FileCategory>, after: seq<StorageOption>)
    ensures ApplyOptions(cats, before + [WithCategories(cs)] + after) == ApplyOptions(cs, after)
    decreases |after|
  {
    var all := before + [WithCategories(cs)] + after;
    if after == [] {
      assert all[..|all| - 1] == before;
    } else {
      assert all[..|all| - 1] == before + [WithCategories(cs)] + after[..|after| - 1];
      WithCategoriesReplaces(cats, before, cs, after[..|after| - 1]);
    }
  }

  /** `filepath.Join` of two elements: empty elements are ignored and the
      joined path is cleaned by `clean` (`filepath.Clean`). */
  function JoinPath(clean: string -> string, a: string, b: string): string {
    if a == "" && b == "" then ""
    else if a == "" then clean(b)
    else if b == "" then clean(a)
    else clean(a + "/" + b)
  }

  /** The index of the first category, in list order, that allows `mimeType`. */
  function FirstMatch(cats: seq<FileCategory>, mimeType: string): (r: Option<nat>)
    ensures r.Some? ==> r.value < |cats| && mimeType in cats[r.value].allowedTypes
    ensures r.Some? ==> forall j | 0 <= j < r.value :: mimeType !in cats[j].allowedTypes
    ensures r.None? ==> forall j | 0 <= j < |cats| :: mimeType !in cats[j].allowedTypes
    decreases |cats|
  {
    if cats == [] then None
    else if mimeType in cats[0].allowedTypes then Some(0)
    else match FirstMatch(cats[1..], mimeType)
      case None => None
      case Some(i) => Some(i + 1)
  }

  function Quote(s: string): string {
    "\"" + s + "\""
  }

  datatype Classified = Classified(cat: FileCategory, ext: string)

  function UnsupportedType(mimeType: string): string {
    "file type " + Quote(mimeType) + " not supported"
  }

  /** `classify`: the first category allowing the type, with its extension. */
  method Classify(cats: seq<FileCategory>, mimeType: string) returns (r: Result<Classified, string>)
    ensures r.Ok? <==> FirstMatch(cats, mimeType).Some?
    ensures r.Ok? ==> var i := FirstMatch(cats, mimeType).value;
      r.value == Classified(cats[i], cats[i].allowedTypes[mimeType])
    ensures r.Err? ==> r.error == UnsupportedType(mimeType)
  {
    for i := 0 to |cats|
      invariant forall j | 0 <= j < i :: mimeType !in cats[j].allowedTypes
    {
      if mimeType in cats[i].allowedTypes {
        return Ok(Classified(cats[i], cats[i].allowedTypes[mimeType]));
      }
    }
    return Err(UnsupportedType(mimeType));
  }

  /** `CategoryFor`: the subdirectory of the first category allowing the type, or "". */
  method CategoryFor(cats: seq<FileCategory>, mimeType: string) returns (subdir: string)
    ensures FirstMatch(cats, mimeType).None? ==> subdir == ""
    ensures FirstMatch(cats, mimeType).Some? ==> subdir == cats[FirstMatch(cats, mimeType).value].subdir
  {
    for i := 0 to |cats|
      invariant forall j | 0 <= j < i :: mimeType !in cats[j].allowedTypes
    {
      if mimeType in cats[i].allowedTypes {
        return cats[i].subdir;
      }
    }
    return "";
  }

  /** With the default categories every listed type lands in its own category. */
  lemma DefaultCategoryFor(mimeType: string)
    ensures mimeType in DefaultImageCategory().allowedTypes ==> FirstMatch(DefaultCategories(), mimeType) == Some(0)
    ensures mimeType in DefaultAudioCategory().allowedTypes ==> FirstMatch(DefaultCategories(), mimeType) == Some(1)
    ensures mimeType !in DefaultImageCategory().allowedTypes && mimeType !in DefaultAudioCategory().allowedTypes
      ==> FirstMatch(DefaultCategories(), mimeType) == None
  {
    var c := DefaultCategories();
    assert c[1..][1..] == [];
    if mimeType in DefaultAudioCategory().allowedTypes {
      assert mimeType[..6] == "audio/";
      assert mimeType !in DefaultImageCategory().allowedTypes;
    }
  }

  /** What the upload stream holds: its bytes, then end of file or a read error. */
  datatype Upload = Upload(bytes: seq<byte>, failure: Option<string>)

  /** `io.ReadAll(io.LimitReader(r, n))`: at most `n` bytes; once `n` bytes have
      been read the stream is not read further, so a later error goes unseen. */
  function ReadLimited(u: Upload, n: int): (r: Result<seq<byte>, string>)
    ensures r.Ok? ==> |r.value| <= |u.bytes| && |r.value| <= (if n < 0 then 0 else n) && r.value == u.bytes[..|r.value|]
    ensures r.Err? <==> |u.bytes| < n && u.failure.Some?
    ensures r.Ok? && |u.bytes| >= n ==> |r.value| == (if n < 0 then 0 else n)
    ensures r.Ok? && |u.bytes| < n ==> r.value == u.bytes
  {
    var limit := if n < 0 then 0 else n;
    if |u.bytes| >= limit then Ok(u.bytes[..limit])
    else if u.failure.Some? then Err(u.failure.value)
    else Ok(u.bytes)
  }

  /** `validateContent`: the detected content type must fit the declared one.
      Images must match exactly; audio accepts any `audio/` detection, raw octet
      streams and `video/mp4`; any other declared type passes. */
  function ValidateContent(data: seq<byte>, declaredType: string, detect: seq<byte> -> string): (r: Option<string>)
    ensures data == [] ==> r == Some("empty file")
    ensures data != [] && HasPrefix(declaredType, "image/") ==> (r.None? <==> detect(data) == declaredType)
    ensures data != [] && HasPrefix(declaredType, "audio/") ==>
      (r.None? <==> HasPrefix(detect(data), "audio/") || detect(data) == "application/octet-stream"
                    || detect(data) == "video/mp4")
    ensures data != [] && !HasPrefix(declaredType, "image/") && !HasPrefix(declaredType, "audio/") ==> r.None?
  {
    if |data| == 0 then Some("empty file")
    else
      var detected := detect(data);
      if HasPrefix(declaredType, "image/") then
        if detected != declaredType then
          Some("file content type " + Quote(detected) + " does not match declared type " + Quote(declaredType))
        else None
      else if HasPrefix(declaredType, "audio/") then
        if HasPrefix(detected, "audio/") || detected == "application/octet-stream" || detected == "video/mp4" then None
        else Some("file content type " + Quote(detected) + " does not match declared audio type " + Quote(declaredType))
      else None
  }

  /** Empty data is refused before content detection: the detector plays no part. */
  lemma EmptyRejectedBeforeDetection(declaredType: string, d1: seq<byte> -> string, d2: seq<byte> -> string)
    ensures ValidateContent([], declaredType, d1) == ValidateContent([], declaredType, d2) == Some("empty file")
  {
  }

  /** Why `SaveFile` failed; `Message` gives the error text. */
  datatype SaveError =
    | Unsupported(mimeType: string)
    | ReadFailed(reason: string)
    | TooLarge(maxSize: int)
    | ContentRejected(reason: string)
    | WriteFailed(reason: string)

  function Message(e: SaveError): string {
    match e
    case Unsupported(m) => UnsupportedType(m)
    case ReadFailed(reason) => "reading upload: " + reason
    case TooLarge(maxSize) => "file exceeds maximum size of " + IntToString(maxSize) + " bytes"
    case ContentRejected(reason) => reason
    case WriteFailed(reason) => "writing file: " + reason
  }

  /** The file system operations the storage relies on. */
  datatype FileSystem = FileSystem(
    clean: string -> string,                     // filepath.Clean
    abs: string -> Result<string, string>,       // filepath.Abs
    rel: (string, string) -> Result<string, string>, // filepath.Rel
    mkdirAll: string -> Option<string>,          // os.MkdirAll, an error message on failure
    writeFile: (string, seq<byte>) -> Option<string>, // os.WriteFile
    remove: string -> Option<string>)            // os.Remove

  datatype Storage = Storage(baseDir: string, categories: seq<FileCategory>)

  /** The first subdirectory that cannot be created, as an error message. */
  function MkdirFailure(fs: FileSystem, baseDir: string, cats: seq<FileCategory>): Option<string>
    decreases |cats|
  {
    if cats == [] then None
    else
      var dir := JoinPath(fs.clean, baseDir, cats[0].subdir);
      match fs.mkdirAll(dir)
      case Some(e) => Some("creating upload directory " + dir + ": " + e)
      case None => MkdirFailure(fs, baseDir, cats[1..])
  }

  /** `NewStorage`: the defaults with the options applied, each subdirectory created. */
  method NewStorage(baseDir: string, opts: seq<StorageOption>, fs: FileSystem) returns (r: Result<Storage, string>)
    ensures var cats := ApplyOptions(DefaultCategories(), opts);
      match MkdirFailure(fs, baseDir, cats)
      case Some(e) => r == Err(e)
      case None => r == Ok(Storage(baseDir, cats))
  {
    var cats := DefaultCategories();
    for i := 0 to |opts|
      invariant cats == ApplyOptions(DefaultCategories(), opts[..i])
    {
      assert opts[..i + 1][..i] == opts[..i];
      cats := ApplyOption(cats, opts[i]);
    }
    assert opts[..|opts|] == opts;
    for i := 0 to |cats|
      invariant MkdirFailure(fs, baseDir, cats) == MkdirFailure(fs, baseDir, cats[i..])
    {
      var dir := JoinPath(fs.clean, baseDir, cats[i].subdir);
      var err := fs.mkdirAll(dir);
      if err.Some? {
        return Err("creating upload directory " + dir + ": " + err.value);
      }
      assert cats[i..][1..] == cats[i + 1..];
    }
    return Ok(Storage(baseDir, cats));
  }

  /** What `SaveFile` returns, and the file it wrote, if any. */
  datatype SaveOutcome = SaveOutcome(result: Result<string, SaveError>, wrote: Option<(string, seq<byte>)>)

  /** The stages of `SaveFile` after classification. */
  function StoreClassified(s: Storage, c: Classified, upload: Upload, mimeType: string,
                           detect: seq<byte> -> string, name: string, fs: FileSystem): (r: SaveOutcome)
    ensures r.result.Ok? ==> r.wrote.Some? && r.result.value == JoinPath(fs.clean, c.cat.subdir, name + c.ext)
    ensures r.wrote.Some? ==>
      0 < |upload.bytes| <= c.cat.maxSize && r.wrote.value == (JoinPath(fs.clean, s.baseDir, JoinPath(fs.clean, c.cat.subdir, name + c.ext)), upload.bytes)
    ensures |upload.bytes| > c.cat.maxSize && c.cat.maxSize < MaxInt64 ==> r == SaveOutcome(Err(TooLarge(c.cat.maxSize)), None)
    ensures c.cat.maxSize == MaxInt64 ==> r == SaveOutcome(Err(ContentRejected("empty file")), None)
  {
    match ReadLimited(upload, AddInt64(c.cat.maxSize, 1))
    case Err(e) => SaveOutcome(Err(ReadFailed(e)), None)
    case Ok(data) =>
      if |data| > c.cat.maxSize then SaveOutcome(Err(TooLarge(c.cat.maxSize)), None)
      else match ValidateContent(data, mimeType, detect)
        case Some(e) => SaveOutcome(Err(ContentRejected(e)), None)
        case None =>
          var relPath := JoinPath(fs.clean, c.cat.subdir, name + c.ext);
          var absPath := JoinPath(fs.clean, s.baseDir, relPath);
          match fs.writeFile(absPath, data)
          case Some(e) => SaveOutcome(Err(WriteFailed(e)), Some((absPath, data)))
          case None => SaveOutcome(Ok(relPath), Some((absPath, data)))
  }

  /** `SaveFile`; `name` is the generated UUID string. */
  method SaveFile(s: Storage, upload: Upload, mimeType: string, detect: seq<byte> -> string,
                  name: string, fs: FileSystem) returns (r: SaveOutcome)
    ensures FirstMatch(s.categories, mimeType).None? ==> r == SaveOutcome(Err(Unsupported(mimeType)), None)
    ensures FirstMatch(s.categories, mimeType).Some? ==>
      var c := s.categories[FirstMatch(s.categories, mimeType).value];
      r == StoreClassified(s, Classified(c, c.allowedTypes[mimeType]), upload, mimeType, detect, name, fs)
  {
    var classified := Classify(s.categories, mimeType);
    if classified.Err? {
      return SaveOutcome(Err(Unsupported(mimeType)), None);
    }
    r := StoreClassified(s, classified.value, upload, mimeType, detect, name, fs);
  }

  /** A size exactly at the limit passes the size check; one byte more does not. */
  lemma SizeBoundary(s: Storage, c: Classified, upload: Upload, mimeType: string,
                     detect: seq<byte> -> string, name: string, fs: FileSystem)
    requires 0 <= c.cat.maxSize < MaxInt64 && upload.failure.None?
    ensures |upload.bytes| <= c.cat.maxSize <==>
      StoreClassified(s, c, upload, mimeType, detect, name, fs).result != Err(TooLarge(c.cat.maxSize))
  {
  }

  /** At the largest `int64` limit, `MaxSize+1` wraps to a negative count, the
      limited reader yields nothing, and every upload is refused as empty: no size
      can be stored, whatever the stream holds. */
  lemma LargestLimitRefusesAll(s: Storage, c: Classified, upload: Upload, mimeType: string,
                               detect: seq<byte> -> string, name: string, fs: FileSystem)
    requires c.cat.maxSize == MaxInt64
    ensures AddInt64(c.cat.maxSize, 1) == MinInt64
    ensures ReadLimited(upload, AddInt64(c.cat.maxSize, 1)) == Ok([])
    ensures StoreClassified(s, c, upload, mimeType, detect, name, fs).wrote.None?
  {
  }

  /** Nothing is written unless classification, reading, the size check and the
      content check all pass. */
  lemma WriteOnlyAfterChecks(s: Storage, c: Classified, upload: Upload, mimeType: string,
                             detect: seq<byte> -> string, name: string, fs: FileSystem)
    ensures var r := StoreClassified(s, c, upload, mimeType, detect, name, fs);
      r.wrote.Some? <==> r.result.Ok? || r.result.error.WriteFailed?
    ensures var r := StoreClassified(s, c, upload, mimeType, detect, name, fs);
      r.wrote.Some? ==> ValidateContent(r.wrote.value.1, mimeType, detect).None?
  {
  }

  /** What `DeleteFile` reports, and the path it asked the file system to remove, if any. */
  datatype DeleteOutcome = DeleteOutcome(error: Option<string>, removed: Option<string>)

  const TraversalDetected := "invalid file path: path traversal detected"

  /** `DeleteFile`: a cleaned path that mentions `..` is refused outright; an
      accepted one must still resolve inside the base directory. */
  function DeleteFile(s: Storage, relPath: string, fs: FileSystem): (r: DeleteOutcome)
    ensures Contains(fs.clean(relPath), "..") ==> r == DeleteOutcome(Some(TraversalDetected), None)
    ensures r.removed.Some? ==> !Contains(fs.clean(relPath), "..")
    ensures r.removed.Some? ==> exists base, resolved ::
      fs.abs(s.baseDir) == Ok(base) && fs.abs(JoinPath(fs.clean, s.baseDir, fs.clean(relPath))) == Ok(resolved)
      && r.removed.value == resolved && fs.rel(base, resolved).Ok? && !HasPrefix(fs.rel(base, resolved).value, "..")
  {
    var cleaned := fs.clean(relPath);
    if Contains(cleaned, "..") then DeleteOutcome(Some(TraversalDetected), None)
    else
      var absPath := JoinPath(fs.clean, s.baseDir, cleaned);
      match fs.abs(absPath)
      case Err(e) => DeleteOutcome(Some("resolving path: " + e), None)
      case Ok(resolved) =>
        match fs.abs(s.baseDir)
        case Err(e) => DeleteOutcome(Some("resolving base: " + e), None)
        case Ok(base) =>
          var rel := fs.rel(base, resolved);
          if rel.Err? || HasPrefix(rel.value, "..") then
            DeleteOutcome(Some("invalid file path: outside base directory"), None)
          else DeleteOutcome(fs.remove(resolved), Some(resolved))
  }
}
