/**
 * The upload checks the handlers repeat (filesHandler.go, productHandler.go
 * and usersHandler.go): a file is accepted when the extension of its name,
 * `strings.TrimPrefix(filepath.Ext(name), ".")`, is png, jpg or jpeg, and
 * its size does not exceed the configured `FileLimit`. The loop of
 * `UploadFiles` checks the files in order, stops at the first rejected one,
 * and otherwise builds one upload request per file.
 */
module Uploads {
  import opened SqlText
  import opened Entities

  // ---------------------------------------------------------------------------
  // Extensions

  /**
   * `filepath.Ext` with "/" as the separator: the suffix from the last "."
   * of the last path element, or "" when that element has no ".".
   */
  function Ext(path: string): string
  {
    if path == [] || path[|path| - 1] == '/' then []
    else if path[|path| - 1] == '.' then "."
    else
      var e := Ext(path[..|path| - 1]);
      if e == [] then [] else e + [path[|path| - 1]]
  }

  /** A non-empty `Ext` is a suffix of the path: a "." followed by text without "." or "/". */
  lemma {:induction false} ExtShape(path: string)
    ensures var r := Ext(path);
      r != [] ==> r[0] == '.' && |r| <= |path| && path[|path| - |r|..] == r && Free(r[1..], '.') && Free(r, '/')
  {
    if path != [] && path[|path| - 1] != '/' && path[|path| - 1] != '.' {
      var init := path[..|path| - 1];
      ExtShape(init);
      var e := Ext(init);
      if e != [] {
        var c := path[|path| - 1];
        assert path[|path| - |e| - 1..] == init[|init| - |e|..] + [c];
        assert (e + [c])[1..] == e[1..] + [c];
      }
    }
  }

  /** The extension the handlers compare: `Ext` without its leading ".". */
  function FileExtension(name: string): string
  {
    TrimPrefix(Ext(name), ".")
  }

  /** The extension has no "." or "/", and when non-empty the name ends with "." and it. */
  lemma FileExtensionShape(name: string)
    ensures var r := FileExtension(name);
      Free(r, '.') && Free(r, '/') && (r != [] ==> |r| < |name| && name[|name| - |r| - 1..] == "." + r)
  {
    ExtShape(name);
    var e := Ext(name);
    assert e != [] ==> e == "." + e[1..];
  }

  /** A name that ends in "." and a dot-free text has that text as its extension. */
  lemma {:induction false} ExtOfName(base: string, e: string)
    requires Free(e, '.') && Free(e, '/')
    ensures Ext(base + "." + e) == "." + e
    ensures FileExtension(base + "." + e) == e
  {
    if e != [] {
      var init := e[..|e| - 1];
      ExtOfName(base, init);
      assert (base + "." + e)[..|base + "." + e| - 1] == base + "." + init;
      assert "." + init + [e[|e| - 1]] == "." + e;
    }
    assert ("." + e)[..1] == "." && ("." + e)[1..] == e;
  }

  /** A name without "." has no extension. */
  lemma NoDotNoExtension(name: string)
    requires Free(name, '.')
    ensures FileExtension(name) == []
  {
    ExtShape(name);
  }

  /** The handlers' `extMap`. */
  const ExtMap: map<string, string> := map["png" := "png", "jpg" := "jpg", "jpeg" := "jpeg"]

  /** Go's map index: the stored value, or "" for a missing key. */
  function MapGet(m: map<string, string>, key: string): string
  {
    if key in m then m[key] else ""
  }

  /** The handlers' test `extMap[ext] != ext || extMap[ext] == ""`. */
  predicate ExtRejected(ext: string)
  {
    MapGet(ExtMap, ext) != ext || MapGet(ExtMap, ext) == ""
  }

  /** Exactly png, jpg and jpeg pass, compared case-sensitively. */
  lemma ExtAllowList(ext: string)
    ensures !ExtRejected(ext) <==> ext == "png" || ext == "jpg" || ext == "jpeg"
  {
  }

  // ---------------------------------------------------------------------------
  // Sizes

  const MiB: int := 1048576

  /**
   * `int(math.Ceil(float64(limit) / math.Pow(1024, 2)))`: the limit in MB,
   * rounded up (exact while the limit is below 2^53 in magnitude).
   */
  function LimitMb(limit: int): (r: int)
    ensures (r - 1) * MiB < limit <= r * MiB
  {
    -((-limit) / MiB)
  }

  function SizeMessage(limit: int): string
  {
    "file size must less than " + IntToString(LimitMb(limit)) + " MB"
  }

  // ---------------------------------------------------------------------------
  // One file

  datatype FileCheck = FileOk | BadExtension | TooLarge

  /** The extension is checked first, then `Size > FileLimit`. */
  function CheckFile(file: FileHeader, fileLimit: int): FileCheck
  {
    if ExtRejected(FileExtension(file.filename)) then BadExtension
    else if file.size > fileLimit then TooLarge
    else FileOk
  }

  /** A file passes iff its extension is png, jpg or jpeg and its size is at most the limit. */
  lemma CheckFileAccepts(file: FileHeader, fileLimit: int)
    ensures var ext := FileExtension(file.filename);
      CheckFile(file, fileLimit) == FileOk <==> (ext == "png" || ext == "jpg" || ext == "jpeg") && file.size <= fileLimit
    ensures CheckFile(file, fileLimit) == TooLarge ==> !ExtRejected(FileExtension(file.filename)) && file.size > fileLimit
  {
    ExtAllowList(FileExtension(file.filename));
  }

  /** The message of a rejected file. */
  function CheckMessage(check: FileCheck, fileLimit: int): string
  {
    if check == BadExtension then "invalid file extension" else SizeMessage(fileLimit)
  }

  // ---------------------------------------------------------------------------
  // All the files

  /** The verdict of the first rejected file, or `FileOk` when every file passes. */
  function Validate(files: seq<FileHeader>, fileLimit: int): (r: FileCheck)
    ensures r == FileOk <==> forall i :: 0 <= i < |files| ==> CheckFile(files[i], fileLimit) == FileOk
  {
    if files == [] then FileOk
    else if CheckFile(files[0], fileLimit) != FileOk then CheckFile(files[0], fileLimit)
    else
      var r := Validate(files[1..], fileLimit);
      assert forall i :: 1 <= i < |files| ==> files[i] == files[1..][i - 1];
      r
  }

  /** When the files before `k` pass and file `k` does not, file `k` decides. */
  lemma {:induction false} ValidateFirst(files: seq<FileHeader>, fileLimit: int, k: nat)
    requires k < |files| && CheckFile(files[k], fileLimit) != FileOk
    requires forall j :: 0 <= j < k ==> CheckFile(files[j], fileLimit) == FileOk
    ensures Validate(files, fileLimit) == CheckFile(files[k], fileLimit)
  {
    if k > 0 {
      var rest := files[1..];
      assert forall j :: 0 <= j < k - 1 ==> rest[j] == files[j + 1];
      ValidateFirst(rest, fileLimit, k - 1);
    }
  }

  /** The request for a file: uploaded as `folder/name`. */
  function Request(file: FileHeader, folder: string, name: string): FileReq
  {
    FileReq(file, folder + "/" + name, name, FileExtension(file.filename))
  }

  /**
   * The requests built for `files`: the i-th file gets the i-th name drawn
   * from `randName` (`utils.RandFileName(ext)`), in input order.
   */
  function PlannedRequests(files: seq<FileHeader>, folder: string, randName: (nat, string) -> string): (r: seq<FileReq>)
    ensures |r| == |files|
    ensures forall i :: 0 <= i < |r| ==> r[i] == Request(files[i], folder, randName(i, FileExtension(files[i].filename)))
  {
    seq(|files|, i requires 0 <= i < |files| => Request(files[i], folder, randName(i, FileExtension(files[i].filename))))
  }

  /**
   * The loop of the handlers: checks each file in turn, returning at the first
   * rejected one, and appends one request per accepted file.
   */
  method BuildRequests(files: seq<FileHeader>, folder: string, fileLimit: int, randName: (nat, string) -> string)
    returns (check: FileCheck, reqs: seq<FileReq>)
    ensures check == Validate(files, fileLimit)
    ensures check == FileOk ==> reqs == PlannedRequests(files, folder, randName)
  {
    reqs := [];
    for i := 0 to |files|
      invariant forall j :: 0 <= j < i ==> CheckFile(files[j], fileLimit) == FileOk
      invariant reqs == PlannedRequests(files[..i], folder, randName)
    {
      var file := files[i];
      var ext := TrimPrefix(Ext(file.filename), ".");
      assert ext == FileExtension(file.filename);
      if ExtRejected(ext) {
        ValidateFirst(files, fileLimit, i);
        return BadExtension, reqs;
      }
      if file.size > fileLimit {
        ValidateFirst(files, fileLimit, i);
        return TooLarge, reqs;
      }
      var filename := randName(i, ext);
      PlannedSnoc(files, i, folder, randName);
      reqs := reqs + [FileReq(file, folder + "/" + filename, filename, ext)];
    }
    assert files[..|files|] == files;
    check := FileOk;
  }

  lemma PlannedSnoc(files: seq<FileHeader>, i: nat, folder: string, randName: (nat, string) -> string)
    requires i < |files|
    ensures PlannedRequests(files[..i + 1], folder, randName)
      == PlannedRequests(files[..i], folder, randName) + [Request(files[i], folder, randName(i, FileExtension(files[i].filename)))]
  {
    assert files[..i + 1][..i] == files[..i];
  }

  // ---------------------------------------------------------------------------
  // The files handler

  /**
   * What a handler did: its response, the requests it handed to
   * `UploadToGCP` (None when it never called it), and the value it handed on
   * (to the usecase, or back to the client).
   */
  datatype Outcome<T> = Outcome(response: Response, uploads: Option<seq<FileReq>>, handed: Option<T>)

  /** A 4xx or 5xx answer before anything was uploaded or handed on. */
  function Refused<T>(status: int, code: string, message: string): Outcome<T>
  {
    Outcome(Failure(status, code, message), None, None)
  }

  /** `form.File[key]`, nil (empty) when the key is missing. */
  function FilesOf(form: MultipartForm, key: string): seq<FileHeader>
  {
    if key in form.file then form.file[key] else []
  }

  /** `form.Value[key]`, nil (empty) when the key is missing. */
  function ValuesOf(form: MultipartForm, key: string): seq<string>
  {
    if key in form.value then form.value[key] else []
  }

  /** An optional form field: its first value when present with a value, else "". */
  function FirstValue(form: MultipartForm, key: string): string
  {
    if key in form.value && |form.value[key]| > 0 then form.value[key][0] else ""
  }

  const UploadFilesErr: string := "files-001"

  /**
   * `fileHandler.UploadFiles`: parse the form, check the "files" parts,
   * upload them under the folder named by "destination" (formatted as a Go
   * slice), and answer 201 with the upload results.
   */
  function UploadFiles(form: Parse<MultipartForm>, fileLimit: int, randName: (nat, string) -> string,
                       upload: seq<FileReq> -> UploadOutcome): (r: Outcome<seq<FileRes>>)
    ensures r.uploads.Some? <==>
      form.Parsed? && forall i :: 0 <= i < |FilesOf(form.value, "files")| ==> CheckFile(FilesOf(form.value, "files")[i], fileLimit) == FileOk
    ensures r.uploads.Some? ==> (|r.uploads.value| == |FilesOf(form.value, "files")|
      && forall i :: 0 <= i < |r.uploads.value| ==> r.uploads.value[i].file == FilesOf(form.value, "files")[i])
    ensures r.uploads.Some? ==>
      r.uploads.value == PlannedRequests(FilesOf(form.value, "files"), GoSliceString(ValuesOf(form.value, "destination")), randName)
    ensures r.uploads.Some? && upload(r.uploads.value).UploadFailed? ==>
      r.response == Failure(StatusInternalServerError, UploadFilesErr, upload(r.uploads.value).err)
    ensures r.response.Success? <==> r.uploads.Some? && upload(r.uploads.value).Uploaded?
    ensures r.response.Success? ==> r.response.status == StatusCreated && r.handed == Some(upload(r.uploads.value).results)
  {
    if form.ParseFailed? then Refused(StatusBadRequest, UploadFilesErr, form.err)
    else
      var files := FilesOf(form.value, "files");
      var folder := GoSliceString(ValuesOf(form.value, "destination"));
      var check := Validate(files, fileLimit);
      if check != FileOk then Refused(StatusBadRequest, UploadFilesErr, CheckMessage(check, fileLimit))
      else
        var reqs := PlannedRequests(files, folder, randName);
        match upload(reqs)
        case UploadFailed(err) => Outcome(Failure(StatusInternalServerError, UploadFilesErr, err), Some(reqs), None)
        case Uploaded(res) => Outcome(Success(StatusCreated), Some(reqs), Some(res))
  }

  /** The first rejected file aborts the request with its message, before any upload. */
  lemma UploadFilesFirstRejected(form: MultipartForm, fileLimit: int, randName: (nat, string) -> string,
                                 upload: seq<FileReq> -> UploadOutcome, k: nat)
    requires var files := FilesOf(form, "files");
      k < |files| && CheckFile(files[k], fileLimit) != FileOk
      && forall j :: 0 <= j < k ==> CheckFile(files[j], fileLimit) == FileOk
    ensures var check := CheckFile(FilesOf(form, "files")[k], fileLimit);
      UploadFiles(Parsed(form), fileLimit, randName, upload)
        == Refused(StatusBadRequest, UploadFilesErr, CheckMessage(check, fileLimit))
  {
    ValidateFirst(FilesOf(form, "files"), fileLimit, k);
  }

  /** A file exactly at the limit passes the size check. */
  lemma SizeAtLimitPasses(name: string, size: int, fileLimit: int)
    requires !ExtRejected(FileExtension(name)) && size == fileLimit
    ensures CheckFile(FileHeader(name, size), fileLimit) == FileOk
  {
  }

  /** A name without "." is rejected, and so is an upper-case extension. */
  lemma ExtensionRules(base: string)
    ensures Free(base, '.') ==> CheckFile(FileHeader(base, 0), 0) == BadExtension
    ensures CheckFile(FileHeader(base + ".PNG", 0), 0) == BadExtension
    ensures CheckFile(FileHeader(base + ".png", 0), 0) == FileOk
  {
    if Free(base, '.') {
      NoDotNoExtension(base);
    }
    ExtOfName(base, "PNG");
    ExtOfName(base, "png");
    assert base + ".PNG" == base + "." + "PNG";
    assert base + ".png" == base + "." + "png";
    ExtAllowList("PNG");
    ExtAllowList("png");
  }
}
