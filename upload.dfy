/**
 * The client-side upload service: the 10 MB size check and its message, the validation of a
 * batch, the image-type test, and the checks applied to the upload server's reply. The request
 * itself is a parameter: what `fetch` and `response.json()` produced.
 */
module Upload {
  import opened Wrappers
  import opened Text
  import opened Units

  /** A browser `File`: its name, its size in bytes and its MIME type. */
  datatype File = File(name: string, size: nat, mime: string)

  /** `UploadedFile`, as the upload server describes a stored file. */
  datatype UploadedFile = UploadedFile(
    originalName: string,
    fileName: string,
    extension: string,
    size: nat,
    url: string,
    path: string)

  /** The parsed reply body: `UploadResponse` or `UploadError`, with every field that may be absent optional. */
  datatype Body = Body(
    success: bool,
    message: Option<string>,
    file: Option<UploadedFile>,
    files: Option<seq<UploadedFile>>)

  /** A reply: `response.ok`, the status, and the body or the message of the JSON parse error. */
  datatype Reply = Reply(ok: bool, status: int, body: Result<Body, string>)

  const MiB := 1024 * 1024
  const MaxSize := 10 * MiB

  const NoFilesProvided := "No files provided"
  const TooManyFiles := "Maximum 10 files allowed"
  const UploadFailed := "Upload failed"
  const NoFileReturned := "No file returned from upload"
  const NoFilesReturned := "No files returned from upload"

  /** `a || b` on strings: the first one unless it is absent or empty. */
  function OrElse(a: Option<string>, b: string): (r: string)
    ensures r == b || (a.Some? && r == a.value && r != "")
    ensures a.Some? && a.value != "" ==> r == a.value
  {
    if a.Some? && a.value != "" then a.value else b
  }

  /** `size / 1024 / 1024` in hundredths, rounded to nearest with halves up, as `toFixed(2)` rounds. */
  function Hundredths(size: nat): nat {
    (size * 100 + MiB / 2) / MiB
  }

  /** The rounding is to the nearest hundredth. */
  lemma HundredthsNearest(size: nat)
    ensures Hundredths(size) * MiB <= size * 100 + MiB / 2 < (Hundredths(size) + 1) * MiB
  {
  }

  /** `toFixed(2)` of a number given in hundredths: the whole part, a point, two digits. */
  function ToFixed2(n: nat): (r: string)
    ensures |r| >= 4
  {
    var d := PadLeft(NatToString(n), 3);
    d[..|d| - 2] + "." + d[|d| - 2..]
  }

  /**
   * The rendering holds the number exactly: a whole part without superfluous leading zero, a
   * point and two fractional digits whose concatenation reads back as the hundredths.
   */
  lemma ToFixed2Reading(n: nat)
    ensures var r := ToFixed2(n);
      && r[|r| - 3] == '.'
      && AllDigits(r[..|r| - 3]) && AllDigits(r[|r| - 2..])
      && DigitsValue(r[..|r| - 3] + r[|r| - 2..]) == n
      && (|r| > 4 ==> r[0] != '0')
  {
    var s := NatToString(n);
    var d := PadLeft(s, 3);
    var r := ToFixed2(n);
    PadLeftValue(s, 3);
    NatToStringValue(n);
    assert r[..|r| - 3] == d[..|d| - 2];
    assert r[|r| - 2..] == d[|d| - 2..];
    assert d[..|d| - 2] + d[|d| - 2..] == d;
    if |r| > 4 {
      assert d == s;
    }
  }

  /** The error of the size check. */
  function SizeMessage(size: nat): string {
    "File size must be less than 10MB. Current size: " + ToFixed2(Hundredths(size)) + "MB"
  }

  datatype Validation = Validation(valid: bool, error: Option<string>)

  /** `validateFile`: valid exactly up to 10 MB inclusive; the error names the size in MB. */
  function ValidateFile(f: File): (v: Validation)
    ensures v.valid <==> f.size <= MaxSize
    ensures v.valid <==> v.error.None?
    ensures !v.valid ==> v.error.value == SizeMessage(f.size)
  {
    if f.size > MaxSize then Validation(false, Some(SizeMessage(f.size))) else Validation(true, None)
  }

  /** The error reported for the file at 1-based `position`. */
  function FileError(position: nat, f: File): string
    requires !ValidateFile(f).valid
  {
    "File " + NatToString(position) + " (" + f.name + "): " + ValidateFile(f).error.value
  }

  /** The per-file errors of `validateFiles`, in file order. */
  function PerFileErrors(files: seq<File>): (r: seq<string>)
    ensures |r| <= |files|
  {
    if files == [] then []
    else
      var last := files[|files| - 1];
      PerFileErrors(files[..|files| - 1]) + if ValidateFile(last).valid then [] else [FileError(|files|, last)]
  }

  /** Checking one more file appends its error, if it has one. */
  lemma PerFileErrorsStep(files: seq<File>, index: nat)
    requires index < |files|
    ensures PerFileErrors(files[..index + 1]) == PerFileErrors(files[..index])
      + if ValidateFile(files[index]).valid then [] else [FileError(index + 1, files[index])]
  {
    assert files[..index + 1][..index] == files[..index];
  }

  lemma AppendAssociative<T>(a: seq<T>, b: seq<T>, c: seq<T>)
    ensures (a + b) + c == a + (b + c)
  {
  }

  /** All errors of `validateFiles`: the two count errors first, then the per-file errors. */
  function FilesErrors(files: seq<File>): seq<string> {
    (if |files| == 0 then [NoFilesProvided] else [])
    + (if |files| > 10 then [TooManyFiles] else [])
    + PerFileErrors(files)
  }

  lemma {:induction false} PerFileErrorsEmpty(files: seq<File>)
    ensures PerFileErrors(files) == [] <==> forall i :: 0 <= i < |files| ==> files[i].size <= MaxSize
  {
    if files != [] {
      PerFileErrorsEmpty(files[..|files| - 1]);
      assert forall i :: 0 <= i < |files| - 1 ==> files[..|files| - 1][i] == files[i];
    }
  }

  /**
   * A batch is valid exactly when it holds one to ten files, none of them over 10 MB; the count
   * errors, when present, come first.
   */
  lemma ValidateFilesMeaning(files: seq<File>)
    ensures FilesErrors(files) == [] <==> 1 <= |files| <= 10 && forall i :: 0 <= i < |files| ==> files[i].size <= MaxSize
    ensures |files| == 0 ==> FilesErrors(files) == [NoFilesProvided]
    ensures |files| > 10 ==> FilesErrors(files)[0] == TooManyFiles
    ensures |files| > 0 ==> |FilesErrors(files)| <= |files| + 1
  {
    PerFileErrorsEmpty(files);
  }

  /** `validateFiles`: the errors pushed in order, and validity as their absence. */
  method ValidateFiles(files: seq<File>) returns (valid: bool, errors: seq<string>)
    ensures errors == FilesErrors(files)
    ensures valid <==> errors == []
  {
    errors := [];
    if |files| == 0 {
      errors := errors + [NoFilesProvided];
    }
    if |files| > 10 {
      errors := errors + [TooManyFiles];
    }
    ghost var counts := errors;
    ghost var perFile: seq<string> := [];
    var index := 0;
    while index < |files|
      invariant 0 <= index <= |files|
      invariant perFile == PerFileErrors(files[..index])
      invariant errors == counts + perFile
    {
      PerFileErrorsStep(files, index);
      var validation := ValidateFile(files[index]);
      if !validation.valid {
        var e := FileError(index + 1, files[index]);
        AppendAssociative(counts, perFile, [e]);
        errors := errors + [e];
        perFile := perFile + [e];
      }
      index := index + 1;
    }
    assert files[..index] == files;
    valid := |errors| == 0;
  }

  /** `isImageFile`: the MIME type starts with `image/`. */
  function IsImageFile(f: File): (b: bool)
    ensures b <==> |f.mime| >= 6 && f.mime[..6] == "image/"
  {
    StartsWith(f.mime, "image/")
  }

  /** The checks every upload reply goes through before its payload is looked at. */
  function ReplyBody(fetched: Result<Reply, string>): (r: Result<Body, string>)
    ensures r.Ok? <==> fetched.Ok? && fetched.value.body.Ok? && fetched.value.ok && fetched.value.body.value.success
    ensures r.Ok? ==> r.value == fetched.value.body.value
    ensures fetched.Err? ==> r == Err(fetched.error)
    ensures fetched.Ok? && fetched.value.body.Err? ==> r == Err(fetched.value.body.error)
    ensures fetched.Ok? && fetched.value.body.Ok? && !r.Ok? ==> r == Err(OrElse(fetched.value.body.value.message, UploadFailed))
  {
    match fetched
    case Err(e) => Err(e)
    case Ok(reply) =>
      match reply.body
      case Err(e) => Err(e)
      case Ok(body) =>
        if !reply.ok then Err(OrElse(body.message, UploadFailed))
        else if !body.success then Err(OrElse(body.message, UploadFailed))
        else Ok(body)
  }

  /**
   * `uploadSingleFile`, given the outcome of the request: the file the server returns, or the
   * message of the first failing check (a failed request or an unreadable body keeps its own).
   */
  function UploadSingleFile(fetched: Result<Reply, string>): (r: Result<UploadedFile, string>)
    ensures r.Ok? <==> ReplyBody(fetched).Ok? && ReplyBody(fetched).value.file.Some?
    ensures r.Ok? ==> r.value == fetched.value.body.value.file.value
    ensures fetched.Ok? && fetched.value.body.Ok? && !fetched.value.ok ==> r == Err(OrElse(fetched.value.body.value.message, UploadFailed))
    ensures ReplyBody(fetched).Ok? && ReplyBody(fetched).value.file.None? ==> r == Err(NoFileReturned)
    ensures ReplyBody(fetched).Err? ==> r == Err(ReplyBody(fetched).error)
  {
    match ReplyBody(fetched)
    case Err(e) => Err(e)
    case Ok(body) =>
      if body.file.None? then Err(NoFileReturned) else Ok(body.file.value)
  }

  /**
   * `uploadMultipleFiles`: an empty batch and one of more than ten files are refused before any
   * request; otherwise the reply must carry a non-empty `files` list.
   */
  function UploadMultipleFiles(files: seq<File>, fetched: Result<Reply, string>): (r: Result<seq<UploadedFile>, string>)
    ensures |files| == 0 ==> r == Err(NoFilesProvided)
    ensures |files| > 10 ==> r == Err(TooManyFiles)
    ensures r.Ok? <==> 1 <= |files| <= 10 && ReplyBody(fetched).Ok?
                       && ReplyBody(fetched).value.files.Some? && ReplyBody(fetched).value.files.value != []
    ensures r.Ok? ==> r.value == fetched.value.body.value.files.value
    ensures 1 <= |files| <= 10 && ReplyBody(fetched).Ok? && !r.Ok? ==> r == Err(NoFilesReturned)
    ensures 1 <= |files| <= 10 && ReplyBody(fetched).Err? ==> r == Err(ReplyBody(fetched).error)
  {
    if |files| == 0 then Err(NoFilesProvided)
    else if |files| > 10 then Err(TooManyFiles)
    else
      match ReplyBody(fetched)
      case Err(e) => Err(e)
      case Ok(body) =>
        if body.files.None? || body.files.value == [] then Err(NoFilesReturned) else Ok(body.files.value)
  }

  /**
   * The count checks of the upload agree with those of `validateFiles`: a batch refused before
   * the request is refused whatever the server would say, with the first error validation reports.
   */
  lemma UploadRefusesBeforeRequest(files: seq<File>, a: Result<Reply, string>, b: Result<Reply, string>)
    requires |files| == 0 || |files| > 10
    ensures UploadMultipleFiles(files, a) == UploadMultipleFiles(files, b)
    ensures UploadMultipleFiles(files, a) == Err(FilesErrors(files)[0])
  {
  }
}
