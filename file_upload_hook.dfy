/**
 * The state of the file-upload hook: the list of uploaded files, the last error, the progress
 * and the uploading flag, with the hook's own validation in front of the upload service's.
 */
module FileUploadHook {
  import opened Wrappers
  import opened Text
  import Upload

  /** The hook's options; sizes are in whole MB. */
  datatype Options = Options(maxFiles: nat, maxFileSize: nat, acceptedTypes: seq<string>)

  const DefaultOptions := Options(10, 10, [])

  /** `array.join(separator)`. */
  function Join(parts: seq<string>, separator: string): string {
    if parts == [] then ""
    else if |parts| == 1 then parts[0]
    else parts[0] + separator + Join(parts[1..], separator)
  }

  function SizeMessage(opts: Options, formattedSize: string): string {
    "File size must be less than " + NatToString(opts.maxFileSize) + "MB. Current size: " + formattedSize
  }

  function TypeMessage(opts: Options): string {
    "File type not allowed. Accepted types: " + Join(opts.acceptedTypes, ", ")
  }

  /**
   * The hook's `validateFile`: its own size cap, then the accepted types when a list is given,
   * then the service's check; the first failing check supplies the error. `formatSize` stands
   * for `formatFileSize`.
   */
  function ValidateFile(opts: Options, formatSize: nat -> string, f: Upload.File): (v: Upload.Validation)
    ensures v.valid <==> v.error.None?
    ensures f.size > opts.maxFileSize * Upload.MiB ==> v == Upload.Validation(false, Some(SizeMessage(opts, formatSize(f.size))))
    ensures f.size <= opts.maxFileSize * Upload.MiB && |opts.acceptedTypes| > 0 && f.mime !in opts.acceptedTypes
            ==> v == Upload.Validation(false, Some(TypeMessage(opts)))
    ensures f.size <= opts.maxFileSize * Upload.MiB && (|opts.acceptedTypes| == 0 || f.mime in opts.acceptedTypes)
            ==> v == Upload.ValidateFile(f)
  {
    if f.size > opts.maxFileSize * Upload.MiB then
      Upload.Validation(false, Some(SizeMessage(opts, formatSize(f.size))))
    else if |opts.acceptedTypes| > 0 && f.mime !in opts.acceptedTypes then
      Upload.Validation(false, Some(TypeMessage(opts)))
    else Upload.ValidateFile(f)
  }

  /**
   * A file the hook accepts also passes the service's own check: it is at most
   * min(maxFileSize, 10) MB, and of an accepted type when a list is given.
   */
  lemma AcceptedMeansAllChecks(opts: Options, formatSize: nat -> string, f: Upload.File)
    ensures ValidateFile(opts, formatSize, f).valid <==>
            && f.size <= opts.maxFileSize * Upload.MiB
            && f.size <= Upload.MaxSize
            && (|opts.acceptedTypes| == 0 || f.mime in opts.acceptedTypes)
    ensures ValidateFile(opts, formatSize, f).valid ==> Upload.ValidateFile(f).valid
  {
  }

  /** One tick of the simulated progress: stop at 90, otherwise add 10. */
  function ProgressStep(prev: int): int {
    if prev >= 90 then 90 else prev + 10
  }

  function Ticks(n: nat): int {
    if n == 0 then 0 else ProgressStep(Ticks(n - 1))
  }

  /** From 0, the simulated progress after `n` ticks is min(10n, 90): it never passes 90. */
  lemma {:induction false} TicksBounded(n: nat)
    ensures Ticks(n) == if 10 * n <= 90 then 10 * n else 90
  {
    if n > 0 {
      TicksBounded(n - 1);
    }
  }

  /** `prev.filter((_, i) => i !== index)`. */
  function Without<T>(s: seq<T>, index: int): (r: seq<T>)
  {
    if s == [] then []
    else (if index == 0 then [] else [s[0]]) + Without(s[1..], index - 1)
  }

  /** Filtering out one index removes exactly that element and keeps the others in order. */
  lemma {:induction false} WithoutMeaning<T>(s: seq<T>, index: int)
    ensures 0 <= index < |s| ==> Without(s, index) == s[..index] + s[index + 1..]
    ensures !(0 <= index < |s|) ==> Without(s, index) == s
  {
    if s != [] {
      WithoutMeaning(s[1..], index - 1);
      if 0 < index < |s| {
        assert s[..index] == [s[0]] + s[1..][..index - 1];
        assert s[index + 1..] == s[1..][index..];
      }
    }
  }

  /**
   * What `uploadMultipleFiles` decides: the hook's file-count cap, then each file in order
   * (the first invalid one decides), then the service's upload.
   */
  function UploadManyOutcome(opts: Options, formatSize: nat -> string, files: seq<Upload.File>,
                             fetched: Result<Upload.Reply, string>): (r: Result<seq<Upload.UploadedFile>, string>)
    ensures |files| > opts.maxFiles ==> r == Err("Maximum " + NatToString(opts.maxFiles) + " files allowed")
    ensures |files| <= opts.maxFiles && FirstInvalid(opts, formatSize, files).Some?
            ==> r == Err(FirstInvalid(opts, formatSize, files).value)
    ensures |files| <= opts.maxFiles && FirstInvalid(opts, formatSize, files).None?
            ==> r == Upload.UploadMultipleFiles(files, fetched)
  {
    if |files| > opts.maxFiles then Err("Maximum " + NatToString(opts.maxFiles) + " files allowed")
    else
      match FirstInvalid(opts, formatSize, files)
      case Some(e) => Err(e)
      case None => Upload.UploadMultipleFiles(files, fetched)
  }

  /** The error of the first file the hook refuses, if any. */
  function FirstInvalid(opts: Options, formatSize: nat -> string, files: seq<Upload.File>): (r: Option<string>)
    ensures r.None? <==> forall i :: 0 <= i < |files| ==> ValidateFile(opts, formatSize, files[i]).valid
  {
    if files == [] then None
    else
      var v := ValidateFile(opts, formatSize, files[0]);
      if !v.valid then Some(v.error.value)
      else
        var rest := FirstInvalid(opts, formatSize, files[1..]);
        assert forall i :: 1 <= i < |files| ==> files[i] == files[1..][i - 1];
        rest
  }

  /** The first invalid file decides: the error is that of the earliest file refused. */
  lemma {:induction false} FirstInvalidIsEarliest(opts: Options, formatSize: nat -> string, files: seq<Upload.File>, k: nat)
    requires k < |files| && !ValidateFile(opts, formatSize, files[k]).valid
    requires forall i :: 0 <= i < k ==> ValidateFile(opts, formatSize, files[i]).valid
    ensures FirstInvalid(opts, formatSize, files) == ValidateFile(opts, formatSize, files[k]).error
  {
    if k > 0 {
      FirstInvalidIsEarliest(opts, formatSize, files[1..], k - 1);
    }
  }

  /** An upload the hook lets through has every file within both size caps. */
  lemma UploadManySucceeds(opts: Options, formatSize: nat -> string, files: seq<Upload.File>, fetched: Result<Upload.Reply, string>)
    requires UploadManyOutcome(opts, formatSize, files, fetched).Ok?
    ensures 1 <= |files| <= opts.maxFiles && |files| <= 10
    ensures forall i :: 0 <= i < |files| ==> files[i].size <= opts.maxFileSize * Upload.MiB && files[i].size <= Upload.MaxSize
  {
    forall i | 0 <= i < |files| ensures files[i].size <= opts.maxFileSize * Upload.MiB && files[i].size <= Upload.MaxSize {
      AcceptedMeansAllChecks(opts, formatSize, files[i]);
    }
  }

  class FileUpload {
    const opts: Options
    var isUploading: bool
    var uploadedFiles: seq<Upload.UploadedFile>
    var error: Option<string>
    var progress: int

    constructor (opts: Options)
      ensures this.opts == opts
      ensures !isUploading && uploadedFiles == [] && error.None? && progress == 0
    {
      this.opts := opts;
      isUploading := false;
      uploadedFiles := [];
      error := None;
      progress := 0;
    }

    /**
     * `uploadSingleFile`: on success the list becomes that one file and the progress 100;
     * on failure the error is recorded and the progress reset; the list is otherwise kept.
     */
    method UploadSingleFile(formatSize: nat -> string, f: Upload.File, fetched: Result<Upload.Reply, string>)
      modifies this
      ensures !isUploading
      ensures var v := ValidateFile(opts, formatSize, f);
        if !v.valid then error == v.error && progress == 0 && uploadedFiles == old(uploadedFiles)
        else match Upload.UploadSingleFile(fetched)
          case Ok(file) => error.None? && progress == 100 && uploadedFiles == [file]
          case Err(e) => error == Some(e) && progress == 0 && uploadedFiles == old(uploadedFiles)
    {
      error := None;
      isUploading := true;
      progress := 0;
      var validation := ValidateFile(opts, formatSize, f);
      if !validation.valid {
        error := validation.error;
        progress := 0;
      } else {
        var result := Upload.UploadSingleFile(fetched);
        match result {
          case Ok(file) =>
            progress := 100;
            uploadedFiles := [file];
          case Err(e) =>
            error := Some(e);
            progress := 0;
        }
      }
      isUploading := false;
    }

    /** `uploadMultipleFiles`: the count cap, then each file in turn, then the upload. */
    method UploadMultipleFiles(formatSize: nat -> string, files: seq<Upload.File>, fetched: Result<Upload.Reply, string>)
      modifies this
      ensures !isUploading
      ensures match UploadManyOutcome(opts, formatSize, files, fetched)
        case Ok(list) => error.None? && progress == 100 && uploadedFiles == list
        case Err(e) => error == Some(e) && progress == 0 && uploadedFiles == old(uploadedFiles)
    {
      error := None;
      isUploading := true;
      progress := 0;
      if |files| > opts.maxFiles {
        error := Some("Maximum " + NatToString(opts.maxFiles) + " files allowed");
        isUploading := false;
        return;
      }
      var i := 0;
      while i < |files|
        invariant 0 <= i <= |files|
        invariant forall k :: 0 <= k < i ==> ValidateFile(opts, formatSize, files[k]).valid
        invariant error.None? && progress == 0 && uploadedFiles == old(uploadedFiles)
      {
        var validation := ValidateFile(opts, formatSize, files[i]);
        if !validation.valid {
          FirstInvalidIsEarliest(opts, formatSize, files, i);
          error := validation.error;
          isUploading := false;
          return;
        }
        i := i + 1;
      }
      var result := Upload.UploadMultipleFiles(files, fetched);
      match result {
        case Ok(list) =>
          progress := 100;
          uploadedFiles := list;
        case Err(e) =>
          error := Some(e);
          progress := 0;
      }
      isUploading := false;
    }

    /** `removeFile`. */
    method RemoveFile(index: int)
      modifies this
      ensures uploadedFiles == Without(old(uploadedFiles), index)
      ensures isUploading == old(isUploading) && error == old(error) && progress == old(progress)
    {
      uploadedFiles := Without(uploadedFiles, index);
    }

    /** `clearFiles`: the list, the error and the progress are reset; the uploading flag is kept. */
    method ClearFiles()
      modifies this
      ensures uploadedFiles == [] && error.None? && progress == 0
      ensures isUploading == old(isUploading)
    {
      uploadedFiles := [];
      error := None;
      progress := 0;
    }

    /** `reset`: as `clearFiles`, and not uploading. */
    method Reset()
      modifies this
      ensures uploadedFiles == [] && error.None? && progress == 0 && !isUploading
    {
      uploadedFiles := [];
      error := None;
      progress := 0;
      isUploading := false;
    }
  }
}
