/**
 * The image-upload validator (src/services/imgHandler.js): of the files the
 * user picked only the first is looked at; it must exist, have an allowed
 * MIME type and be at most 5 MiB. The first failing check alone is reported
 * through `onError`; when all pass, `onSuccess` gets the file and an object
 * URL for it. A callback that is not a function is skipped.
 *
 * `URL.createObjectURL` is a parameter of the model.
 */
module ImageUpload {
  import opened Common

  datatype File = File(mimeType: string, size: nat)

  const AllowedTypes: seq<string> := ["image/png", "image/jpeg", "image/jpg", "image/webp"]
  const MaxSize: nat := 5 * 1024 * 1024

  /** Why a selection was refused, in the order the checks run. */
  datatype UploadError = NoFileSelected | TypeNotAllowed | FileTooLarge

  /** The text handed to `onError` for each refusal. */
  function ErrorMessage(e: UploadError): string {
    match e
    case NoFileSelected => "No file selected."
    case TypeNotAllowed => "Only JPG and PNG files are allowed."
    case FileTooLarge => "File is too large. Please select a file smaller than 1MB."
  }

  /** What `onSuccess` receives. */
  datatype Upload = Upload(imageUrl: string, imageFile: File)

  /** The one callback a call makes, if any. */
  datatype Callback = OnError(message: string) | OnSuccess(upload: Upload)

  /** A file the checks accept, stated on its own. */
  predicate Acceptable(f: File) {
    f.mimeType in AllowedTypes && f.size <= MaxSize
  }

  /** The three guard clauses, in source order; success carries `files[0]`. */
  function Validate(files: seq<File>): (r: Result<File, UploadError>)
    ensures r.Ok? <==> |files| > 0 && Acceptable(files[0])
    ensures r.Ok? ==> r.value == files[0]
    ensures r == Err(NoFileSelected) <==> |files| == 0
    ensures r == Err(TypeNotAllowed) <==> |files| > 0 && files[0].mimeType !in AllowedTypes
    ensures r == Err(FileTooLarge) <==>
      |files| > 0 && files[0].mimeType in AllowedTypes && files[0].size > MaxSize
  {
    if |files| == 0 then Err(NoFileSelected)
    else
      var file := files[0];
      if file.mimeType !in AllowedTypes then Err(TypeNotAllowed)
      else if file.size > MaxSize then Err(FileTooLarge)
      else Ok(file)
  }

  /** `imageUpload`: which single callback fires, given which callbacks are functions. */
  function UploadImage(files: seq<File>, onSuccessIsFunction: bool, onErrorIsFunction: bool,
                       objectUrl: File -> string): (c: Option<Callback>)
    ensures c.Some? && c.value.OnSuccess? <==>
      onSuccessIsFunction && |files| > 0 && Acceptable(files[0])
    ensures c.Some? && c.value.OnSuccess? ==>
      c.value.upload == Upload(objectUrl(files[0]), files[0])
    ensures c.Some? && c.value.OnError? <==>
      onErrorIsFunction && !(|files| > 0 && Acceptable(files[0]))
    ensures c.Some? && c.value.OnError? ==> c.value.message == ErrorMessage(Validate(files).error)
  {
    match Validate(files)
    case Err(e) => if onErrorIsFunction then Some(OnError(ErrorMessage(e))) else None
    case Ok(file) =>
      if onSuccessIsFunction then Some(OnSuccess(Upload(objectUrl(file), file))) else None
  }

  /** The size limit is 5242880 bytes, inclusive. */
  lemma SizeBoundary(t: string)
    requires t in AllowedTypes
    ensures Validate([File(t, 5242880)]) == Ok(File(t, 5242880))
    ensures Validate([File(t, 5242881)]) == Err(FileTooLarge)
  {
  }

  /** The type check comes before the size check, and only the first file counts. */
  lemma ChecksInOrder(f: File, more: seq<File>)
    ensures f.mimeType !in AllowedTypes ==> Validate([f] + more) == Err(TypeNotAllowed)
    ensures Validate([f] + more) == Validate([f])
  {
  }
}
