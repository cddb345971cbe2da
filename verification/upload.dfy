/** backend/src/middleware/upload.ts: the multer configuration for the triage
    video: memory storage, a size limit and a MIME-type whitelist. */
module Upload {
  import opened Wrappers
  import opened Errors

  const AllowedMimes: seq<string> := ["video/mp4", "video/quicktime", "video/x-msvideo", "video/webm"]

  /** 100 MiB. */
  const MaxFileSize: nat := 100 * 1024 * 1024

  const InvalidFileType := "Invalid file type. Only video files are allowed."
  /** multer's message for a file over the limit. */
  const FileTooLarge := "File too large"

  datatype UploadedFile = UploadedFile(mimetype: string, size: nat, buffer: seq<bv8>)

  /** `fileFilter` (lines 13-25). The rejection is a plain `Error`, not an
      AppError, so the error handler answers it with a 500. */
  function FileFilter(mimetype: string): (r: Option<Failure>)
    ensures r.None? <==> mimetype in AllowedMimes
    ensures r.Some? ==> r.value == Unexpected(InvalidFileType)
  {
    if mimetype in AllowedMimes then None else Some(Unexpected(InvalidFileType))
  }

  /** `upload.single('video')`: the filter runs first; a file that passes it
      and exceeds the limit fails while it streams. No file is no error. */
  function AcceptUpload(file: Option<UploadedFile>): (r: Option<Failure>)
    ensures file.None? ==> r.None?
    ensures file.Some? ==> (r.None? <==> file.value.mimetype in AllowedMimes && file.value.size <= MaxFileSize)
    ensures file.Some? && file.value.mimetype !in AllowedMimes ==> r == Some(Unexpected(InvalidFileType))
    ensures r.Some? ==> r.value.Unexpected?
  {
    match file
    case None => None
    case Some(f) =>
      match FileFilter(f.mimetype)
      case Some(e) => Some(e)
      case None => if f.size > MaxFileSize then Some(Unexpected(FileTooLarge)) else None
  }

  /** Membership is exact: no case folding, no other video type. */
  lemma MimeMatchIsExact()
    ensures MaxFileSize == 104857600
    ensures FileFilter("video/mp4").None? && FileFilter("video/webm").None?
    ensures FileFilter("VIDEO/MP4").Some? && FileFilter("video/ogg").Some? && FileFilter("video/MP4").Some?
  {
    assert "VIDEO/MP4"[0] != "video/mp4"[0];
    assert "video/ogg"[6] != "video/mp4"[6] && "video/ogg"[6] != "video/quicktime"[6];
    assert "video/ogg"[6] != "video/x-msvideo"[6] && "video/ogg"[6] != "video/webm"[6];
    assert "video/MP4"[6] != "video/mp4"[6] && "video/MP4"[6] != "video/quicktime"[6];
    assert "video/MP4"[6] != "video/x-msvideo"[6] && "video/MP4"[6] != "video/webm"[6];
  }
}
