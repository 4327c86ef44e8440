/** The check the upload component applies to a chosen file before reading
    it: there must be a file, its media type must start with "image/", and
    it may not be larger than 10 MiB. The type is checked before the size. */
module FileUpload {
  import opened Options
  import opened JsText

  datatype FileInfo = FileInfo(mimeType: string, size: nat)

  datatype FileCheck = NoFile | InvalidType | TooLarge | Accepted

  /** 10 MiB in bytes. */
  const MaxSize: nat := 10 * 1024 * 1024

  predicate IsImageType(mimeType: string) {
    StartsWith(mimeType, "image/")
  }

  function CheckFile(f: Option<FileInfo>): (r: FileCheck)
    ensures r == NoFile <==> f.None?
    ensures r == Accepted <==> f.Some? && IsImageType(f.value.mimeType) && f.value.size <= MaxSize
    ensures r == InvalidType <==> f.Some? && !IsImageType(f.value.mimeType)
    ensures r == TooLarge <==> f.Some? && IsImageType(f.value.mimeType) && f.value.size > MaxSize
  {
    match f
    case None => NoFile
    case Some(file) =>
      if !IsImageType(file.mimeType) then InvalidType
      else if file.size > MaxSize then TooLarge
      else Accepted
  }

  /** Acceptance does not depend on the size below the limit: an image file
      is accepted exactly when any smaller image file of the same type
      would be, and a file of exactly 10 MiB is the largest accepted. */
  lemma SizeLimit(mimeType: string, size: nat, smaller: nat)
    requires IsImageType(mimeType) && smaller <= size
    ensures CheckFile(Some(FileInfo(mimeType, size))) == Accepted ==>
      CheckFile(Some(FileInfo(mimeType, smaller))) == Accepted
    ensures CheckFile(Some(FileInfo(mimeType, 10485760))) == Accepted
    ensures CheckFile(Some(FileInfo(mimeType, 10485761))) == TooLarge
  {
  }

  /** A file that is not an image is refused for its type whatever its size,
      so an oversized non-image reports the type. */
  lemma TypeBeforeSize(mimeType: string, size: nat)
    requires !IsImageType(mimeType)
    ensures CheckFile(Some(FileInfo(mimeType, size))) == InvalidType
  {
  }

  /** The prefix test is exact: "image/png" passes, "IMAGE/PNG" and
      "application/pdf" do not. */
  lemma TypeExamples()
    ensures IsImageType("image/png")
    ensures !IsImageType("IMAGE/PNG")
    ensures !IsImageType("application/pdf")
  {
    assert "IMAGE/PNG"[0] != "image/"[0];
    assert "application/pdf"[0] != "image/"[0];
  }
}
