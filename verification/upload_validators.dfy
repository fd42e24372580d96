/** The backend's check of an uploaded event image: its MIME type, then its size. */
module UploadValidators {
  import opened Wrappers
  import opened Text

  const ALLOWED_IMAGE_TYPES: seq<string> := ["image/jpeg", "image/png", "image/webp", "image/gif"]

  /** 5 MiB. */
  const MAX_FILE_SIZE := 5 * 1024 * 1024

  /** The fields of an uploaded file the check reads. */
  datatype UploadedFile = UploadedFile(mimetype: string, size: nat)

  const TYPE_ERROR := "Invalid file type. Allowed: image/jpeg, image/png, image/webp, image/gif"

  function SizeError(): string {
    "File too large. Maximum size: " + IntToString(MAX_FILE_SIZE / 1024 / 1024) + "MB"
  }

  /**
   * `validateImageFile`: valid iff the type is one of the four allowed and the size is at
   * most 5 MiB (inclusive); a file failing both checks reports the type.
   */
  function ValidateImageFile(file: UploadedFile): (r: Verdict)
    ensures r.valid <==> file.mimetype in ALLOWED_IMAGE_TYPES && file.size <= MAX_FILE_SIZE
    ensures r.error.Some? <==> !r.valid
    ensures file.mimetype !in ALLOWED_IMAGE_TYPES ==> r.error == Some(TYPE_ERROR)
    ensures file.mimetype in ALLOWED_IMAGE_TYPES && file.size > MAX_FILE_SIZE ==>
      r.error == Some("File too large. Maximum size: 5MB")
  {
    assert MAX_FILE_SIZE / 1024 / 1024 == 5;
    assert DigitChar(5) == '5';
    assert SizeError() == "File too large. Maximum size: 5MB";
    if file.mimetype !in ALLOWED_IMAGE_TYPES then Verdict(false, Some(TYPE_ERROR))
    else if file.size > MAX_FILE_SIZE then Verdict(false, Some(SizeError()))
    else Verdict(true, None)
  }
}
