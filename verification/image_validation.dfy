/**
 * Client-side checks on a chosen image file (lib/utils/api.ts).
 */
module ImageValidation {
  import opened Js
  import opened Text

  /** What the checks read of a browser `File`: its MIME type and size in bytes. */
  datatype ImageFile = ImageFile(mimeType: string, size: nat)

  /** 10 MiB */
  const MaxSize: nat := 10 * 1024 * 1024

  const SupportedTypes: seq<string> := ["image/jpeg", "image/jpg", "image/png", "image/gif", "image/webp"]

  const NotAnImage := "Please select a valid image file (PNG, JPG, JPEG, GIF, WebP)"
  const TooLarge := "Image file too large. Maximum size is 10MB"
  const Unsupported := "Unsupported image format. Please use PNG, JPG, JPEG, GIF, or WebP"

  /**
   * `validateImageFile`: the message of the first failing check, in the order
   * image prefix, size, whitelist; `None` (JavaScript `null`) when all pass.
   */
  function ValidateImageFile(file: ImageFile): (r: Option<string>)
    ensures r == Some(NotAnImage) <==> !StartsWith(file.mimeType, "image/")
    ensures r == Some(TooLarge) <==> StartsWith(file.mimeType, "image/") && file.size > MaxSize
    ensures r == Some(Unsupported)
        <==> StartsWith(file.mimeType, "image/") && file.size <= MaxSize && file.mimeType !in SupportedTypes
    ensures r.None? <==> StartsWith(file.mimeType, "image/") && file.size <= MaxSize && file.mimeType in SupportedTypes
  {
    if !StartsWith(file.mimeType, "image/") then Some(NotAnImage)
    else if file.size > MaxSize then Some(TooLarge)
    else if file.mimeType !in SupportedTypes then Some(Unsupported)
    else None
  }

  /** Every whitelisted type starts with "image/". */
  lemma SupportedTypesAreImages(t: string)
    requires t in SupportedTypes
    ensures StartsWith(t, "image/")
  {
    assert t == SupportedTypes[0] || t == SupportedTypes[1] || t == SupportedTypes[2]
        || t == SupportedTypes[3] || t == SupportedTypes[4];
  }

  /**
   * Since the whitelist lies inside the prefix check, a file is accepted
   * exactly when its type is whitelisted and it is at most 10 MiB.
   */
  lemma AcceptedIffWhitelistedAndSmall(file: ImageFile)
    ensures ValidateImageFile(file).None? <==> file.mimeType in SupportedTypes && file.size <= MaxSize
  {
    if file.mimeType in SupportedTypes {
      SupportedTypesAreImages(file.mimeType);
    }
  }

  /** The size bound is inclusive: exactly 10 MiB passes, one byte more does not. */
  lemma SizeBoundIsInclusive(mimeType: string)
    requires mimeType in SupportedTypes
    ensures ValidateImageFile(ImageFile(mimeType, 10485760)).None?
    ensures ValidateImageFile(ImageFile(mimeType, 10485761)) == Some(TooLarge)
  {
    SupportedTypesAreImages(mimeType);
  }
}
