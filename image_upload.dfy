/**
 * The local image pipeline of facility uploads: the type and size check on
 * each uploaded file, the `data:` URL built around the file's base64 text, and
 * the records stored for a batch of files. The base64 text of a file's bytes
 * is carried on the file (`encoded`) rather than computed.
 */
module ImageUpload {
  import opened Common

  /** A multer file: `originalname`, `mimetype`, `size`, and `buffer.toString('base64')`. */
  datatype UploadedFile = UploadedFile(originalname: string, mimetype: string, size: nat, encoded: string)

  /** A stored image; the random `public_id` is not part of it. */
  datatype ImageRecord = ImageRecord(url: string, filename: string, mimetype: string, size: nat)

  datatype ImageError = InvalidFileType | FileTooLarge

  const AllowedTypes: seq<string> := ["image/jpeg", "image/jpg", "image/png", "image/gif", "image/webp"]

  /** `5 * 1024 * 1024` bytes. */
  const MaxImageSize: nat := 5242880

  const DataPrefix: string := "data:"
  const Base64Marker: string := ";base64,"

  // ---------------------------------------------------------------------------
  // validateImageFile
  // ---------------------------------------------------------------------------

  /**
   * `validateImageFile(file)`: the type check comes first, then the size check;
   * a file passing both yields `true`.
   */
  function ValidateImageFile(f: UploadedFile): (r: Result<bool, ImageError>)
    ensures r == Err(InvalidFileType) <==> f.mimetype !in AllowedTypes
    ensures r == Err(FileTooLarge) <==> f.mimetype in AllowedTypes && f.size > 5 * 1024 * 1024
    ensures r.Ok? <==> f.mimetype in AllowedTypes && f.size <= 5 * 1024 * 1024
    ensures r.Ok? ==> r.value
  {
    if f.mimetype !in AllowedTypes then Err(InvalidFileType)
    else if f.size > MaxImageSize then Err(FileTooLarge)
    else Ok(true)
  }

  // ---------------------------------------------------------------------------
  // convertToBase64 and its inverse
  // ---------------------------------------------------------------------------

  /** `convertToBase64(buffer, mimetype)` given the buffer's base64 text. */
  function ConvertToBase64(encoded: string, mimetype: string): (url: string)
    ensures |url| == |DataPrefix| + |mimetype| + |Base64Marker| + |encoded|
    ensures url[..|DataPrefix|] == DataPrefix
    ensures url[|DataPrefix|..|DataPrefix| + |mimetype|] == mimetype
  {
    DataPrefix + mimetype + Base64Marker + encoded
  }

  /** The first position at or after `from` where the base64 marker starts. */
  function FindMarker(s: string, from: nat): (j: Option<nat>)
    ensures j.Some? ==> from <= j.value && j.value + |Base64Marker| <= |s|
    ensures j.Some? ==> s[j.value..j.value + |Base64Marker|] == Base64Marker
    decreases |s| - from
  {
    if from + |Base64Marker| > |s| then None
    else if s[from..from + |Base64Marker|] == Base64Marker then Some(from)
    else FindMarker(s, from + 1)
  }

  /** Split a data URL into its media type and its base64 text. */
  function ParseDataUrl(url: string): Option<(string, string)> {
    if |url| < |DataPrefix| || url[..|DataPrefix|] != DataPrefix then None
    else
      match FindMarker(url, |DataPrefix|)
      case None => None
      case Some(j) => Some((url[|DataPrefix|..j], url[j + |Base64Marker|..]))
  }

  /** With no `;` between `from` and an occurrence of the marker, that occurrence is the first. */
  lemma {:induction false} FindMarkerFirst(s: string, from: nat, p: nat)
    requires from <= p && p + |Base64Marker| <= |s| && s[p..p + |Base64Marker|] == Base64Marker
    requires forall k :: from <= k < p ==> s[k] != ';'
    ensures FindMarker(s, from) == Some(p)
    decreases p - from
  {
    if from < p {
      assert s[from..from + |Base64Marker|][0] == s[from] != ';';
      FindMarkerFirst(s, from + 1, p);
    }
  }

  /** A media type without `;` is recovered, with the base64 text, from the URL built on it. */
  lemma DataUrlRoundTrip(encoded: string, mimetype: string)
    requires forall k :: 0 <= k < |mimetype| ==> mimetype[k] != ';'
    ensures ParseDataUrl(ConvertToBase64(encoded, mimetype)) == Some((mimetype, encoded))
  {
    var url := ConvertToBase64(encoded, mimetype);
    var p := |DataPrefix| + |mimetype|;
    assert url[p..p + |Base64Marker|] == Base64Marker;
    forall k | |DataPrefix| <= k < p
      ensures url[k] != ';'
    {
      assert url[k] == mimetype[k - |DataPrefix|];
    }
    FindMarkerFirst(url, |DataPrefix|, p);
    assert url[p + |Base64Marker|..] == encoded;
  }

  /** Every accepted type is free of `;`, so its URL splits back cleanly. */
  lemma AcceptedTypesRoundTrip(f: UploadedFile)
    requires ValidateImageFile(f).Ok?
    ensures ParseDataUrl(ConvertToBase64(f.encoded, f.mimetype)) == Some((f.mimetype, f.encoded))
  {
    var i :| 0 <= i < |AllowedTypes| && AllowedTypes[i] == f.mimetype;
    assert forall k :: 0 <= k < |f.mimetype| ==> f.mimetype[k] != ';';
    DataUrlRoundTrip(f.encoded, f.mimetype);
  }

  // ---------------------------------------------------------------------------
  // processLocalImages
  // ---------------------------------------------------------------------------

  function RecordOf(f: UploadedFile): ImageRecord {
    ImageRecord(ConvertToBase64(f.encoded, f.mimetype), f.originalname, f.mimetype, f.size)
  }

  /** `processLocalImages(files)`: no files give no records, otherwise one record per file in order. */
  function ProcessLocalImages(files: Option<seq<UploadedFile>>): (images: seq<ImageRecord>)
    ensures files.None? ==> images == []
    ensures files.Some? ==> |images| == |files.value|
    ensures files.Some? ==> forall i :: 0 <= i < |images| ==>
              images[i].filename == files.value[i].originalname &&
              images[i].mimetype == files.value[i].mimetype &&
              images[i].size == files.value[i].size &&
              |DataPrefix| + |images[i].mimetype| <= |images[i].url| &&
              images[i].url[..|DataPrefix| + |images[i].mimetype|] == DataPrefix + images[i].mimetype
  {
    match files
    case None => []
    case Some(fs) =>
      var images := seq(|fs|, i requires 0 <= i < |fs| => RecordOf(fs[i]));
      assert forall i :: 0 <= i < |images| ==>
        |DataPrefix| + |images[i].mimetype| <= |images[i].url| &&
        images[i].url[..|DataPrefix| + |images[i].mimetype|] == DataPrefix + images[i].mimetype;
      images
  }

  /**
   * For a batch that passed validation, every stored URL splits back into the
   * file's media type and base64 text.
   */
  lemma ValidatedImagesDecode(fs: seq<UploadedFile>)
    requires forall i :: 0 <= i < |fs| ==> ValidateImageFile(fs[i]).Ok?
    ensures forall i :: 0 <= i < |fs| ==>
              ParseDataUrl(ProcessLocalImages(Some(fs))[i].url) == Some((fs[i].mimetype, fs[i].encoded))
  {
    forall i | 0 <= i < |fs|
      ensures ParseDataUrl(ProcessLocalImages(Some(fs))[i].url) == Some((fs[i].mimetype, fs[i].encoded))
    {
      AcceptedTypesRoundTrip(fs[i]);
    }
  }
}
