/** `server/src/services/signedUrlService.ts`: signed file URLs, the
    extension allow-list for file access, and the MIME table. Signing,
    verification and the file system are parameters: a token, the payload
    a verification yields, whether the file exists. */
module SignedUrlService {
  import opened Common
  import opened Text
  import opened NodePath

  const FilesPrefix: string := "/api/files/"

  /** `generateSignedUrl`: the files route followed by the token the signer
      produced. */
  function GenerateSignedUrl(token: string): (url: string)
    ensures |url| == |FilesPrefix| + |token|
    ensures url[..|FilesPrefix|] == FilesPrefix
  {
    FilesPrefix + token
  }

  /** The token of a files URL, as the files route reads it back. */
  function TokenOf(url: string): (r: Option<string>)
    ensures r.Some? <==> |url| >= |FilesPrefix| && url[..|FilesPrefix|] == FilesPrefix
  {
    if |url| >= |FilesPrefix| && url[..|FilesPrefix|] == FilesPrefix then Some(url[|FilesPrefix|..]) else None
  }

  /** The token comes back out of every signed URL unchanged. */
  lemma SignedUrlRoundTrip(token: string)
    ensures TokenOf(GenerateSignedUrl(token)) == Some(token)
  {
    assert GenerateSignedUrl(token)[|FilesPrefix|..] == token;
  }

  /** What a signed-URL token carries. */
  datatype SignedUrlPayload = SignedUrlPayload(filepath: string, userId: Option<int>)

  /** `verifySignedUrl`: `verified` is the payload, or `None` when the
      signature or the expiry does not check. */
  function VerifySignedUrl(verified: Option<SignedUrlPayload>): (r: Outcome<SignedUrlPayload>)
    ensures verified.None? <==> r == Fail(401, "Invalid or expired file access token")
    ensures verified.Some? ==> r == Ok(verified.value)
  {
    match verified
    case None => Fail(401, "Invalid or expired file access token")
    case Some(p) => Ok(p)
  }

  const AllowedExtensions: seq<string> :=
    [".pdf", ".epub", ".txt", ".mp3", ".wav", ".ogg", ".jpg", ".jpeg", ".png", ".gif"]

  /** `validateFileAccess`: the file exists and its lowercased extension is
      allow-listed. */
  function ValidateFileAccess(exists_: bool, filepath: string): (r: bool)
  {
    exists_ && Lower(Extname(filepath)) in AllowedExtensions
  }

  const MimeTypes: map<string, string> := map[
    ".pdf" := "application/pdf",
    ".epub" := "application/epub+zip",
    ".txt" := "text/plain",
    ".mp3" := "audio/mpeg",
    ".wav" := "audio/wav",
    ".ogg" := "audio/ogg",
    ".jpg" := "image/jpeg",
    ".jpeg" := "image/jpeg",
    ".png" := "image/png",
    ".gif" := "image/gif"]

  const DefaultMimeType: string := "application/octet-stream"

  /** The MIME type of a lowercased extension, with a fallback for the
      unknown ones. */
  function MimeType(extension: string): (r: string)
    ensures extension in MimeTypes ==> r == MimeTypes[extension]
    ensures extension !in MimeTypes ==> r == DefaultMimeType
  {
    if extension in MimeTypes then MimeTypes[extension] else DefaultMimeType
  }

  datatype FileMetadata = FileMetadata(size: nat, mimeType: string, filename: string)

  /** `getFileMetadata`: 404 for a missing file; otherwise the size the
      file system reports, the MIME type of the lowercased extension and
      the base name. */
  function GetFileMetadata(exists_: bool, filepath: string, size: nat): (r: Outcome<FileMetadata>)
    ensures !exists_ <==> r == Fail(404, "File not found")
    ensures r.Ok? ==> r.value == FileMetadata(size, MimeType(Lower(Extname(filepath))), Basename(filepath))
  {
    if !exists_ then Fail(404, "File not found")
    else Ok(FileMetadata(size, MimeType(Lower(Extname(filepath))), Basename(filepath)))
  }

  /** The allow-list and the MIME table agree: every allow-listed extension
      has a type of its own, and `.jpg` and `.jpeg` share one. */
  lemma AllowListHasMimeTypes()
    ensures forall e :: e in AllowedExtensions <==> e in MimeTypes
    ensures MimeType(".jpg") == MimeType(".jpeg") == "image/jpeg"
  {
  }

  /** No allow-listed extension maps to the fallback type. */
  lemma AllowedExtensionHasKnownType(e: string)
    requires e in AllowedExtensions
    ensures MimeType(e) != DefaultMimeType
  {
    AllowListHasMimeTypes();
    assert e in MimeTypes;
  }

  /** A file that passes the access check never gets the fallback type. */
  lemma AccessibleFileHasKnownType(filepath: string, size: nat)
    requires ValidateFileAccess(true, filepath)
    ensures GetFileMetadata(true, filepath, size).value.mimeType != DefaultMimeType
  {
    AllowedExtensionHasKnownType(Lower(Extname(filepath)));
  }

  /** The allow-list is exactly the set of extensions with a MIME type
      of their own: a file is accessible iff it exists and its type is
      known. */
  lemma AccessMeansKnownType(exists_: bool, filepath: string)
    ensures ValidateFileAccess(exists_, filepath) <==>
      exists_ && MimeType(Lower(Extname(filepath))) != DefaultMimeType
  {
    var e := Lower(Extname(filepath));
    if e in AllowedExtensions {
      AllowedExtensionHasKnownType(e);
    } else {
      AllowListHasMimeTypes();
      assert e !in MimeTypes;
    }
  }

  /** Access does not depend on the case of the path. */
  lemma AccessIgnoresCase(exists_: bool, filepath: string)
    ensures ValidateFileAccess(exists_, Lower(filepath)) == ValidateFileAccess(exists_, filepath)
  {
    ExtnameLower(filepath);
    LowerIdempotent(Extname(filepath));
  }

  lemma PdfMimeType()
    ensures MimeType(".pdf") == "application/pdf"
  {
    assert MimeTypes[".pdf"] == "application/pdf";
  }

  lemma LowerPdf()
    ensures Lower(".PDF") == ".pdf"
  {
    assert Lower(".PDF")[1] == 'p';
  }

  /** The extension is lowercased first, so a file named with an
      upper-case `.PDF` is accepted and typed as PDF. */
  lemma UpperCaseExtensionAccepted(stem: string, size: nat)
    requires stem != [] && '/' !in stem && stem != "."
    ensures ValidateFileAccess(true, stem + ".PDF")
    ensures GetFileMetadata(true, stem + ".PDF", size).value.mimeType == "application/pdf"
  {
    ExtnameOfStemAndExt(stem, ".PDF");
    LowerPdf();
    assert Lower(Extname(stem + ".PDF")) == AllowedExtensions[0];
    PdfMimeType();
  }
}
