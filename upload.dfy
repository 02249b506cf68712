/**
  The PDF upload of `APIService.ingestPDF`: a `multipart/form-data` body with one
  part named "file" (section 5.1.1 of RFC 2046, section 4.2 of RFC 7578), grown by
  appending to a `Data` buffer.
 */
module Upload {
  import opened Wrappers
  import opened Utf8
  import opened Constants
  import opened ApiError
  import opened Gateway

  /** A growable byte buffer (Foundation `Data`). */
  class ByteBuffer {
    var bytes: seq<Byte>

    constructor ()
      ensures bytes == []
    {
      bytes := [];
    }

    /** `Data.append(_ string:)`: appends the UTF-8 bytes of the string. */
    method AppendString(s: string)
      modifies this
      ensures bytes == old(bytes) + Encode(s)
    {
      bytes := bytes + Encode(s);
    }

    method AppendData(d: seq<Byte>)
      modifies this
      ensures bytes == old(bytes) + d
    {
      bytes := bytes + d;
    }
  }

  /** The `Content-Type` header of the upload. */
  function MultipartContentType(boundary: string): string {
    "multipart/form-data; boundary=" + boundary
  }

  function OpeningLine(boundary: string): string {
    "--" + boundary + "\r\n"
  }

  /** The part's disposition header; the file name is inserted between quotes without any escaping. */
  function DispositionLine(filename: string): string {
    "Content-Disposition: form-data; name=\"file\"; filename=\"" + filename + "\"\r\n"
  }

  /** The part's content type line and the blank line ending the part headers. */
  const PartTypeLines: string := "Content-Type: " + PdfContentType + "\r\n\r\n"

  const PdfContentType: string := "application/pdf"

  /** Everything before the file bytes: the opening delimiter line and the part's headers. */
  function PartHead(boundary: string, filename: string): string {
    OpeningLine(boundary) + DispositionLine(filename) + PartTypeLines
  }

  function ClosingLine(boundary: string): string {
    "--" + boundary + "--\r\n"
  }

  /** Everything after the file bytes: the line break and the closing delimiter. */
  function Closing(boundary: string): string {
    "\r\n" + ClosingLine(boundary)
  }

  function MultipartLayout(boundary: string, filename: string, file: seq<Byte>): seq<Byte> {
    Encode(OpeningLine(boundary)) + Encode(DispositionLine(filename)) + Encode(PartTypeLines)
    + file + Encode("\r\n") + Encode(ClosingLine(boundary))
  }

  /** The body of the upload, grown by six appends: the opening delimiter line, the
      disposition and type headers, the file bytes verbatim, a line break and the
      closing delimiter, each string as its UTF-8 bytes. */
  method MultipartBody(boundary: string, filename: string, file: seq<Byte>) returns (body: seq<Byte>)
    ensures body == MultipartLayout(boundary, filename, file)
  {
    var buffer := new ByteBuffer();
    buffer.AppendString(OpeningLine(boundary));
    ghost var opening := Encode(OpeningLine(boundary));
    assert buffer.bytes == [] + opening;
    assert [] + opening == opening;
    buffer.AppendString(DispositionLine(filename));
    buffer.AppendString(PartTypeLines);
    buffer.AppendData(file);
    buffer.AppendString("\r\n");
    buffer.AppendString(ClosingLine(boundary));
    body := buffer.bytes;
  }

  lemma SegmentsEncode(boundary: string, filename: string)
    ensures Encode(PartHead(boundary, filename))
      == Encode(OpeningLine(boundary)) + Encode(DispositionLine(filename)) + Encode(PartTypeLines)
    ensures Encode(Closing(boundary)) == Encode("\r\n") + Encode(ClosingLine(boundary))
  {
    EncodeAppend(OpeningLine(boundary), DispositionLine(filename));
    EncodeAppend(OpeningLine(boundary) + DispositionLine(filename), PartTypeLines);
    EncodeAppend("\r\n", ClosingLine(boundary));
  }

  lemma Regroup(o: seq<Byte>, d: seq<Byte>, t: seq<Byte>, file: seq<Byte>, c1: seq<Byte>, c2: seq<Byte>)
    ensures o + d + t + file + c1 + c2 == (o + d + t) + file + (c1 + c2)
    ensures ((o + d + t) + file + (c1 + c2))[|o + d + t|..|o + d + t| + |file|] == file
  {
  }

  /** The appended pieces make up the part head, the file and the closing delimiter,
      and the file can be cut back out of the body between them. */
  lemma LayoutFramesFile(boundary: string, filename: string, file: seq<Byte>)
    ensures var body := MultipartLayout(boundary, filename, file);
      var h := |Encode(PartHead(boundary, filename))|;
      && body == Encode(PartHead(boundary, filename)) + file + Encode(Closing(boundary))
      && h + |file| <= |body| && body[h..h + |file|] == file
  {
    SegmentsEncode(boundary, filename);
    Regroup(Encode(OpeningLine(boundary)), Encode(DispositionLine(filename)), Encode(PartTypeLines),
            file, Encode("\r\n"), Encode(ClosingLine(boundary)));
  }

  /** With an ASCII boundary (a UUID string is one) the body begins with "--" and the
      boundary byte for byte, and the closing delimiter takes |boundary| + 8 bytes. */
  lemma DelimitersFrameBody(boundary: string, filename: string, file: seq<Byte>)
    requires forall i :: 0 <= i < |boundary| ==> boundary[i] as int < 0x80
    ensures var body := Encode(PartHead(boundary, filename)) + file + Encode(Closing(boundary));
      && |Encode("--" + boundary)| == |boundary| + 2
      && |body| >= |boundary| + 2
      && body[..|boundary| + 2] == Encode("--" + boundary)
      && |Encode(Closing(boundary))| == |boundary| + 8
  {
    var rest := "\r\n" + DispositionLine(filename) + PartTypeLines;
    assert PartHead(boundary, filename) == ("--" + boundary) + rest;
    EncodeAppend("--" + boundary, rest);
    EncodeAscii("--" + boundary);
    EncodeAscii(Closing(boundary));
  }

  /** The request `ingestPDF` uploads: a POST to the ingest path carrying the multipart
      content type, the bearer credential and the multipart body. */
  function UploadRequest(boundary: string, filename: string, file: seq<Byte>, token: string): HttpRequest
  {
    HttpRequest(BaseURL + IngestPdfPath, "POST",
      map["Content-Type" := MultipartContentType(boundary), "Authorization" := BearerCredential(token)],
      Some(MultipartLayout(boundary, filename, file)))
  }

  /** The guards of `ingestPDF` before anything is sent: the URL, then the stored
      credential, then reading the file, whose error escapes as is. */
  method PrepareUpload(filename: string, file: Result<seq<Byte>, string>, boundary: string, token: Option<string>,
                       env: Environment)
    returns (r: Result<HttpRequest, Failure>)
    ensures r.Ok? <==> env.formsUrl(BaseURL + IngestPdfPath) && token.Some? && file.Ok?
    ensures !env.formsUrl(BaseURL + IngestPdfPath) ==> r == Err(Api(InvalidURL))
    ensures env.formsUrl(BaseURL + IngestPdfPath) && token.None? ==> r == Err(Api(Unauthorized))
    ensures env.formsUrl(BaseURL + IngestPdfPath) && token.Some? && file.Err? ==> r == Err(Foreign(file.error))
    ensures r.Ok? ==> r.value == HttpRequest(BaseURL + IngestPdfPath, "POST",
      map["Content-Type" := MultipartContentType(boundary), "Authorization" := BearerCredential(token.value)], None)
  {
    if !env.formsUrl(BaseURL + IngestPdfPath) {
      return Err(Api(InvalidURL));
    }
    if token.None? {
      return Err(Api(Unauthorized));
    }
    var req := HttpRequest(BaseURL + IngestPdfPath, "GET", map[], None);
    req := req.(httpMethod := "POST");
    req := req.(headers := req.headers["Content-Type" := MultipartContentType(boundary)]);
    req := req.(headers := req.headers["Authorization" := BearerCredential(token.value)]);
    if file.Err? {
      return Err(Foreign(file.error));
    }
    return Ok(req);
  }

  /** `ingestPDF`: nothing is sent unless the URL forms, a credential is stored and the
      file reads; what is sent is the multipart upload, and its reply is classified as
      in `request`, except that transport and 2xx decoding errors escape unwrapped. */
  method IngestPdf(filename: string, file: Result<seq<Byte>, string>, boundary: string, token: Option<string>,
                   env: Environment, decode: seq<Byte> -> Result<PdfIngestResponse, string>)
    returns (outcome: Result<PdfIngestResponse, Failure>, sent: Option<HttpRequest>)
    ensures sent.Some? <==> env.formsUrl(BaseURL + IngestPdfPath) && token.Some? && file.Ok?
    ensures !env.formsUrl(BaseURL + IngestPdfPath) ==> outcome == Err(Api(InvalidURL))
    ensures env.formsUrl(BaseURL + IngestPdfPath) && token.None? ==> outcome == Err(Api(Unauthorized))
    ensures env.formsUrl(BaseURL + IngestPdfPath) && token.Some? && file.Err? ==> outcome == Err(Foreign(file.error))
    ensures sent.Some? ==> sent.value == UploadRequest(boundary, filename, file.value, token.value)
    ensures sent.Some? ==> outcome == Receive(env.transport(sent.value), decode, env.decodeError, true)
  {
    var prepared := PrepareUpload(filename, file, boundary, token, env);
    match prepared
    case Err(f) =>
      outcome, sent := Err(f), None;
    case Ok(req) =>
      outcome, sent := Upload(req, boundary, filename, file.value, env, decode);
  }

  /** The end of `ingestPDF` once the file is read: the body is attached and the request sent. */
  method Upload(req: HttpRequest, boundary: string, filename: string, file: seq<Byte>,
                env: Environment, decode: seq<Byte> -> Result<PdfIngestResponse, string>)
    returns (outcome: Result<PdfIngestResponse, Failure>, sent: Option<HttpRequest>)
    ensures sent == Some(req.(body := Some(MultipartLayout(boundary, filename, file))))
    ensures outcome == Receive(env.transport(sent.value), decode, env.decodeError, true)
  {
    var body := MultipartBody(boundary, filename, file);
    sent := Some(req.(body := Some(body)));
    outcome := Receive(env.transport(sent.value), decode, env.decodeError, true);
  }

  /** `PDFIngestResponse` and its `data`. */
  datatype PdfIngestData = PdfIngestData(documentId: string, message: string, cloudinaryUrl: Option<string>)
  datatype PdfIngestResponse = PdfIngestResponse(success: bool, data: PdfIngestData)
}
