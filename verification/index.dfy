/**
  The request gate and URL handling of the RawDataETL lambda handler.
  The two Secrets Manager lookups, the logger, the timing log, the download,
  the S3 backup and the workbook load are outside the model: the looked-up
  secret values are parameters, and the handler's outcome is either a
  response or the URL it goes on to download.
*/
module RawDataEtl {
  import opened Wrappers
  import opened Strings
  import opened SheetUrl

  /** An HTTP response: a status code and, except on success, a JSON body. */
  datatype Response = Response(statusCode: int, body: Option<string>)

  /** The request headers the gate reads; `Content-Length` is taken as already parsed. */
  datatype Headers = Headers(contentLength: Option<int>, authorization: Option<string>)

  const PayloadRejected := Response(422, Some("{\"message\": \"No payload expected. Request body should be empty.\"}"))
  const Forbidden := Response(403, Some("{\"message\": \"Invalid Authorization header.\"}"))
  const Authenticated := Response(200, None)
  const MissingSheetUrl := Response(400, Some("{\"error\": \"Missing spreadsheets url in lambda environment.\"}"))
  /** What the generic `except` answers when the URL key is absent from the secret (`str(KeyError)`). */
  const UrlKeyAbsent := Response(500, Some("{\"error\": \"'GOOGLE_SHEETS_URL'\"}"))

  /** `headers.get('Content-Length', 0)`: an absent header counts as 0. */
  function ContentLength(h: Headers): int {
    match h.contentLength
    case None => 0
    case Some(n) => n
  }

  /** `body or contentLength > 0`: a non-empty body or a positive length. */
  predicate HasPayload(body: Option<string>, h: Headers) {
    (body.Some? && body.value != "") || ContentLength(h) > 0
  }

  /** The authorization header is present and equals the stored API key. */
  predicate TokenMatches(h: Headers, apiKey: Option<string>) {
    h.authorization.Some? && apiKey.Some? && h.authorization.value == apiKey.value
  }

  /**
    `authenticate_request`: a request with a payload is refused with 422
    before the token is looked at; otherwise a missing or wrong token is
    refused with 403; otherwise the request passes with 200.
    `apiKey` is the `API_GW_SECRET_KEY` entry of the fetched secret.
  */
  function AuthenticateRequest(body: Option<string>, h: Headers, apiKey: Option<string>): (r: Response)
    ensures r.statusCode in {200, 403, 422}
    ensures HasPayload(body, h) ==> r == PayloadRejected
    ensures !HasPayload(body, h) && !TokenMatches(h, apiKey) ==> r == Forbidden
    ensures r.statusCode == 200 <==> !HasPayload(body, h) && TokenMatches(h, apiKey)
    ensures r.statusCode == 200 ==> r == Authenticated
  {
    if (body.Some? && body.value != "") || ContentLength(h) > 0 then PayloadRejected
    else if h.authorization.None? || apiKey.None? || h.authorization.value != apiKey.value then Forbidden
    else Authenticated
  }

  /** A missing `Content-Length` header is treated as a length of 0. */
  lemma MissingContentLengthIsZero(body: Option<string>, auth: Option<string>, apiKey: Option<string>)
    ensures AuthenticateRequest(body, Headers(None, auth), apiKey)
         == AuthenticateRequest(body, Headers(Some(0), auth), apiKey)
  {
  }

  /**
    The `if`/`elif` chain the handler runs on a valid URL, written for `xlsx`:
    the result is the URL itself or a link that downloads `xlsx`.
  */
  function RewriteXlsx(url: string): (r: string)
    ensures r == url || IsExportLink(r, "xlsx")
  {
    if Contains(url, "pub?output=xlsx") || Contains(url, "export?format=xlsx") then url
    else if Contains(url, "/edit") then ExportLinkAfter(SplitHead(url, "/edit")); SplitHead(url, "/edit") + "/export?format=xlsx"
    else if Contains(url, "/view") then ExportLinkAfter(SplitHead(url, "/view")); SplitHead(url, "/view") + "/export?format=xlsx"
    else if Contains(url, "/pubhtml") then PubLinkAfter(SplitHead(url, "/pubhtml")); SplitHead(url, "/pubhtml") + "/pub?output=xlsx"
    else url
  }

  /** Any text followed by `/export?format=xlsx` downloads `xlsx`. */
  lemma ExportLinkAfter(head: string)
    ensures IsExportLink(head + "/export?format=xlsx", "xlsx")
  {
    ContainsSelf(ExportFormat("xlsx"));
    assert head + "/export?format=xlsx" == (head + "/") + ExportFormat("xlsx");
    ContainsInSuffix(head + "/", ExportFormat("xlsx"), ExportFormat("xlsx"));
  }

  /** Any text followed by `/pub?output=xlsx` downloads `xlsx`. */
  lemma PubLinkAfter(head: string)
    ensures IsExportLink(head + "/pub?output=xlsx", "xlsx")
  {
    ContainsSelf(PubOutput("xlsx"));
    assert head + "/pub?output=xlsx" == (head + "/") + PubOutput("xlsx");
    ContainsInSuffix(head + "/", PubOutput("xlsx"), PubOutput("xlsx"));
  }

  /** The handler's copy of the rewrite agrees with `CleanSheetUrl` for `xlsx` on every valid URL. */
  lemma {:induction false} RewriteXlsxAgrees(url: string)
    requires url != "" && Contains(url, SheetsHost)
    ensures CleanSheetUrl(Some(url), "xlsx") == Success(RewriteXlsx(url))
  {
    assert PubOutput("xlsx") == "pub?output=xlsx";
    assert ExportFormat("xlsx") == "export?format=xlsx";
    forall head: string
      ensures head + "/export?format=" + "xlsx" == head + "/export?format=xlsx"
      ensures head + "/pub?output=" + "xlsx" == head + "/pub?output=xlsx"
    {
    }
    CleanSheetUrlBranches(url, "xlsx");
  }

  /** The `GOOGLE_SHEETS_URL` entry of the fetched secret: absent, or present with a possibly empty value. */
  datatype UrlEntry = KeyAbsent | Entry(url: Option<string>)

  /** Where the handler goes after the gate and the URL check. */
  datatype HandlerStep = Respond(response: Response) | Download(url: string)

  /**
    `lambda_handler` up to the download: a failed gate is answered with the
    gate's own response; a missing or non-Sheets URL gets 400; otherwise the
    handler downloads the URL as rewritten for `xlsx`.
  */
  function LambdaHandler(body: Option<string>, h: Headers, apiKey: Option<string>, entry: UrlEntry): (r: HandlerStep)
    ensures AuthenticateRequest(body, h, apiKey).statusCode != 200 ==>
      r == Respond(AuthenticateRequest(body, h, apiKey))
    ensures r.Download? <==>
      !HasPayload(body, h) && TokenMatches(h, apiKey) &&
      entry.Entry? && CleanSheetUrl(entry.url, "xlsx").Success?
    ensures r.Download? ==> CleanSheetUrl(entry.url, "xlsx") == Success(r.url)
    ensures !HasPayload(body, h) && TokenMatches(h, apiKey) && entry.KeyAbsent? ==> r == Respond(UrlKeyAbsent)
    ensures r == Respond(MissingSheetUrl) <==>
      !HasPayload(body, h) && TokenMatches(h, apiKey) &&
      entry.Entry? && CleanSheetUrl(entry.url, "xlsx").Failure?
  {
    var auth := AuthenticateRequest(body, h, apiKey);
    if auth.statusCode != 200 then Respond(auth)
    else match entry
      case KeyAbsent => Respond(UrlKeyAbsent)
      case Entry(sheetUrl) =>
        if sheetUrl.None? || sheetUrl.value == "" || !Contains(sheetUrl.value, SheetsHost) then
          Respond(MissingSheetUrl)
        else
          RewriteXlsxAgrees(sheetUrl.value);
          Download(RewriteXlsx(sheetUrl.value))
  }
}
