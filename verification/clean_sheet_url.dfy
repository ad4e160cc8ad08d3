/**
  `clean_sheet_url`: validates a Google Sheets URL and rewrites a browser link
  (`/edit`, `/view`, `/pubhtml`) into a download link for `exportType`.
  The logger argument is dropped; a raised `RuntimeError` becomes a `Failure`.
*/
module SheetUrl {
  import opened Wrappers
  import opened Strings

  /** The two `RuntimeError`s the normaliser raises. */
  datatype UrlError =
    | MissingUrl              // the URL is `None` or empty
    | MalformedUrl(url: string) // the URL is not a Google Sheets URL; the message quotes it

  const SheetsHost := "docs.google.com/spreadsheets"

  /** The marker of a published-sheet download link, `pub?output=<type>`. */
  function PubOutput(exportType: string): string { "pub?output=" + exportType }

  /** The marker of an export download link, `export?format=<type>`. */
  function ExportFormat(exportType: string): string { "export?format=" + exportType }

  /** Python's truthiness test `not sheet_url` for an optional string. */
  predicate IsMissing(sheetUrl: Option<string>) {
    sheetUrl.None? || sheetUrl.value == ""
  }

  /** The URL already downloads `exportType`, so it is left alone. */
  predicate IsExportLink(url: string, exportType: string) {
    Contains(url, PubOutput(exportType)) || Contains(url, ExportFormat(exportType))
  }

  /**
    `url` is obtained from `original` by cutting at the first `marker` and
    appending `suffix`: `prefix + marker` starts `original`, no `marker` occurs
    before the cut, and `url == prefix + suffix`.
  */
  ghost predicate CutAndAppend(original: string, url: string, marker: string, suffix: string) {
    Contains(original, marker) &&
    exists k | 0 <= k <= |original| ::
      url == original[..k] + suffix &&
      OccursAt(original, marker, k) &&
      forall j :: 0 <= j < k ==> !OccursAt(original, marker, j)
  }

  /**
    The normaliser. A missing URL is checked before the host; an export link
    is kept even if it also contains a browser marker; the browser markers are
    tried in the order `/edit`, `/view`, `/pubhtml`; any other valid URL is
    returned as it is.
  */
  function CleanSheetUrl(sheetUrl: Option<string>, exportType: string := "xlsx"): (r: Result<string, UrlError>)
    ensures r == Failure(MissingUrl) <==> IsMissing(sheetUrl)
    ensures r.Failure? <==> IsMissing(sheetUrl) || !Contains(sheetUrl.value, SheetsHost)
    ensures r.Failure? && !IsMissing(sheetUrl) ==> r.error == MalformedUrl(sheetUrl.value)
    ensures r.Success? && r.value != sheetUrl.value ==>
      !IsExportLink(sheetUrl.value, exportType) &&
      (CutAndAppend(sheetUrl.value, r.value, "/edit", "/" + ExportFormat(exportType)) ||
       CutAndAppend(sheetUrl.value, r.value, "/view", "/" + ExportFormat(exportType)) ||
       CutAndAppend(sheetUrl.value, r.value, "/pubhtml", "/" + PubOutput(exportType)))
  {
    if IsMissing(sheetUrl) then Failure(MissingUrl)
    else
      var url := sheetUrl.value;
      if !Contains(url, SheetsHost) then Failure(MalformedUrl(url))
      else if IsExportLink(url, exportType) then Success(url)
      else if Contains(url, "/edit") then Success(Rewrite(url, "/edit", "/" + ExportFormat(exportType)))
      else if Contains(url, "/view") then Success(Rewrite(url, "/view", "/" + ExportFormat(exportType)))
      else if Contains(url, "/pubhtml") then Success(Rewrite(url, "/pubhtml", "/" + PubOutput(exportType)))
      else Success(url)
  }

  /** `url.split(marker)[0] + suffix`, for a URL that contains `marker`. */
  function Rewrite(url: string, marker: string, suffix: string): (r: string)
    requires marker != "" && Contains(url, marker)
    ensures CutAndAppend(url, r, marker, suffix)
    ensures |r| - |suffix| + |marker| <= |url|
  {
    var head := SplitHead(url, marker);
    var k := FirstOccurrence(url, marker).value;
    assert head == url[..k] by {
      assert head + marker <= url;
      assert url[..|head|] == head;
      assert OccursAt(url, marker, |head|);
    }
    head + suffix
  }

  /** Outcome of each branch of the `if`/`elif` chain on a valid URL. */
  lemma CleanSheetUrlBranches(url: string, exportType: string)
    requires url != "" && Contains(url, SheetsHost)
    ensures IsExportLink(url, exportType) ==>
      CleanSheetUrl(Some(url), exportType) == Success(url)
    ensures !IsExportLink(url, exportType) && Contains(url, "/edit") ==>
      CleanSheetUrl(Some(url), exportType) == Success(SplitHead(url, "/edit") + "/export?format=" + exportType)
    ensures !IsExportLink(url, exportType) && !Contains(url, "/edit") && Contains(url, "/view") ==>
      CleanSheetUrl(Some(url), exportType) == Success(SplitHead(url, "/view") + "/export?format=" + exportType)
    ensures !IsExportLink(url, exportType) && !Contains(url, "/edit") && !Contains(url, "/view")
            && Contains(url, "/pubhtml") ==>
      CleanSheetUrl(Some(url), exportType) == Success(SplitHead(url, "/pubhtml") + "/pub?output=" + exportType)
    ensures !IsExportLink(url, exportType) && !Contains(url, "/edit") && !Contains(url, "/view")
            && !Contains(url, "/pubhtml") ==>
      CleanSheetUrl(Some(url), exportType) == Success(url)
  {
    assert "/" + ExportFormat(exportType) == "/export?format=" + exportType;
    assert "/" + PubOutput(exportType) == "/pub?output=" + exportType;
    forall head: string
      ensures head + "/export?format=" + exportType == head + ("/" + ExportFormat(exportType))
      ensures head + "/pub?output=" + exportType == head + ("/" + PubOutput(exportType))
    {
    }
  }

  /**
    Every successful result is a download link for `exportType` unless the
    URL carried no recognised marker at all, in which case it is unchanged.
  */
  lemma {:induction false} CleanedUrlIsExportLink(url: string, exportType: string)
    requires CleanSheetUrl(Some(url), exportType).Success?
    ensures var r := CleanSheetUrl(Some(url), exportType).value;
      IsExportLink(r, exportType) ||
      (r == url && !Contains(url, "/edit") && !Contains(url, "/view") && !Contains(url, "/pubhtml"))
  {
    var r := CleanSheetUrl(Some(url), exportType).value;
    if !IsExportLink(url, exportType) {
      if Contains(url, "/edit") || Contains(url, "/view") {
        var marker := if Contains(url, "/edit") then "/edit" else "/view";
        ContainsSelf(ExportFormat(exportType));
        ContainsInSuffix("/", ExportFormat(exportType), ExportFormat(exportType));
        ContainsInSuffix(SplitHead(url, marker), "/" + ExportFormat(exportType), ExportFormat(exportType));
        assert r == SplitHead(url, marker) + ("/" + ExportFormat(exportType));
      } else if Contains(url, "/pubhtml") {
        ContainsSelf(PubOutput(exportType));
        ContainsInSuffix("/", PubOutput(exportType), PubOutput(exportType));
        ContainsInSuffix(SplitHead(url, "/pubhtml"), "/" + PubOutput(exportType), PubOutput(exportType));
        assert r == SplitHead(url, "/pubhtml") + ("/" + PubOutput(exportType));
      }
    }
  }

  /**
    Cleaning is idempotent as long as the cleaned URL still names the
    spreadsheet host: a rewritten URL ends in an export marker, so the second
    pass takes the "already formed" branch.
  */
  lemma {:induction false} CleanSheetUrlIdempotent(url: string, exportType: string)
    requires CleanSheetUrl(Some(url), exportType).Success?
    requires Contains(CleanSheetUrl(Some(url), exportType).value, SheetsHost)
    ensures var r := CleanSheetUrl(Some(url), exportType).value;
      CleanSheetUrl(Some(r), exportType) == Success(r)
  {
    CleanedUrlIsExportLink(url, exportType);
  }

  /** `x/edit` followed by the host is a valid sheet URL with an `/edit` marker and no export marker. */
  lemma EditBeforeHost(url: string)
    requires url == "x" + "/edit" + SheetsHost
    ensures url != "" && Contains(url, SheetsHost) && Contains(url, "/edit")
    ensures !IsExportLink(url, "xlsx")
  {
    ContainsSelf(SheetsHost);
    ContainsInSuffix("x" + "/edit", SheetsHost, SheetsHost);
    MissingCharNotContained(url, PubOutput("xlsx"), '?');
    MissingCharNotContained(url, ExportFormat("xlsx"), '?');
    assert OccursAt(url, "/edit", 1) by { assert url[1..6] == "/edit"; }
  }

  /** In `x/edit` followed by the host, the first `/edit` is at index 1. */
  lemma HeadBeforeEdit(url: string)
    requires url == "x" + "/edit" + SheetsHost
    ensures SplitHead(url, "/edit") == "x"
  {
    assert OccursAt(url, "/edit", 1) by { assert url[1..6] == "/edit"; }
    var head := SplitHead(url, "/edit");
    assert |head| <= 1;
    assert url[0] != '/';
    assert url[|head|] == (head + "/edit")[|head|];
    assert head == url[..|head|];
  }

  /**
    The proviso of `CleanSheetUrlIdempotent` is needed: when the host name
    appears only after the browser marker, the cut drops it and the cleaned
    URL no longer passes the host check.
  */
  lemma RewriteCanDropHost(url: string)
    requires url == "x" + "/edit" + SheetsHost
    ensures CleanSheetUrl(Some(url), "xlsx") == Success("x/export?format=xlsx")
    ensures CleanSheetUrl(Some("x/export?format=xlsx"), "xlsx") == Failure(MalformedUrl("x/export?format=xlsx"))
  {
    EditBeforeHost(url);
    HeadBeforeEdit(url);
    assert "x" + ("/" + ExportFormat("xlsx")) == "x/export?format=xlsx";
  }
}
