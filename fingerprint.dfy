/**
 * Lightweight fingerprinting (modules/fingerprint.py): a WAF guess and a CMS guess from
 * first-match searches over ordered signature lists, and one record per front page that
 * could be fetched. Fetches are inputs: `fetch(url)` is the page or `None` when the
 * request raised; `cmsFetch(url)` is the second request `_detect_cms` makes, with the
 * generator meta content and the title already extracted from the HTML.
 */
module Fingerprint {
  import opened Wrappers
  import opened Text
  import opened Seqs
  import opened Url

  const WafSigs: seq<string> :=
    ["cloudflare", "sucuri", "incapsula", "akamai", "f5", "mod_security", "deny"]

  /** A CMS name and the strings whose presence suggests it. */
  datatype CmsSig = CmsSig(name: string, checks: seq<string>)

  /** The CMS signatures in the order they are tried. */
  const CmsSigs: seq<CmsSig> := [
    CmsSig("wordpress", ["/wp-login.php", "/wp-admin/", "wp-content", "WordPress"]),
    CmsSig("joomla", ["/administrator/", "Joomla"]),
    CmsSig("drupal", ["sites/default", "Drupal"]),
    CmsSig("shopify", ["cdn.shopify.com", "X-Shopify-Stage"])
  ]

  // ---------------------------------------------------------------------------
  // WAF detection

  /** Index of the first signature occurring in `text`, or `|sigs|` when none does. */
  function FirstOccurring(sigs: seq<string>, text: string): (i: nat)
    ensures i <= |sigs|
    ensures i < |sigs| ==> Contains(text, sigs[i])
    ensures forall j :: 0 <= j < i ==> !Contains(text, sigs[j])
  {
    if sigs == [] then 0
    else if Contains(text, sigs[0]) then 0
    else 1 + FirstOccurring(sigs[1..], text)
  }

  /** The server header, the header dictionary's text and the body, lower-cased, joined by spaces. */
  function Combined(server: Option<string>, headersText: string, body: string): string {
    Lower(server.GetOr("")) + " " + Lower(headersText) + " " + Lower(body)
  }

  /**
   * `_check_waf`: the first WAF signature, in list order, occurring in the combined text;
   * `None` exactly when no signature occurs in it.
   */
  function CheckWaf(server: Option<string>, headersText: string, body: string): (r: Option<string>)
    ensures r.None? || r.value in WafSigs
    ensures r.Some? ==>
              exists i :: 0 <= i < |WafSigs| && WafSigs[i] == r.value
                          && Contains(Combined(server, headersText, body), WafSigs[i])
                          && forall j :: 0 <= j < i ==> !Contains(Combined(server, headersText, body), WafSigs[j])
    ensures r.None? <==>
              forall j :: 0 <= j < |WafSigs| ==> !Contains(Combined(server, headersText, body), WafSigs[j])
  {
    var i := FirstOccurring(WafSigs, Combined(server, headersText, body));
    if i < |WafSigs| then Some(WafSigs[i]) else None
  }

  // ---------------------------------------------------------------------------
  // CMS detection

  /** A check string occurs, ignoring case, in the page text or in the final URL. */
  predicate CheckHits(check: string, text: string, url: string) {
    Contains(Lower(text), Lower(check)) || Contains(Lower(url), Lower(check))
  }

  predicate SigHits(sig: CmsSig, text: string, url: string) {
    exists c :: c in sig.checks && CheckHits(c, text, url)
  }

  /** Index of the first signature with a hit, or `|sigs|` when none has one. */
  function FirstCms(sigs: seq<CmsSig>, text: string, url: string): (i: nat)
    ensures i <= |sigs|
    ensures i < |sigs| ==> SigHits(sigs[i], text, url)
    ensures forall j :: 0 <= j < i ==> !SigHits(sigs[j], text, url)
  {
    if sigs == [] then 0
    else if SigHits(sigs[0], text, url) then 0
    else 1 + FirstCms(sigs[1..], text, url)
  }

  /** What the CMS request yields: page text, final URL, generator meta content if any. */
  datatype CmsPage = CmsPage(text: string, finalUrl: string, generator: Option<string>)

  predicate HasGenerator(p: CmsPage) {
    p.generator.Some? && p.generator.value != []
  }

  /**
   * `_detect_cms`: a non-empty generator is returned verbatim; otherwise the first CMS,
   * in signature order, with a check hitting the page text or final URL; `None` when no
   * CMS has a hit, and `None` when the request raised.
   */
  function DetectCms(page: Option<CmsPage>): (r: Option<string>)
    ensures page.None? ==> r.None?
    ensures page.Some? && HasGenerator(page.value) ==> r == page.value.generator
    ensures page.Some? && !HasGenerator(page.value) ==>
              (r.Some? <==> exists i :: 0 <= i < |CmsSigs| && SigHits(CmsSigs[i], page.value.text, page.value.finalUrl))
    ensures page.Some? && !HasGenerator(page.value) && r.Some? ==>
              exists i :: 0 <= i < |CmsSigs| && CmsSigs[i].name == r.value
                          && SigHits(CmsSigs[i], page.value.text, page.value.finalUrl)
                          && forall j :: 0 <= j < i ==> !SigHits(CmsSigs[j], page.value.text, page.value.finalUrl)
  {
    match page
    case None => None
    case Some(p) =>
      if HasGenerator(p) then p.generator
      else
        var i := FirstCms(CmsSigs, p.text, p.finalUrl);
        if i < |CmsSigs| then Some(CmsSigs[i].name) else None
  }

  // ---------------------------------------------------------------------------
  // Records

  /** A fetched front page: status, headers (keys lower-cased), their text form, body, title. */
  datatype Page = Page(statusCode: int, headers: map<string, string>, headersText: string,
                       text: string, title: Option<string>)

  datatype FpRecord = FpRecord(url: string, status: int, server: Option<string>,
                               waf: Option<string>, cms: Option<string>, title: Option<string>)

  /** The two front pages, https first. */
  function Urls(domain: string): seq<string> {
    [Https + domain + "/", Http + domain + "/"]
  }

  /** The record for `url`, or `None` when fetching it raised (no CMS request is then made). */
  function Fingerprint(url: string, page: Option<Page>, cmsFetch: string -> Option<CmsPage>): Option<FpRecord> {
    match page
    case None => None
    case Some(p) =>
      var server := HeaderValue(p.headers, "Server");
      Some(FpRecord(url, p.statusCode, server, CheckWaf(server, p.headersText, p.text),
                    DetectCms(cmsFetch(url)), p.title))
  }

  function Attempts(urls: seq<string>, fetch: string -> Option<Page>,
                    cmsFetch: string -> Option<CmsPage>): seq<Option<FpRecord>> {
    seq(|urls|, i requires 0 <= i < |urls| => Fingerprint(urls[i], fetch(urls[i]), cmsFetch))
  }

  /** `run`: fingerprint each front page in order, keeping a record per successful fetch. */
  method Run(domain: string, fetch: string -> Option<Page>, cmsFetch: string -> Option<CmsPage>)
    returns (results: seq<FpRecord>)
    ensures results == Somes(Attempts(Urls(domain), fetch, cmsFetch))
  {
    var urls := Urls(domain);
    results := [];
    var i := 0;
    while i < |urls|
      invariant 0 <= i <= |urls|
      invariant results == Somes(Attempts(urls[..i], fetch, cmsFetch))
    {
      var u := urls[i];
      var item := Fingerprint(u, fetch(u), cmsFetch);
      if item.Some? {
        results := results + [item.value];
      }
      assert Attempts(urls[..i + 1], fetch, cmsFetch) == Attempts(urls[..i], fetch, cmsFetch) + [item];
      i := i + 1;
    }
    assert urls[..i] == urls;
  }

  /**
   * At most two records, in the order https then http, one for each front page whose
   * fetch did not raise; each carries its request URL, the page's status and title, the
   * page's `Server` header, the WAF guess made from that header and the page, and the CMS
   * guess of the second request to the same URL.
   */
  lemma {:induction false} RunResultsSpec(domain: string, fetch: string -> Option<Page>, cmsFetch: string -> Option<CmsPage>)
    ensures var urls := Urls(domain);
            var results := Somes(Attempts(urls, fetch, cmsFetch));
            var pos := SomePositions(Attempts(urls, fetch, cmsFetch));
            && |results| == |pos| <= 2
            && (forall k :: 0 <= k < |pos| ==>
                  && pos[k] < 2 && fetch(urls[pos[k]]).Some?
                  && results[k].url == urls[pos[k]]
                  && results[k].status == fetch(urls[pos[k]]).value.statusCode
                  && results[k].title == fetch(urls[pos[k]]).value.title
                  && results[k].server == HeaderValue(fetch(urls[pos[k]]).value.headers, "Server")
                  && results[k].waf == CheckWaf(results[k].server, fetch(urls[pos[k]]).value.headersText,
                                                fetch(urls[pos[k]]).value.text)
                  && results[k].cms == DetectCms(cmsFetch(urls[pos[k]])))
            && (forall k, l :: 0 <= k < l < |pos| ==> pos[k] < pos[l])
            && (forall i :: 0 <= i < 2 ==> (i in pos <==> fetch(urls[i]).Some?))
  {
    var urls := Urls(domain);
    var attempts := Attempts(urls, fetch, cmsFetch);
    SomesSpec(attempts);
    var pos := SomePositions(attempts);
    forall i | 0 <= i < 2 && i in pos
      ensures fetch(urls[i]).Some?
    {
      var k :| 0 <= k < |pos| && pos[k] == i;
    }
  }

  /** With both fetches succeeding, the records are for https://domain/ then http://domain/. */
  lemma {:induction false} BothReachable(domain: string, fetch: string -> Option<Page>, cmsFetch: string -> Option<CmsPage>)
    requires fetch(Https + domain + "/").Some? && fetch(Http + domain + "/").Some?
    ensures var results := Somes(Attempts(Urls(domain), fetch, cmsFetch));
            |results| == 2 && results[0].url == "https://" + domain + "/"
            && results[1].url == "http://" + domain + "/"
  {
    var attempts := Attempts(Urls(domain), fetch, cmsFetch);
    assert attempts[..1] == [attempts[0]];
    assert attempts == attempts[..1] + [attempts[1]];
  }
}
