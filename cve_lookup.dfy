/**
 * CVE keyword suggestions (modules/cve_lookup.py): products named in a previous
 * fingerprint report become search keywords, a fixed fallback replaces an empty keyword
 * set, and each keyword keeps at most ten hits from the search service. The report is an
 * input (`None` when it is missing or unreadable) and so is the service: `service(k)` is
 * its reply to the search for `k`, or `None` when the request raised.
 */
module CveLookup {
  import opened Wrappers
  import opened Text

  const CommonProducts: seq<string> :=
    ["nginx", "apache", "openssl", "jetty", "tomcat", "iis", "php", "wordpress"]

  /** The products searched when the report names none. */
  const Fallback: set<string> := {"nginx", "apache", "openssl", "jetty"}

  /** The fields of a fingerprint report entry that are read. */
  datatype Entry = Entry(server: Option<string>, cms: Option<string>, title: Option<string>)

  /** A search hit, kept as the unparsed text of one JSON element. */
  type Hit = string

  /**
   * The service's reply: its status, and the non-empty `results` list of a JSON object
   * body. A body that is not JSON, or is JSON but not an object (a top-level array, for
   * one), is `None`: reading it raises inside `search_keyword`, which then returns no hits.
   */
  datatype Reply = Reply(status: int, results: Option<seq<Hit>>)

  /** `p` occurs in the lower-cased server or CMS of `e`. */
  predicate ServerOrCmsNames(e: Entry, p: string) {
    Contains(Lower(e.server.GetOr("")), p) || Contains(Lower(e.cms.GetOr("")), p)
  }

  /** `e` has a non-empty title in whose lower-cased form `p` occurs. */
  predicate TitleNames(e: Entry, p: string) {
    e.title.Some? && e.title.value != [] && Contains(Lower(e.title.value), p)
  }

  predicate Names(e: Entry, p: string) {
    ServerOrCmsNames(e, p) || TitleNames(e, p)
  }

  /** The common products some entry of `entries` names. */
  function Matched(entries: seq<Entry>): set<string> {
    set p | p in CommonProducts && exists e :: e in entries && Names(e, p)
  }

  /** The keywords `run` searches for: the matched products, or the fallback when none match. */
  function Keywords(report: Option<seq<Entry>>): set<string> {
    var m := Matched(report.GetOr([]));
    if m == {} then Fallback else m
  }

  lemma {:induction false} KeywordsSpec(report: Option<seq<Entry>>)
    ensures Keywords(report) != {}
    ensures forall k :: k in Keywords(report) ==> k in CommonProducts
    ensures report.None? ==> Keywords(report) == Fallback
  {
    assert "nginx" in Fallback;
    assert Matched([]) == {};
  }

  lemma {:induction false} MatchedStep(entries: seq<Entry>, e: Entry)
    ensures Matched(entries + [e]) == Matched(entries) + (set p | p in CommonProducts && Names(e, p))
  {
    forall p | p in Matched(entries) ensures p in Matched(entries + [e]) {
      var x :| x in entries && Names(x, p);
      assert x in entries + [e];
    }
    forall p | p in Matched(entries + [e]) && p !in Matched(entries) ensures Names(e, p) {
      var x :| x in entries + [e] && Names(x, p);
      if x != e {
        assert x in entries;
      }
    }
    assert e in entries + [e];
  }

  /** The products among the first `j` common products that `e` names by server or CMS. */
  function ServerOrCmsUpTo(e: Entry, j: nat): set<string>
    requires j <= |CommonProducts|
  {
    set p | p in CommonProducts[..j] && ServerOrCmsNames(e, p)
  }

  /** The products among the first `j` common products that `e` names by title. */
  function TitleUpTo(e: Entry, j: nat): set<string>
    requires j <= |CommonProducts|
  {
    set p | p in CommonProducts[..j] && TitleNames(e, p)
  }

  lemma {:induction false} UpToStep(e: Entry, j: nat)
    requires j < |CommonProducts|
    ensures ServerOrCmsUpTo(e, j + 1)
         == ServerOrCmsUpTo(e, j) + (if ServerOrCmsNames(e, CommonProducts[j]) then {CommonProducts[j]} else {})
    ensures TitleUpTo(e, j + 1)
         == TitleUpTo(e, j) + (if TitleNames(e, CommonProducts[j]) then {CommonProducts[j]} else {})
  {
    assert CommonProducts[..j + 1] == CommonProducts[..j] + [CommonProducts[j]];
  }

  lemma {:induction false} UpToAll(entries: seq<Entry>, e: Entry)
    ensures Matched(entries + [e])
         == Matched(entries) + ServerOrCmsUpTo(e, |CommonProducts|) + TitleUpTo(e, |CommonProducts|)
  {
    assert CommonProducts[..|CommonProducts|] == CommonProducts;
    MatchedStep(entries, e);
  }

  /** The first product loop for one entry: add each product its server or CMS names. */
  method AddServerOrCmsProducts(keywords: set<string>, e: Entry) returns (keywords': set<string>)
    ensures keywords' == keywords + ServerOrCmsUpTo(e, |CommonProducts|)
  {
    var server := Lower(e.server.GetOr(""));
    var cms := Lower(e.cms.GetOr(""));
    keywords' := keywords;
    var j := 0;
    while j < |CommonProducts|
      invariant 0 <= j <= |CommonProducts|
      invariant keywords' == keywords + ServerOrCmsUpTo(e, j)
    {
      var p := CommonProducts[j];
      if Contains(server, p) || Contains(cms, p) {
        keywords' := keywords' + {p};
      }
      UpToStep(e, j);
      j := j + 1;
    }
  }

  /** The title loop for one entry: with a non-empty title, add each product it names. */
  method AddTitleProducts(keywords: set<string>, e: Entry) returns (keywords': set<string>)
    ensures keywords' == keywords + TitleUpTo(e, |CommonProducts|)
  {
    keywords' := keywords;
    if e.title.Some? && e.title.value != [] {
      var title := Lower(e.title.value);
      var j := 0;
      while j < |CommonProducts|
        invariant 0 <= j <= |CommonProducts|
        invariant keywords' == keywords + TitleUpTo(e, j)
      {
        var p := CommonProducts[j];
        if Contains(title, p) {
          keywords' := keywords' + {p};
        }
        UpToStep(e, j);
        j := j + 1;
      }
    } else {
      assert TitleUpTo(e, |CommonProducts|) == {};
    }
  }

  /** `COMMON_PRODUCTS[:4]` is the fallback. */
  lemma FallbackProducts()
    ensures (set p | p in CommonProducts[..4]) == Fallback
  {
    assert CommonProducts[..4] == ["nginx", "apache", "openssl", "jetty"];
  }

  /**
   * The keyword loops of `run`: for every entry, every product named by its server or
   * CMS and then every product named by its title is added; the fallback is added when
   * nothing was.
   */
  method DeriveKeywords(report: Option<seq<Entry>>) returns (keywords: set<string>)
    ensures keywords == Keywords(report)
  {
    var entries := if report.Some? then report.value else [];
    keywords := {};
    var i := 0;
    while i < |entries|
      invariant 0 <= i <= |entries|
      invariant keywords == Matched(entries[..i])
    {
      var e := entries[i];
      keywords := AddServerOrCmsProducts(keywords, e);
      keywords := AddTitleProducts(keywords, e);
      UpToAll(entries[..i], e);
      assert entries[..i + 1] == entries[..i] + [e];
      i := i + 1;
    }
    assert entries[..i] == entries;
    if keywords == {} {
      FallbackProducts();
      keywords := keywords + set p | p in CommonProducts[..4];
    }
  }

  /** `search_keyword`: the `results` list of a 200 reply whose body is a JSON object, else empty. */
  function SearchKeyword(reply: Option<Reply>): (hits: seq<Hit>)
    ensures reply.Some? && reply.value.status == 200 && reply.value.results.Some? ==>
              hits == reply.value.results.value
    ensures hits != [] ==> reply.Some? && reply.value.status == 200 && reply.value.results == Some(hits)
  {
    match reply
    case Some(Reply(200, Some(results))) => results
    case _ => []
  }

  /** `hits[:10]`: the first ten hits, or all of them when there are fewer. */
  function Top10(hits: seq<Hit>): (r: seq<Hit>)
    ensures r <= hits
    ensures |r| == if |hits| <= 10 then |hits| else 10
  {
    if |hits| <= 10 then hits else hits[..10]
  }

  /** The search loop of `run`: one entry per keyword, holding its top ten hits. */
  method LookupAll(keywords: set<string>, service: string -> Option<Reply>)
    returns (all: map<string, seq<Hit>>)
    ensures all.Keys == keywords
    ensures forall k :: k in keywords ==> all[k] == Top10(SearchKeyword(service(k)))
  {
    all := map[];
    var remaining := keywords;
    while remaining != {}
      invariant remaining <= keywords
      invariant all.Keys == keywords - remaining
      invariant forall k :: k in all ==> all[k] == Top10(SearchKeyword(service(k)))
      decreases remaining
    {
      var k :| k in remaining;
      var hits := SearchKeyword(service(k));
      all := all[k := Top10(hits)];
      remaining := remaining - {k};
    }
  }

  /**
   * `run`: the result maps exactly the derived keywords, each to the first ten hits the
   * service returned for it (all of them when there are fewer), and to none when its
   * search failed.
   */
  method Run(report: Option<seq<Entry>>, service: string -> Option<Reply>)
    returns (all: map<string, seq<Hit>>)
    ensures all.Keys == Keywords(report)
    ensures forall k :: k in all ==> all[k] == Top10(SearchKeyword(service(k)))
    ensures forall k :: k in all ==> |all[k]| <= 10 && all[k] <= SearchKeyword(service(k))
    ensures forall k :: k in all && (service(k).None? || service(k).value.status != 200) ==> all[k] == []
  {
    var keywords := DeriveKeywords(report);
    all := LookupAll(keywords, service);
  }
}
