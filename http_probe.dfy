/**
 * HTTP probing (modules/http_probe.py): each of two schemes is combined with three fixed
 * paths, every resulting URL is requested once in that order, and one record is kept per
 * request that did not raise. `transport(url)` is the response, or `None` when the
 * request raised.
 */
module HttpProbe {
  import opened Wrappers
  import opened Text
  import opened Seqs
  import opened Url

  const SchemeCandidates: seq<string> := [Https, Http]
  const DefaultPaths: seq<string> := ["/", "/robots.txt", "/.well-known/security.txt"]

  /** A response after redirects: status, final URL, redirect statuses, headers, body size. */
  datatype Response = Response(statusCode: int, url: string, history: seq<int>,
                               headers: map<string, string>, length: nat, reason: string)

  /** The record kept for one successful probe. */
  datatype ProbeRecord = ProbeRecord(url: string, statusCode: int, finalUrl: string,
                                     history: seq<int>, server: Option<string>,
                                     contentType: Option<string>, headers: map<string, string>,
                                     length: nat, reason: string)

  /** `_probe_url`: the record of a response, `None` when the request raised. */
  function ProbeUrl(url: string, reply: Option<Response>): Option<ProbeRecord> {
    match reply
    case None => None
    case Some(r) =>
      Some(ProbeRecord(url, r.statusCode, r.url, r.history,
                       HeaderValue(r.headers, "Server"), HeaderValue(r.headers, "Content-Type"),
                       r.headers, r.length, r.reason))
  }

  /** The URLs requested for one scheme: each default path joined onto `scheme + domain`. */
  function SchemeTargets(scheme: string, domain: string, urljoin: (string, string) -> string): seq<string> {
    seq(|DefaultPaths|, j requires 0 <= j < |DefaultPaths| => urljoin(scheme + domain, DefaultPaths[j]))
  }

  /** The URLs `run` requests: every scheme with every path, schemes outermost. */
  function Targets(domain: string, urljoin: (string, string) -> string): seq<string> {
    SchemeTargets(SchemeCandidates[0], domain, urljoin) + SchemeTargets(SchemeCandidates[1], domain, urljoin)
  }

  function Attempts(urls: seq<string>, transport: string -> Option<Response>): seq<Option<ProbeRecord>> {
    seq(|urls|, i requires 0 <= i < |urls| => ProbeUrl(urls[i], transport(urls[i])))
  }

  /** A plain segment without '/' is a whole relative path when it is not a dot segment. */
  lemma {:induction false} SingleSegment(r: string)
    requires r != [] && r != "." && r != ".."
    requires forall i :: 0 <= i < |r| ==> IsSegmentChar(r[i])
    ensures IsPlainRelative(r)
  {
    assert SegmentEnd(r) == |r|;
    assert r[..|r|] == r;
  }

  lemma RootPlain()
    ensures IsPlainAbsolute("/")
  {
    assert "/"[1..] == [];
  }

  lemma RobotsPlain()
    ensures IsPlainAbsolute("/robots.txt")
  {
    var r := "robots.txt";
    SingleSegment(r);
    assert "/robots.txt"[1..] == r;
  }

  /** Two plain segments joined by '/' form a plain relative path. */
  lemma {:induction false} TwoSegments(a: string, b: string)
    requires a != [] && a != "." && a != ".."
    requires forall i :: 0 <= i < |a| ==> IsSegmentChar(a[i])
    requires b != [] && b != "." && b != ".."
    requires forall i :: 0 <= i < |b| ==> IsSegmentChar(b[i])
    ensures IsPlainRelative(a + "/" + b)
  {
    var r := a + "/" + b;
    SingleSegment(b);
    assert SegmentEnd(r) == |a| by {
      assert r[|a|] == '/';
      assert forall i :: 0 <= i < |a| ==> r[i] == a[i];
    }
    assert r[..|a|] == a;
    assert r[|a| + 1..] == b;
    forall i | 0 <= i < |r|
      ensures r[i] == '/' || IsSegmentChar(r[i])
    {
      if i > |a| {
        assert r[i] == b[i - |a| - 1];
      }
    }
    forall i | 0 <= i < |r| - 1
      ensures !(r[i] == '/' && r[i + 1] == '/')
    {
      if i > |a| {
        assert r[i] == b[i - |a| - 1];
      } else if i < |a| {
        assert r[i] == a[i];
      } else {
        assert r[i + 1] == b[0];
      }
    }
  }

  lemma WellKnownChars()
    ensures forall i :: 0 <= i < |".well-known"| ==> IsSegmentChar(".well-known"[i])
  {
  }

  lemma SecurityTxtChars()
    ensures forall i :: 0 <= i < |"security.txt"| ==> IsSegmentChar("security.txt"[i])
  {
  }

  lemma SecurityPlain()
    ensures IsPlainAbsolute("/.well-known/security.txt")
  {
    WellKnownChars();
    SecurityTxtChars();
    TwoSegments(".well-known", "security.txt");
    assert "/.well-known/security.txt"[1..] == ".well-known" + "/" + "security.txt";
  }

  /** The three default paths are absolute paths with nothing to merge or remove. */
  lemma DefaultPathsPlain()
    ensures forall p :: p in DefaultPaths ==> IsPlainAbsolute(p)
  {
    RootPlain();
    RobotsPlain();
    SecurityPlain();
    assert DefaultPaths == ["/", "/robots.txt", "/.well-known/security.txt"];
  }

  /** Joining a default path to `scheme://host` appends it. */
  lemma {:induction false} JoinDefaultPath(scheme: string, domain: string, j: int, urljoin: (string, string) -> string)
    requires scheme == Https || scheme == Http
    requires IsPlainHost(domain) && AgreesWithRfc(urljoin)
    requires 0 <= j < |DefaultPaths|
    ensures urljoin(scheme + domain, DefaultPaths[j]) == scheme + domain + DefaultPaths[j]
  {
    SchemeHost(scheme, domain);
    DefaultPathsPlain();
    assert DefaultPaths[j] in DefaultPaths;
    assert DefaultPaths[j] != [];
    assert Resolve(scheme + domain, DefaultPaths[j]) == Some(scheme + domain + DefaultPaths[j]);
  }

  /**
   * For a plain host name the targets are exactly six URLs, scheme + domain + path, https
   * first, each scheme with "/", "/robots.txt" and "/.well-known/security.txt" in order.
   */
  lemma {:induction false} TargetsExact(domain: string, urljoin: (string, string) -> string)
    requires IsPlainHost(domain) && AgreesWithRfc(urljoin)
    ensures Targets(domain, urljoin) == [
              "https://" + domain + "/", "https://" + domain + "/robots.txt",
              "https://" + domain + "/.well-known/security.txt",
              "http://" + domain + "/", "http://" + domain + "/robots.txt",
              "http://" + domain + "/.well-known/security.txt"]
  {
    forall scheme, j | (scheme == Https || scheme == Http) && 0 <= j < 3
      ensures SchemeTargets(scheme, domain, urljoin)[j] == scheme + domain + DefaultPaths[j]
    {
      JoinDefaultPath(scheme, domain, j, urljoin);
    }
  }

  /**
   * `run`: probe each target in order, keep the record of each probe that did not raise,
   * and pause once after every attempt, successful or not.
   */
  method Run(domain: string, urljoin: (string, string) -> string,
             transport: string -> Option<Response>)
    returns (results: seq<ProbeRecord>, pauses: nat)
    ensures results == Somes(Attempts(Targets(domain, urljoin), transport))
    ensures pauses == |Targets(domain, urljoin)| == 6
  {
    ghost var done: seq<string> := [];
    results, pauses := [], 0;
    var s := 0;
    while s < |SchemeCandidates|
      invariant 0 <= s <= |SchemeCandidates|
      invariant done == if s == 0 then [] else if s == 1 then SchemeTargets(Https, domain, urljoin)
                        else Targets(domain, urljoin)
      invariant results == Somes(Attempts(done, transport))
      invariant pauses == |done|
    {
      results, pauses := ProbeScheme(SchemeCandidates[s], domain, urljoin, transport, done, results, pauses);
      done := done + SchemeTargets(SchemeCandidates[s], domain, urljoin);
      s := s + 1;
    }
  }

  /** The inner loop of `run`: probe every default path under one scheme. */
  method ProbeScheme(scheme: string, domain: string, urljoin: (string, string) -> string,
                     transport: string -> Option<Response>, ghost done: seq<string>,
                     results: seq<ProbeRecord>, pauses: nat)
    returns (results': seq<ProbeRecord>, pauses': nat)
    requires results == Somes(Attempts(done, transport)) && pauses == |done|
    ensures results' == Somes(Attempts(done + SchemeTargets(scheme, domain, urljoin), transport))
    ensures pauses' == |done + SchemeTargets(scheme, domain, urljoin)|
  {
    var base := scheme + domain;
    ghost var block := SchemeTargets(scheme, domain, urljoin);
    ghost var seen := done;
    results', pauses' := results, pauses;
    var j := 0;
    while j < |DefaultPaths|
      invariant 0 <= j <= |DefaultPaths|
      invariant seen == done + block[..j]
      invariant results' == Somes(Attempts(seen, transport))
      invariant pauses' == |seen|
    {
      var url := urljoin(base, DefaultPaths[j]);
      SchemeTargetAt(scheme, domain, urljoin, j);
      results', pauses' := ProbeOne(url, transport, seen, results', pauses');
      PrefixStep(done, block, j);
      seen := seen + [url];
      j := j + 1;
    }
    assert block[..j] == block;
  }

  lemma {:induction false} SchemeTargetAt(scheme: string, domain: string, urljoin: (string, string) -> string, j: int)
    requires 0 <= j < |DefaultPaths|
    ensures |SchemeTargets(scheme, domain, urljoin)| == |DefaultPaths|
    ensures SchemeTargets(scheme, domain, urljoin)[j] == urljoin(scheme + domain, DefaultPaths[j])
  {
  }

  lemma {:induction false} PrefixStep<T>(done: seq<T>, block: seq<T>, j: int)
    requires 0 <= j < |block|
    ensures done + block[..j + 1] == done + block[..j] + [block[j]]
  {
    assert block[..j + 1] == block[..j] + [block[j]];
  }

  /** The body of the inner loop: probe one URL, keep its record if any, then pause. */
  method ProbeOne(url: string, transport: string -> Option<Response>, ghost seen: seq<string>,
                  results: seq<ProbeRecord>, pauses: nat)
    returns (results': seq<ProbeRecord>, pauses': nat)
    requires results == Somes(Attempts(seen, transport)) && pauses == |seen|
    ensures results' == Somes(Attempts(seen + [url], transport))
    ensures pauses' == |seen + [url]|
  {
    var r := ProbeUrl(url, transport(url));
    results' := results;
    if r.Some? {
      results' := results' + [r.value];
    }
    pauses' := pauses + 1;
    AttemptsSnoc(seen, url, transport);
    SomesSnoc(Attempts(seen, transport), r);
  }

  lemma {:induction false} AttemptsSnoc(urls: seq<string>, url: string, transport: string -> Option<Response>)
    ensures Attempts(urls + [url], transport) == Attempts(urls, transport) + [ProbeUrl(url, transport(url))]
  {
  }

  /**
   * The records of `run` are one per successful probe, in attempt order: at most six;
   * the `k`-th record belongs to target `pos[k]` with positions strictly increasing; its
   * `url` is that requested URL while `finalUrl` and `history` come from the response;
   * and every target whose request did not raise has its record.
   */
  lemma {:induction false} RunResultsSpec(domain: string, urljoin: (string, string) -> string,
                       transport: string -> Option<Response>)
    ensures var targets := Targets(domain, urljoin);
            var results := Somes(Attempts(targets, transport));
            var pos := SomePositions(Attempts(targets, transport));
            && |results| == |pos| <= 6
            && (forall k :: 0 <= k < |pos| ==>
                  && pos[k] < 6 && transport(targets[pos[k]]).Some?
                  && results[k].url == targets[pos[k]]
                  && results[k].finalUrl == transport(targets[pos[k]]).value.url
                  && results[k].history == transport(targets[pos[k]]).value.history
                  && results[k].statusCode == transport(targets[pos[k]]).value.statusCode)
            && (forall k, l :: 0 <= k < l < |pos| ==> pos[k] < pos[l])
            && (forall i :: 0 <= i < 6 ==> (i in pos <==> transport(targets[i]).Some?))
  {
    var targets := Targets(domain, urljoin);
    var attempts := Attempts(targets, transport);
    SomesSpec(attempts);
    var pos := SomePositions(attempts);
    forall i | 0 <= i < 6 && i in pos
      ensures transport(targets[i]).Some?
    {
      var k :| 0 <= k < |pos| && pos[k] == i;
    }
  }
}
