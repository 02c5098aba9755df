/**
 * The reference resolutions the scanners ask of Python's `urljoin`: the simple cases
 * of section 5.2.2 of RFC 3986 (with the merge of section 5.2.3) that arise when the
 * base is a scheme plus a plain host name, with or without a trailing "/". `urljoin`
 * itself is a library routine and stays a parameter of the model; `AgreesWithRfc` says
 * that it resolves these simple cases as the RFC does.
 */
module Url {
  import opened Wrappers

  const Https: string := "https://"
  const Http: string := "http://"

  /** Letters, digits, '-', '.', '_': the characters of a plain DNS host name. */
  predicate IsHostChar(c: char) {
    || 'a' <= c <= 'z' || 'A' <= c <= 'Z' || '0' <= c <= '9'
    || c == '-' || c == '.' || c == '_'
  }

  predicate IsPlainHost(h: string) {
    |h| > 0 && forall i :: 0 <= i < |h| ==> IsHostChar(h[i])
  }

  /** What follows an "https://" or "http://" prefix. */
  function AfterScheme(u: string): Option<string> {
    if Https <= u then Some(u[|Https|..])
    else if Http <= u then Some(u[|Http|..])
    else None
  }

  /** `scheme://host`: an authority and an empty path. */
  predicate IsAuthorityBase(b: string) {
    AfterScheme(b).Some? && IsPlainHost(AfterScheme(b).value)
  }

  /** `scheme://host/`: an authority and the root directory as path. */
  predicate IsDirectoryBase(b: string) {
    |b| > 0 && b[|b| - 1] == '/' && IsAuthorityBase(b[..|b| - 1])
  }

  /**
   * Printable ASCII other than the characters that would start a query, a fragment or
   * path parameters, or that could be read as ending a scheme name.
   */
  predicate IsSegmentChar(c: char) {
    '!' <= c <= '~' && c != '/' && c != '?' && c != '#' && c != ':' && c != ';'
  }

  /** Index of the first '/' in `s`, or `|s|`. */
  function SegmentEnd(s: string): (k: nat)
    ensures k <= |s|
    ensures k < |s| ==> s[k] == '/'
    ensures forall i :: 0 <= i < k ==> s[i] != '/'
  {
    if s == [] || s[0] == '/' then 0 else 1 + SegmentEnd(s[1..])
  }

  /** No segment of the path `s` is "." or "..", the segments RFC 3986 removes. */
  predicate NoDotSegments(s: string)
    decreases |s|
  {
    var k := SegmentEnd(s);
    s[..k] != "." && s[..k] != ".." && (k < |s| ==> NoDotSegments(s[k + 1..]))
  }

  /**
   * A relative-path reference with nothing to remove or merge: non-empty, not starting
   * with '/', no empty segment except after a final '/', no dot segment.
   */
  predicate IsPlainRelative(r: string) {
    && r != [] && r[0] != '/'
    && (forall i :: 0 <= i < |r| ==> r[i] == '/' || IsSegmentChar(r[i]))
    && (forall i :: 0 <= i < |r| - 1 ==> !(r[i] == '/' && r[i + 1] == '/'))
    && NoDotSegments(r)
  }

  /** An absolute-path reference: "/" followed by nothing or by a plain relative path. */
  predicate IsPlainAbsolute(r: string) {
    r != [] && r[0] == '/' && (|r| == 1 || IsPlainRelative(r[1..]))
  }

  /**
   * The target URI of resolving `r` against `base` (section 5.2.2 of RFC 3986), for the
   * modelled cases; `None` for every other case.
   * - an empty reference yields the base itself (the base has no fragment to drop);
   * - a relative path against `scheme://host/` merges to `base + r` (section 5.2.3);
   * - an absolute path against `scheme://host` replaces the empty path: `base + r`.
   */
  function Resolve(base: string, r: string): Option<string> {
    if r == [] && '#' !in base then Some(base)
    else if IsDirectoryBase(base) && IsPlainRelative(r) then Some(base + r)
    else if IsAuthorityBase(base) && IsPlainAbsolute(r) then Some(base + r)
    else None
  }

  /** `urljoin` resolves every modelled case as RFC 3986 does. */
  ghost predicate AgreesWithRfc(urljoin: (string, string) -> string) {
    forall b, r :: Resolve(b, r).Some? ==> urljoin(b, r) == Resolve(b, r).value
  }

  lemma {:induction false} SchemeHost(scheme: string, host: string)
    requires scheme == Https || scheme == Http
    requires IsPlainHost(host)
    ensures IsAuthorityBase(scheme + host)
    ensures IsDirectoryBase(scheme + host + "/")
    ensures '#' !in scheme + host
  {
    var b := scheme + host;
    if scheme == Http {
      assert !(Https <= b) by {
        assert b[4] == ':' && Https[4] == 's';
      }
    }
    assert AfterScheme(b) == Some(host);
    assert (b + "/")[..|b + "/"| - 1] == b;
    forall i | 0 <= i < |b|
      ensures b[i] != '#'
    {
      if i >= |scheme| {
        assert b[i] == host[i - |scheme|];
      }
    }
  }
}
