/**
 * Directory brute force (modules/dirbrute.py): the word list is filtered, each word is
 * normalised and resolved against `https://<domain>/` and `http://<domain>/`, every
 * resulting URL is requested once, and the outcomes whose status is present and below
 * 400 are collected. The HTTP requests are inputs: `transport(url)` is the status the
 * server answers, or `None` when the request raised. The workers of one base run
 * concurrently; the order in which they finish is the input permutation `order`.
 */
module DirBrute {
  import opened Wrappers
  import opened Text
  import opened Seqs
  import opened Url

  /** The word list the entry point always passes. */
  const DefaultWordlist: string := "modules/wordlists/common_dirs.txt"

  /** A reported probe: the URL requested and the status it answered with. */
  datatype Find = Find(url: string, status: int)

  /** The two bases probed, https first. */
  function Bases(domain: string): seq<string> {
    [Https + domain + "/", Http + domain + "/"]
  }

  // ---------------------------------------------------------------------------
  // Word list

  /** A raw line is kept when its stripped form is non-empty and it does not start with '#'. */
  predicate Keeps(line: string) {
    Strip(line) != [] && !StartsWith(line, "#")
  }

  function KeptLine(line: string): Option<string> {
    if Keeps(line) then Some(Strip(line)) else None
  }

  function KeptLines(lines: seq<string>): seq<Option<string>> {
    seq(|lines|, i requires 0 <= i < |lines| => KeptLine(lines[i]))
  }

  /** `[l.strip() for l in fh if l.strip() and not l.startswith("#")]` over the raw lines. */
  function ParseWordlist(lines: seq<string>): seq<string> {
    Somes(KeptLines(lines))
  }

  /**
   * The parsed word list keeps, in file order, exactly the stripped form of each kept
   * line: its `k`-th word is the stripped `pos[k]`-th line, the positions strictly
   * increase, and every kept line is among them.
   */
  lemma {:induction false} ParseWordlistSpec(lines: seq<string>)
    ensures var pos := SomePositions(KeptLines(lines));
            && |pos| == |ParseWordlist(lines)|
            && (forall k :: 0 <= k < |pos| ==>
                  pos[k] < |lines| && Keeps(lines[pos[k]])
                  && ParseWordlist(lines)[k] == Strip(lines[pos[k]]))
            && (forall k, l :: 0 <= k < l < |pos| ==> pos[k] < pos[l])
            && (forall i :: 0 <= i < |lines| && Keeps(lines[i]) ==> i in pos)
  {
    SomesSpec(KeptLines(lines));
  }

  /** Every parsed word is non-empty and has no whitespace at either end. */
  lemma {:induction false} ParsedWordsStripped(lines: seq<string>)
    ensures forall w :: w in ParseWordlist(lines) ==> w != [] && IsStripped(w)
  {
    ParseWordlistSpec(lines);
    var pos := SomePositions(KeptLines(lines));
    forall w | w in ParseWordlist(lines)
      ensures w != [] && IsStripped(w)
    {
      var k :| 0 <= k < |ParseWordlist(lines)| && ParseWordlist(lines)[k] == w;
      StripSpec(lines[pos[k]]);
    }
  }

  /** Only the raw line is tested for '#': an indented comment is kept as a word. */
  lemma IndentedHashKept()
    ensures ParseWordlist(["# admin\n", "  #x\n"]) == ["#x"]
  {
    var lines := ["# admin\n", "  #x\n"];
    assert !Keeps(lines[0]) by {
      assert lines[0][0] == '#';
    }
    assert Strip(lines[1]) == "#x";
    assert KeptLines(lines) == [None, Some("#x")];
  }

  // ---------------------------------------------------------------------------
  // Path normalisation and probe URLs

  /** `p.strip().lstrip("/")` */
  function NormalizePath(p: string): string {
    LStripChar(Strip(p), '/')
  }

  /**
   * Normalisation removes whitespace at both ends and then every leading '/', and nothing
   * else: the result is a suffix of the stripped word, what it drops is all '/', it does
   * not start with '/', and it does not end with whitespace.
   */
  lemma {:induction false} NormalizePathSpec(p: string)
    ensures NormalizePath(p) == Strip(p)[|Strip(p)| - |NormalizePath(p)|..]
    ensures forall k :: 0 <= k < |Strip(p)| - |NormalizePath(p)| ==> Strip(p)[k] == '/'
    ensures NormalizePath(p) != [] ==> NormalizePath(p)[0] != '/'
    ensures NormalizePath(p) != [] ==> !IsSpace(NormalizePath(p)[|NormalizePath(p)| - 1])
  {
    StripSpec(p);
    LStripCharSpec(Strip(p), '/');
  }

  /** A word normalises to the empty reference exactly when it is '/'s between whitespace. */
  lemma {:induction false} NormalizePathEmpty(p: string)
    ensures NormalizePath(p) == [] <==> forall k :: 0 <= k < |Strip(p)| ==> Strip(p)[k] == '/'
  {
    NormalizePathSpec(p);
    if forall k :: 0 <= k < |Strip(p)| ==> Strip(p)[k] == '/' {
      AllSlashes(Strip(p));
    }
  }

  lemma {:induction false} AllSlashes(s: string)
    requires forall k :: 0 <= k < |s| ==> s[k] == '/'
    ensures LStripChar(s, '/') == []
  {
    if s != [] {
      AllSlashes(s[1..]);
    }
  }

  /**
   * Normalising a second time changes the result exactly when the first pass left
   * whitespace at its front (the word had whitespace right after its leading '/'s).
   */
  lemma {:induction false} NormalizePathIdempotence(p: string)
    ensures NormalizePath(NormalizePath(p)) == NormalizePath(p)
            <==> (NormalizePath(p) == [] || !IsSpace(NormalizePath(p)[0]))
  {
    var q := NormalizePath(p);
    NormalizePathSpec(p);
    StripIdentity(q);
    if q == [] || !IsSpace(q[0]) {
      assert Strip(q) == q;
      assert LStripChar(q, '/') == q;
    } else {
      assert TrimLeft(q) == TrimLeft(q[1..]);
      assert |Strip(q)| < |q|;
    }
  }

  /** So normalisation is not idempotent in general: "/ a" becomes " a", then "a". */
  lemma NormalizePathNotIdempotent()
    ensures NormalizePath(NormalizePath("/ a")) != NormalizePath("/ a")
  {
    var p := "/ a";
    assert TrimLeft(p) == p;
    assert TrimRight(p) == p;
    assert LStripChar(p, '/') == " a" by {
      assert p[1..] == " a";
    }
    NormalizePathIdempotence(p);
  }

  /**
   * The URL a word is probed at. A word made only of '/'s probes the base itself (the
   * empty reference); a word normalising to a plain relative path probes `base + path`.
   */
  lemma {:induction false} ProbeUrlCases(domain: string, word: string, urljoin: (string, string) -> string)
    requires IsPlainHost(domain) && AgreesWithRfc(urljoin)
    ensures forall base :: base in Bases(domain) ==>
              && (NormalizePath(word) == [] ==> urljoin(base, NormalizePath(word)) == base)
              && (IsPlainRelative(NormalizePath(word)) ==>
                    urljoin(base, NormalizePath(word)) == base + NormalizePath(word))
  {
    SchemeHost(Https, domain);
    SchemeHost(Http, domain);
    assert Https + domain + "/" == (Https + domain) + "/";
    assert Http + domain + "/" == (Http + domain) + "/";
    forall base | base in Bases(domain)
      ensures '#' !in base && IsDirectoryBase(base)
    {
      assert '/' != '#';
    }
  }

  // ---------------------------------------------------------------------------
  // Probing one base

  /** `if status and status < 400`: present, non-zero and below 400. */
  predicate Reportable(status: Option<int>) {
    status.Some? && status.value != 0 && status.value < 400
  }

  /**
   * One worker: resolve the normalised word against the base, request it (`None` when the
   * request raised), and report the pair when the status is reportable.
   */
  function WorkerFind(base: string, word: string, urljoin: (string, string) -> string,
                      transport: string -> Option<int>): Option<Find>
  {
    var url := urljoin(base, NormalizePath(word));
    var status := transport(url);
    if Reportable(status) then Some(Find(url, status.value)) else None
  }

  function Workers(base: string, words: seq<string>, urljoin: (string, string) -> string,
                   transport: string -> Option<int>): seq<Option<Find>>
  {
    seq(|words|, i requires 0 <= i < |words| => WorkerFind(base, words[i], urljoin, transport))
  }

  /** The reportable outcomes of one base, in word-list order. */
  function Outcomes(base: string, words: seq<string>, urljoin: (string, string) -> string,
                    transport: string -> Option<int>): seq<Find>
  {
    Somes(Workers(base, words, urljoin, transport))
  }

  /**
   * Each word yields at most one find, in word order: the `k`-th outcome is the URL of
   * word `pos[k]` with the reportable status it answered; positions strictly increase;
   * every word whose URL answers a reportable status is among them, and a failed
   * request (`None`) never is.
   */
  lemma {:induction false} OutcomesSpec(base: string, words: seq<string>, urljoin: (string, string) -> string,
                     transport: string -> Option<int>)
    ensures var out := Outcomes(base, words, urljoin, transport);
            var pos := SomePositions(Workers(base, words, urljoin, transport));
            && |pos| == |out| <= |words|
            && (forall k :: 0 <= k < |pos| ==>
                  && pos[k] < |words|
                  && out[k].url == urljoin(base, NormalizePath(words[pos[k]]))
                  && Reportable(transport(out[k].url))
                  && out[k].status == transport(out[k].url).value)
            && (forall k, l :: 0 <= k < l < |pos| ==> pos[k] < pos[l])
            && (forall i :: 0 <= i < |words| ==>
                  (i in pos <==> Reportable(transport(urljoin(base, NormalizePath(words[i]))))))
  {
    var ws := Workers(base, words, urljoin, transport);
    SomesSpec(ws);
    var pos := SomePositions(ws);
    forall i | 0 <= i < |words| && i in pos
      ensures Reportable(transport(urljoin(base, NormalizePath(words[i]))))
    {
      var k :| 0 <= k < |pos| && pos[k] == i;
    }
  }

  /** The URL each word is probed at, in word order. */
  function WordUrls(base: string, words: seq<string>, urljoin: (string, string) -> string): seq<string> {
    seq(|words|, i requires 0 <= i < |words| => urljoin(base, NormalizePath(words[i])))
  }

  lemma {:induction false} WorkersSnoc(base: string, words: seq<string>, urljoin: (string, string) -> string,
                    transport: string -> Option<int>)
    requires words != []
    ensures Workers(base, words, urljoin, transport)
         == Workers(base, words[..|words| - 1], urljoin, transport)
            + [WorkerFind(base, words[|words| - 1], urljoin, transport)]
  {
  }

  lemma {:induction false} WordUrlsSnoc(base: string, words: seq<string>, urljoin: (string, string) -> string)
    requires words != []
    ensures WordUrls(base, words, urljoin)
         == WordUrls(base, words[..|words| - 1], urljoin) + [urljoin(base, NormalizePath(words[|words| - 1]))]
  {
  }

  /**
   * One worker per word: a find occurs among the outcomes at most as many times as
   * words of the list are probed at its URL.
   */
  lemma {:induction false} FindsPerUrl(base: string, words: seq<string>, urljoin: (string, string) -> string,
                                       transport: string -> Option<int>, f: Find)
    ensures multiset(Outcomes(base, words, urljoin, transport))[f]
         <= multiset(WordUrls(base, words, urljoin))[f.url]
  {
    if words != [] {
      var init := words[..|words| - 1];
      FindsPerUrl(base, init, urljoin, transport, f);
      var last := WorkerFind(base, words[|words| - 1], urljoin, transport);
      var url := urljoin(base, NormalizePath(words[|words| - 1]));
      WorkersSnoc(base, words, urljoin, transport);
      SomesSnoc(Workers(base, init, urljoin, transport), last);
      var added := if last.Some? then [last.value] else [];
      assert multiset(Outcomes(base, words, urljoin, transport))
          == multiset(Outcomes(base, init, urljoin, transport)) + multiset(added);
      WordUrlsSnoc(base, words, urljoin);
      assert multiset(WordUrls(base, words, urljoin))
          == multiset(WordUrls(base, init, urljoin)) + multiset{url};
      if f in added {
        assert f.url == url;
      }
    }
  }

  /**
   * `worker(p)`: fetch `urljoin(base, p)` and report it when the status is present,
   * non-zero and below 400; a failed request reports nothing.
   */
  method Worker(base: string, p: string, urljoin: (string, string) -> string,
                transport: string -> Option<int>)
    returns (outcome: Option<Find>)
    ensures outcome.Some? <==> Reportable(transport(urljoin(base, p)))
    ensures outcome.Some? ==> outcome.value == Find(urljoin(base, p), transport(urljoin(base, p)).value)
  {
    var url := urljoin(base, p);
    var status := transport(url);
    outcome := None;
    if Reportable(status) {
      outcome := Some(Find(url, status.value));
    }
  }

  /** The worker that finishes `i`-th: its find, if any, is appended, then it pauses. */
  method BruteStep(base: string, paths: seq<string>, order: seq<int>, i: int,
                   urljoin: (string, string) -> string, transport: string -> Option<int>,
                   found: seq<Find>, pauses: nat)
    returns (found': seq<Find>, pauses': nat)
    requires InRange(order, |paths|) && 0 <= i < |order|
    requires found == Somes(Pick(Workers(base, paths, urljoin, transport), order[..i]))
    ensures InRange(order[..i + 1], |paths|)
    ensures found' == Somes(Pick(Workers(base, paths, urljoin, transport), order[..i + 1]))
    ensures pauses' == pauses + 1
  {
    var outcome := Worker(base, NormalizePath(paths[order[i]]), urljoin, transport);
    found' := found;
    if outcome.Some? {
      found' := found' + [outcome.value];
    }
    pauses' := pauses + 1;
    SomesPickSnoc(Workers(base, paths, urljoin, transport), order, i);
  }

  /**
   * `_brute`: one worker per word, finishing in the order `order`; each reportable
   * outcome is appended to `found` as its worker finishes, and each worker pauses once.
   * `found` is a permutation of the word-order outcomes, and equal to them when the
   * workers finish in word order.
   */
  method Brute(base: string, paths: seq<string>, order: seq<int>,
               urljoin: (string, string) -> string, transport: string -> Option<int>)
    returns (found: seq<Find>, pauses: nat)
    requires IsPermutationOf(order, |paths|)
    ensures multiset(found) == multiset(Outcomes(base, paths, urljoin, transport))
    ensures order == Indices(|paths|) ==> found == Outcomes(base, paths, urljoin, transport)
    ensures pauses == |paths|
  {
    PermutationInRange(order, |paths|);
    ghost var outcomes := Workers(base, paths, urljoin, transport);
    found, pauses := [], 0;
    var i := 0;
    while i < |order|
      invariant 0 <= i <= |order|
      invariant found == Somes(Pick(outcomes, order[..i]))
      invariant pauses == i
    {
      found, pauses := BruteStep(base, paths, order, i, urljoin, transport, found, pauses);
      i := i + 1;
    }
    assert order[..i] == order;
    SomesPickPermutes(outcomes, order);
  }

  /** What one base contributes to `results`: nothing when its run raised. */
  function BaseFinds(base: string, words: seq<string>, urljoin: (string, string) -> string,
                     transport: string -> Option<int>, raises: string -> bool): multiset<Find>
  {
    if raises(base) then multiset{} else multiset(Outcomes(base, words, urljoin, transport))
  }

  /**
   * `run`: an unreadable word list aborts (`None`); otherwise `results` is the https
   * finds followed by the http finds, each a permutation of that base's outcomes, and a
   * base whose run raised contributes nothing without stopping the other.
   */
  method Run(domain: string, wordlist: Option<seq<string>>,
             urljoin: (string, string) -> string, transport: string -> Option<int>,
             raises: string -> bool, httpsOrder: seq<int>, httpOrder: seq<int>)
    returns (results: Option<seq<Find>>, ghost split: nat)
    requires wordlist.Some? ==> IsPermutationOf(httpsOrder, |ParseWordlist(wordlist.value)|)
    requires wordlist.Some? ==> IsPermutationOf(httpOrder, |ParseWordlist(wordlist.value)|)
    ensures results.Some? <==> wordlist.Some?
    ensures results.Some? ==>
              var words := ParseWordlist(wordlist.value);
              && split <= |results.value|
              && multiset(results.value[..split])
                 == BaseFinds(Bases(domain)[0], words, urljoin, transport, raises)
              && multiset(results.value[split..])
                 == BaseFinds(Bases(domain)[1], words, urljoin, transport, raises)
  {
    split := 0;
    if wordlist.None? {
      return None, split;
    }
    var paths := ParseWordlist(wordlist.value);
    var bases := Bases(domain);
    ghost var first := BaseFinds(bases[0], paths, urljoin, transport, raises);
    ghost var second := BaseFinds(bases[1], paths, urljoin, transport, raises);
    var acc: seq<Find> := [];
    var i := 0;
    while i < |bases|
      invariant 0 <= i <= 2
      invariant i == 0 ==> acc == []
      invariant i == 1 ==> split == |acc| && multiset(acc) == first
      invariant i == 2 ==> split <= |acc| && multiset(acc[..split]) == first
      invariant i == 2 ==> multiset(acc[split..]) == second
    {
      var base := bases[i];
      var found: seq<Find> := [];
      if !raises(base) {
        var order := if i == 0 then httpsOrder else httpOrder;
        var pauses;
        found, pauses := Brute(base, paths, order, urljoin, transport);
      }
      assert multiset(found) == if i == 0 then first else second;
      var before := acc;
      acc := acc + found;
      if i == 0 {
        split := |acc|;
      } else {
        assert acc[..split] == before;
        assert acc[split..] == found;
      }
      i := i + 1;
    }
    results := Some(acc);
  }
}
