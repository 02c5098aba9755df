/**
 * Passive subdomain enumeration (modules/subdomains.py): names from the certificate
 * logs crt.sh and certspotter are collected into a set together with the domain itself,
 * and returned sorted. Each source's reply is an input `Source`: `Unreachable` when the
 * request raised, otherwise its status and its JSON elements, where `None` stands for an
 * element whose processing raises (and so ends that source's loop, keeping what it added
 * before).
 */
module Subdomains {
  import opened Wrappers
  import opened Text
  import opened Seqs

  datatype Source<T> = Unreachable | Answered(status: int, items: seq<Option<T>>)

  /** The elements of a source that are processed: those of a 200 reply, up to the first malformed one. */
  function Processed<T>(src: Source<T>): seq<T> {
    if src.Answered? && src.status == 200 then TakeWhileSome(src.items) else []
  }

  // ---------------------------------------------------------------------------
  // Names from each source

  /** The names contributed by the lines of one crt.sh `name_value`: stripped, non-blank, `*.` removed. */
  function LineNames(lines: seq<string>): set<string> {
    if lines == [] then {}
    else
      var line := Strip(lines[|lines| - 1]);
      LineNames(lines[..|lines| - 1]) + (if line != [] then {RemoveStarDot(line)} else {})
  }

  /** The names contributed by a sequence of crt.sh `name_value` strings. */
  function CrtUnion(values: seq<string>): set<string> {
    if values == [] then {}
    else CrtUnion(values[..|values| - 1]) + LineNames(SplitLines(values[|values| - 1]))
  }

  /** The names contributed by one certificate's `dns_names`: each with `*.` removed. */
  function DnsNames(names: seq<string>): set<string> {
    if names == [] then {}
    else DnsNames(names[..|names| - 1]) + {RemoveStarDot(names[|names| - 1])}
  }

  function SpotterUnion(certs: seq<seq<string>>): set<string> {
    if certs == [] then {}
    else SpotterUnion(certs[..|certs| - 1]) + DnsNames(certs[|certs| - 1])
  }

  /** Every name `run` collects: crt.sh names, certspotter names and the domain. */
  function Collected(domain: string, crt: Source<string>, spotter: Source<seq<string>>): set<string> {
    CrtUnion(Processed(crt)) + SpotterUnion(Processed(spotter)) + {domain}
  }

  /** `line` contributes the name `x`: its stripped form is non-blank and becomes `x` once `*.` is removed. */
  predicate Contributes(line: string, x: string) {
    Strip(line) != [] && x == RemoveStarDot(Strip(line))
  }

  /**
   * A line contributes a name exactly when its stripped form is non-blank, and the name
   * is that stripped form with every `*.` removed.
   */
  lemma {:induction false} LineNamesSpec(lines: seq<string>, x: string)
    ensures x in LineNames(lines) <==> exists k :: 0 <= k < |lines| && Contributes(lines[k], x)
  {
    if x in LineNames(lines) {
      LineNamesSound(lines, x);
    }
    if exists k :: 0 <= k < |lines| && Contributes(lines[k], x) {
      var k :| 0 <= k < |lines| && Contributes(lines[k], x);
      LineNamesComplete(lines, k, x);
    }
  }

  lemma {:induction false} LineNamesSound(lines: seq<string>, x: string)
    requires x in LineNames(lines)
    ensures exists k :: 0 <= k < |lines| && Contributes(lines[k], x)
  {
    var init := lines[..|lines| - 1];
    if x in LineNames(init) {
      LineNamesSound(init, x);
      var k :| 0 <= k < |init| && Contributes(init[k], x);
      assert lines[k] == init[k];
    } else {
      assert Contributes(lines[|lines| - 1], x);
    }
  }

  lemma {:induction false} LineNamesComplete(lines: seq<string>, k: int, x: string)
    requires 0 <= k < |lines| && Contributes(lines[k], x)
    ensures x in LineNames(lines)
  {
    var init := lines[..|lines| - 1];
    if k < |init| {
      assert init[k] == lines[k];
      LineNamesComplete(init, k, x);
    }
  }

  /** Blank lines contribute nothing: a `name_value` of blank lines adds no name. */
  lemma {:induction false} BlankLinesAddNothing(lines: seq<string>)
    requires forall k :: 0 <= k < |lines| ==> Strip(lines[k]) == []
    ensures LineNames(lines) == {}
  {
    if lines != [] {
      BlankLinesAddNothing(lines[..|lines| - 1]);
    }
  }

  /** Each certspotter name contributes itself with `*.` removed, and nothing else does. */
  lemma {:induction false} DnsNamesSpec(names: seq<string>, x: string)
    ensures x in DnsNames(names) <==> exists k :: 0 <= k < |names| && x == RemoveStarDot(names[k])
  {
    if names != [] {
      var init := names[..|names| - 1];
      DnsNamesSpec(init, x);
      if x in DnsNames(init) {
        var k :| 0 <= k < |init| && x == RemoveStarDot(init[k]);
        assert names[k] == init[k];
      }
      if exists k :: 0 <= k < |names| && x == RemoveStarDot(names[k]) {
        var k :| 0 <= k < |names| && x == RemoveStarDot(names[k]);
        if k < |init| {
          assert init[k] == names[k];
        }
      }
    }
  }

  /** A crt.sh line contributes a single-line name: line boundaries never reach the result. */
  lemma {:induction false} CrtNamesSingleLine(values: seq<string>, x: string)
    requires x in CrtUnion(values)
    ensures SingleLine(x)
  {
    var init := values[..|values| - 1];
    if x in CrtUnion(init) {
      CrtNamesSingleLine(init, x);
    } else {
      var lines := SplitLines(values[|values| - 1]);
      LineNamesSpec(lines, x);
      var k :| 0 <= k < |lines| && Contributes(lines[k], x);
      SplitLinesNoBreaks(values[|values| - 1]);
      assert lines[k] in lines;
      assert SingleLine(lines[k]);
      StripSpec(lines[k]);
      RemoveStarDotChars(Strip(lines[k]));
      forall i | 0 <= i < |x|
        ensures !IsLineBreak(x[i])
      {
        assert x[i] in Strip(lines[k]);
        var j :| 0 <= j < |Strip(lines[k])| && Strip(lines[k])[j] == x[i];
        assert Strip(lines[k])[j] == lines[k][StripStart(lines[k]) + j];
      }
    }
  }

  /** Every character of `RemoveStarDot(s)` is a character of `s`. */
  lemma {:induction false} RemoveStarDotChars(s: string)
    ensures forall c :: c in RemoveStarDot(s) ==> c in s
    decreases |s|
  {
    if "*." <= s {
      RemoveStarDotChars(s[2..]);
      assert forall c :: c in s[2..] ==> c in s;
    } else if s != [] {
      RemoveStarDotChars(s[1..]);
      assert RemoveStarDot(s) == [s[0]] + RemoveStarDot(s[1..]);
      assert forall c :: c in s[1..] ==> c in s;
    }
  }

  /**
   * `replace("*.", "")` is a single left-to-right pass, so a name may still contain `*.`
   * afterwards: "**.." becomes "*.".
   */
  lemma StarDotSurvives()
    ensures RemoveStarDot("**..") == "*."
  {
    var s := "**..";
    assert s[1] != "*."[1];
    assert s[1..] == "*..";
    assert "*.."[..2] == "*.";
    assert "*.."[2..] == ".";
    assert RemoveStarDot(".") == ".";
    assert RemoveStarDot(s) == [s[0]] + RemoveStarDot("*..");
  }

  // ---------------------------------------------------------------------------
  // Ordering: Python's comparison of str, code point by code point

  /** `a` sorts strictly before `b`: a proper prefix, or smaller at the first difference. */
  predicate Less(a: string, b: string) {
    b != [] && (a == [] || a[0] < b[0] || (a[0] == b[0] && Less(a[1..], b[1..])))
  }

  lemma {:induction false} LessIrreflexive(a: string)
    ensures !Less(a, a)
  {
    if a != [] {
      LessIrreflexive(a[1..]);
    }
  }

  lemma {:induction false} LessAsymmetric(a: string, b: string)
    requires Less(a, b)
    ensures !Less(b, a)
  {
    if a != [] && a[0] == b[0] && Less(a[1..], b[1..]) {
      LessAsymmetric(a[1..], b[1..]);
    }
  }

  lemma {:induction false} LessTransitive(a: string, b: string, c: string)
    requires Less(a, b) && Less(b, c)
    ensures Less(a, c)
  {
    if a != [] && a[0] == b[0] && b[0] == c[0] {
      LessTransitive(a[1..], b[1..], c[1..]);
    }
  }

  lemma {:induction false} LessTotal(a: string, b: string)
    requires a != b
    ensures Less(a, b) || Less(b, a)
  {
    if a != [] && b != [] && a[0] == b[0] {
      assert a == [a[0]] + a[1..] && b == [b[0]] + b[1..];
      LessTotal(a[1..], b[1..]);
    }
  }

  predicate StrictlySorted(s: seq<string>) {
    forall i, j :: 0 <= i < j < |s| ==> Less(s[i], s[j])
  }

  /** Insert `x` into a strictly sorted sequence, keeping it strictly sorted and duplicate-free. */
  function Insert(x: string, s: seq<string>): (r: seq<string>)
    requires StrictlySorted(s)
    ensures StrictlySorted(r)
    ensures forall y :: y in r <==> y == x || y in s
    ensures |r| == if x in s then |s| else |s| + 1
  {
    if s == [] then [x]
    else if x == s[0] then s
    else if Less(x, s[0]) then
      assert StrictlySorted([x] + s) by {
        forall i, j | 0 <= i < j < |[x] + s|
          ensures Less(([x] + s)[i], ([x] + s)[j])
        {
          if i == 0 && j > 1 {
            LessTransitive(x, s[0], s[j - 1]);
          }
        }
      }
      assert x !in s by {
        forall k | 0 <= k < |s| ensures s[k] != x {
          if k > 0 {
            LessAsymmetric(x, s[0]);
            assert Less(s[0], s[k]);
          }
        }
      }
      [x] + s
    else
      LessTotal(x, s[0]);
      var rest := Insert(x, s[1..]);
      assert StrictlySorted([s[0]] + rest) by {
        forall i, j | 0 <= i < j < |[s[0]] + rest|
          ensures Less(([s[0]] + rest)[i], ([s[0]] + rest)[j])
        {
          if i == 0 {
            assert rest[j - 1] in rest;
          }
        }
      }
      assert x in s[1..] <==> x in s;
      assert s == [s[0]] + s[1..];
      [s[0]] + rest
  }

  /** A strictly sorted sequence is determined by its elements. */
  lemma {:induction false} SortedUnique(a: seq<string>, b: seq<string>)
    requires StrictlySorted(a) && StrictlySorted(b)
    requires forall x :: x in a <==> x in b
    ensures a == b
  {
    if a != [] {
      assert a[0] in a;
    }
    if b != [] {
      assert b[0] in b;
    }
    if a != [] && b != [] {
      if a[0] != b[0] {
        var k :| 0 <= k < |b| && b[k] == a[0];
        var m :| 0 <= m < |a| && a[m] == b[0];
        LessAsymmetric(b[0], b[k]);
      }
      forall x ensures x in a[1..] <==> x in b[1..] {
        if x in a[1..] {
          var i :| 1 <= i < |a| && a[i] == x;
          LessIrreflexive(a[0]);
        }
        if x in b[1..] {
          var i :| 1 <= i < |b| && b[i] == x;
          LessIrreflexive(b[0]);
        }
        assert x in a <==> x == a[0] || x in a[1..];
        assert x in b <==> x == b[0] || x in b[1..];
      }
      SortedUnique(a[1..], b[1..]);
      assert a == [a[0]] + a[1..] && b == [b[0]] + b[1..];
    }
  }

  /** `sorted(found)`: the names of `found`, each once, in ascending order. */
  method Sorted(found: set<string>) returns (names: seq<string>)
    ensures StrictlySorted(names)
    ensures forall x :: x in names <==> x in found
    ensures |names| == |found|
  {
    names := [];
    var remaining := found;
    while remaining != {}
      invariant remaining <= found
      invariant StrictlySorted(names)
      invariant forall x :: x in names <==> x in found - remaining
      invariant |names| == |found - remaining|
      decreases remaining
    {
      var x :| x in remaining;
      names := Insert(x, names);
      assert found - (remaining - {x}) == (found - remaining) + {x};
      remaining := remaining - {x};
    }
  }

  // ---------------------------------------------------------------------------
  // run

  /** The inner loop over the lines of one crt.sh `name_value`. */
  method AddLineNames(found: set<string>, nameValue: string) returns (found': set<string>)
    ensures found' == found + LineNames(SplitLines(nameValue))
  {
    var lines := SplitLines(nameValue);
    found' := found;
    var j := 0;
    while j < |lines|
      invariant 0 <= j <= |lines|
      invariant found' == found + LineNames(lines[..j])
    {
      var line := Strip(lines[j]);
      if line != [] {
        found' := found' + {RemoveStarDot(line)};
      }
      assert lines[..j + 1][..j] == lines[..j];
      j := j + 1;
    }
    assert lines[..j] == lines;
  }

  /** The inner loop over one certificate's `dns_names`. */
  method AddDnsNames(found: set<string>, dnsNames: seq<string>) returns (found': set<string>)
    ensures found' == found + DnsNames(dnsNames)
  {
    found' := found;
    var j := 0;
    while j < |dnsNames|
      invariant 0 <= j <= |dnsNames|
      invariant found' == found + DnsNames(dnsNames[..j])
    {
      found' := found' + {RemoveStarDot(dnsNames[j])};
      assert dnsNames[..j + 1][..j] == dnsNames[..j];
      j := j + 1;
    }
    assert dnsNames[..j] == dnsNames;
  }

  lemma {:induction false} CrtUnionStep(values: seq<string>, i: int)
    requires 0 <= i < |values|
    ensures CrtUnion(values[..i + 1]) == CrtUnion(values[..i]) + LineNames(SplitLines(values[i]))
  {
    assert values[..i + 1][..i] == values[..i];
  }

  lemma {:induction false} SpotterUnionStep(certs: seq<seq<string>>, i: int)
    requires 0 <= i < |certs|
    ensures SpotterUnion(certs[..i + 1]) == SpotterUnion(certs[..i]) + DnsNames(certs[i])
  {
    assert certs[..i + 1][..i] == certs[..i];
  }

  /** The crt.sh block of `run`: every line name of every processed element is added. */
  method AddCrtNames(found: set<string>, crt: Source<string>) returns (found': set<string>)
    ensures found' == found + CrtUnion(Processed(crt))
  {
    found' := found;
    if crt.Answered? && crt.status == 200 {
      found' := AddCrtItems(found, crt.items);
    }
  }

  /** The loop over the elements of a crt.sh reply, which raises at the first malformed one. */
  method AddCrtItems(found: set<string>, items: seq<Option<string>>) returns (found': set<string>)
    ensures found' == found + CrtUnion(TakeWhileSome(items))
  {
    found' := found;
    ghost var taken := TakeWhileSome(items);
    var i := 0;
    while i < |items| && items[i].Some?
      invariant 0 <= i <= |taken|
      invariant found' == found + CrtUnion(taken[..i])
    {
      assert items[i] == Some(taken[i]);
      found' := AddLineNames(found', items[i].value);
      CrtUnionStep(taken, i);
      i := i + 1;
    }
    TakeWhileSomeStop(items, i);
    assert taken[..i] == taken;
  }

  /** The certspotter block of `run`: every name of every processed certificate is added. */
  method AddSpotterNames(found: set<string>, spotter: Source<seq<string>>) returns (found': set<string>)
    ensures found' == found + SpotterUnion(Processed(spotter))
  {
    found' := found;
    if spotter.Answered? && spotter.status == 200 {
      found' := AddSpotterCerts(found, spotter.items);
    }
  }

  /** The loop over the certificates of a certspotter reply, which raises at the first malformed one. */
  method AddSpotterCerts(found: set<string>, certs: seq<Option<seq<string>>>) returns (found': set<string>)
    ensures found' == found + SpotterUnion(TakeWhileSome(certs))
  {
    found' := found;
    ghost var taken := TakeWhileSome(certs);
    var i := 0;
    while i < |certs| && certs[i].Some?
      invariant 0 <= i <= |taken|
      invariant found' == found + SpotterUnion(taken[..i])
    {
      assert certs[i] == Some(taken[i]);
      found' := AddDnsNames(found', certs[i].value);
      SpotterUnionStep(taken, i);
      i := i + 1;
    }
    TakeWhileSomeStop(certs, i);
    assert taken[..i] == taken;
  }

  /**
   * `run`: add every crt.sh name, then every certspotter name, then the domain, and
   * return the collected names sorted. The result is strictly ascending, contains the
   * domain, and holds exactly the collected names, whatever either source did.
   */
  method Run(domain: string, crt: Source<string>, spotter: Source<seq<string>>)
    returns (names: seq<string>)
    ensures StrictlySorted(names)
    ensures domain in names
    ensures forall x :: x in names <==> x in Collected(domain, crt, spotter)
  {
    var found: set<string> := {};
    found := AddCrtNames(found, crt);
    found := AddSpotterNames(found, spotter);
    found := found + {domain};
    names := Sorted(found);
  }

  /**
   * The output depends only on the set of collected names: any two strictly sorted
   * sequences holding exactly the collected names are equal, whatever order the names
   * arrived in.
   */
  lemma {:induction false} OrderIndependent(domain: string, crt: Source<string>, spotter: Source<seq<string>>,
                         a: seq<string>, b: seq<string>)
    requires StrictlySorted(a) && StrictlySorted(b)
    requires forall x :: x in a <==> x in Collected(domain, crt, spotter)
    requires forall x :: x in b <==> x in Collected(domain, crt, spotter)
    ensures a == b
  {
    SortedUnique(a, b);
  }

  /** A source that failed contributes nothing; the other source and the domain still do. */
  lemma {:induction false} FailedSourceIsolated(domain: string, crt: Source<string>, spotter: Source<seq<string>>)
    ensures !(crt.Answered? && crt.status == 200) ==>
              Collected(domain, crt, spotter) == SpotterUnion(Processed(spotter)) + {domain}
    ensures !(spotter.Answered? && spotter.status == 200) ==>
              Collected(domain, crt, spotter) == CrtUnion(Processed(crt)) + {domain}
  {
  }
}
