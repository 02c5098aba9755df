/**
 * The Python `str` operations the scanner modules rely on: `strip`, `lstrip("/")`,
 * `lower`, `startswith`, the substring test `p in s`, `splitlines` and
 * `replace("*.", "")`. Strings are sequences of Unicode scalar values, as in Python 3.
 */
module Text {
  import opened Wrappers

  /** Python's `str.isspace()` characters, which `str.strip()` removes. */
  predicate IsSpace(c: char) {
    || c == ' '
    || '\t' <= c <= '\r'
    || '\U{1c}' <= c <= '\U{1f}'
    || c == '\U{85}' || c == '\U{a0}' || c == '\U{1680}'
    || '\U{2000}' <= c <= '\U{200a}'
    || c == '\U{2028}' || c == '\U{2029}' || c == '\U{202f}' || c == '\U{205f}' || c == '\U{3000}'
  }

  /** The characters at which `str.splitlines()` ends a line. */
  predicate IsLineBreak(c: char) {
    || '\n' <= c <= '\r'
    || '\U{1c}' <= c <= '\U{1e}'
    || c == '\U{85}' || c == '\U{2028}' || c == '\U{2029}'
  }

  function TrimLeft(s: string): (r: string)
    ensures |r| <= |s|
  {
    if s != [] && IsSpace(s[0]) then TrimLeft(s[1..]) else s
  }

  function TrimRight(s: string): (r: string)
    ensures |r| <= |s|
  {
    if s != [] && IsSpace(s[|s| - 1]) then TrimRight(s[..|s| - 1]) else s
  }

  /** `s.strip()` */
  function Strip(s: string): string {
    TrimRight(TrimLeft(s))
  }

  /** `s.lstrip(c)` for a single character `c`. */
  function LStripChar(s: string, c: char): (r: string)
    ensures |r| <= |s|
  {
    if s != [] && s[0] == c then LStripChar(s[1..], c) else s
  }

  /** True when `s` neither begins nor ends with whitespace. */
  predicate IsStripped(s: string) {
    s != [] ==> !IsSpace(s[0]) && !IsSpace(s[|s| - 1])
  }

  /** `s.lower()` on the ASCII letters. */
  function LowerChar(c: char): char {
    if 'A' <= c <= 'Z' then (c as int + 32) as char else c
  }

  function Lower(s: string): (r: string)
    ensures |r| == |s|
  {
    seq(|s|, i requires 0 <= i < |s| => LowerChar(s[i]))
  }

  /** `s.startswith(p)` */
  predicate StartsWith(s: string, p: string) {
    p <= s
  }

  /** Python's substring test `p in s`. The empty string occurs in every string. */
  predicate Contains(s: string, p: string)
    decreases |s|
  {
    p <= s || (s != [] && Contains(s[1..], p))
  }

  /** Index just past the first line of `s`: the first line break, or `|s|`. */
  function LineEnd(s: string): (k: nat)
    ensures k <= |s|
    ensures k < |s| ==> IsLineBreak(s[k])
    ensures forall i :: 0 <= i < k ==> !IsLineBreak(s[i])
  {
    if s == [] || IsLineBreak(s[0]) then 0 else 1 + LineEnd(s[1..])
  }

  /** The length of the line break at `k`: two for "\r\n", one for any other. */
  function BreakWidth(s: string, k: nat): (w: nat)
    requires k < |s|
    ensures 1 <= w && k + w <= |s|
  {
    if s[k] == '\r' && k + 1 < |s| && s[k + 1] == '\n' then 2 else 1
  }

  /** `s.splitlines()`: "\r\n" ends one line; no empty line follows a final break. */
  function SplitLines(s: string): seq<string>
    decreases |s|
  {
    if s == [] then []
    else
      var k := LineEnd(s);
      if k == |s| then [s]
      else [s[..k]] + SplitLines(s[k + BreakWidth(s, k)..])
  }

  /** `s.replace("*.", "")`: removes the non-overlapping occurrences found left to right. */
  function RemoveStarDot(s: string): (r: string)
    ensures |r| <= |s|
  {
    if "*." <= s then RemoveStarDot(s[2..])
    else if s == [] then []
    else [s[0]] + RemoveStarDot(s[1..])
  }

  /**
   * `headers.get(name)` on a case-insensitive header dictionary, whose keys the model
   * stores lower-cased.
   */
  function HeaderValue(headers: map<string, string>, name: string): Option<string> {
    if Lower(name) in headers then Some(headers[Lower(name)]) else None
  }

  // ---------------------------------------------------------------------------
  // Properties

  lemma {:induction false} TrimLeftSpec(s: string)
    ensures TrimLeft(s) == s[|s| - |TrimLeft(s)|..]
    ensures TrimLeft(s) != [] ==> !IsSpace(TrimLeft(s)[0])
    ensures forall i :: 0 <= i < |s| - |TrimLeft(s)| ==> IsSpace(s[i])
  {
    if s != [] && IsSpace(s[0]) {
      TrimLeftSpec(s[1..]);
    }
  }

  lemma {:induction false} TrimRightSpec(s: string)
    ensures TrimRight(s) == s[..|TrimRight(s)|]
    ensures TrimRight(s) != [] ==> !IsSpace(TrimRight(s)[|TrimRight(s)| - 1])
    ensures forall i :: |TrimRight(s)| <= i < |s| ==> IsSpace(s[i])
  {
    if s != [] && IsSpace(s[|s| - 1]) {
      TrimRightSpec(s[..|s| - 1]);
    }
  }

  lemma {:induction false} TrimRightKeepsFirst(s: string)
    requires s != [] && !IsSpace(s[0])
    ensures TrimRight(s) != [] && TrimRight(s)[0] == s[0]
  {
    if IsSpace(s[|s| - 1]) {
      TrimRightKeepsFirst(s[..|s| - 1]);
    }
  }

  /** Where `strip()` starts cutting: the length of the leading whitespace of `s`. */
  function StripStart(s: string): nat {
    |s| - |TrimLeft(s)|
  }

  /**
   * `strip()` cuts a whitespace-only prefix and suffix off `s` and leaves a string that
   * neither begins nor ends with whitespace.
   */
  lemma {:induction false} StripSpec(s: string)
    ensures IsStripped(Strip(s))
    ensures StripStart(s) + |Strip(s)| <= |s|
    ensures Strip(s) == s[StripStart(s)..StripStart(s) + |Strip(s)|]
    ensures forall k :: 0 <= k < StripStart(s) ==> IsSpace(s[k])
    ensures forall k :: StripStart(s) + |Strip(s)| <= k < |s| ==> IsSpace(s[k])
  {
    var t := TrimLeft(s);
    TrimLeftSpec(s);
    TrimRightSpec(t);
    if TrimRight(t) != [] {
      TrimRightKeepsFirst(t);
    }
  }

  lemma {:induction false} TrimLeftOfStripped(s: string)
    requires s == [] || !IsSpace(s[0])
    ensures TrimLeft(s) == s
  {
  }

  lemma {:induction false} TrimRightOfStripped(s: string)
    requires s == [] || !IsSpace(s[|s| - 1])
    ensures TrimRight(s) == s
  {
  }

  /** `strip()` is the identity exactly on strings with no whitespace at either end. */
  lemma {:induction false} StripIdentity(s: string)
    ensures Strip(s) == s <==> IsStripped(s)
  {
    StripSpec(s);
    if IsStripped(s) {
      TrimLeftOfStripped(s);
      TrimRightOfStripped(s);
    }
  }

  lemma {:induction false} StripIdempotent(s: string)
    ensures Strip(Strip(s)) == Strip(s)
  {
    StripSpec(s);
    StripIdentity(Strip(s));
  }

  /** `strip()` yields the empty string exactly for all-whitespace input. */
  lemma {:induction false} StripEmpty(s: string)
    ensures Strip(s) == [] <==> forall k :: 0 <= k < |s| ==> IsSpace(s[k])
  {
    StripSpec(s);
    TrimLeftSpec(s);
    if forall k :: 0 <= k < |s| ==> IsSpace(s[k]) {
      AllSpaceTrimLeft(s);
    }
  }

  lemma {:induction false} AllSpaceTrimLeft(s: string)
    requires forall k :: 0 <= k < |s| ==> IsSpace(s[k])
    ensures TrimLeft(s) == []
  {
    if s != [] {
      AllSpaceTrimLeft(s[1..]);
    }
  }

  /** `lstrip(c)` removes every leading `c` and only those. */
  lemma {:induction false} LStripCharSpec(s: string, c: char)
    ensures LStripChar(s, c) == s[|s| - |LStripChar(s, c)|..]
    ensures LStripChar(s, c) != [] ==> LStripChar(s, c)[0] != c
    ensures forall k :: 0 <= k < |s| - |LStripChar(s, c)| ==> s[k] == c
  {
    if s != [] && s[0] == c {
      LStripCharSpec(s[1..], c);
    }
  }

  /** `l` holds no line break. */
  predicate SingleLine(l: string) {
    forall i :: 0 <= i < |l| ==> !IsLineBreak(l[i])
  }

  /** The lines of `splitlines()` hold no line break. */
  lemma {:induction false} SplitLinesNoBreaks(s: string)
    ensures forall l :: l in SplitLines(s) ==> SingleLine(l)
    decreases |s|
  {
    if s != [] {
      var k := LineEnd(s);
      assert SingleLine(s[..k]);
      if k < |s| {
        SplitLinesNoBreaks(s[k + BreakWidth(s, k)..]);
      } else {
        assert s[..k] == s;
      }
    }
  }

  /** The lines of `ls` written one after the other. */
  function Concat(ls: seq<string>): string {
    if ls == [] then [] else ls[0] + Concat(ls[1..])
  }

  /** `s` without its line break characters. */
  function DropBreaks(s: string): (r: string)
    ensures |r| <= |s|
  {
    if s == [] then [] else (if IsLineBreak(s[0]) then [] else [s[0]]) + DropBreaks(s[1..])
  }

  lemma {:induction false} DropBreaksAppend(a: string, b: string)
    ensures DropBreaks(a + b) == DropBreaks(a) + DropBreaks(b)
  {
    if a == [] {
      assert a + b == b;
    } else {
      assert (a + b)[0] == a[0];
      assert (a + b)[1..] == a[1..] + b;
      DropBreaksAppend(a[1..], b);
    }
  }

  lemma {:induction false} DropBreaksOfLine(a: string)
    requires SingleLine(a)
    ensures DropBreaks(a) == a
  {
    if a != [] {
      DropBreaksOfLine(a[1..]);
    }
  }

  lemma {:induction false} BreakDropped(s: string, k: nat)
    requires k < |s| && IsLineBreak(s[k])
    ensures DropBreaks(s[k..k + BreakWidth(s, k)]) == []
  {
    var b := s[k..k + BreakWidth(s, k)];
    assert b[0] == s[k];
    if |b| == 2 {
      assert b[1..] == [s[k + 1]];
      assert DropBreaks(b[1..]) == DropBreaks([s[k + 1]]);
    } else {
      assert b[1..] == [];
    }
  }

  lemma {:induction false} ConcatCons(x: string, ls: seq<string>)
    ensures Concat([x] + ls) == x + Concat(ls)
  {
    assert ([x] + ls)[1..] == ls;
  }

  lemma {:induction false} LineStep(line: string, brk: string, rest: string)
    requires SingleLine(line) && DropBreaks(brk) == []
    ensures DropBreaks(line + (brk + rest)) == line + DropBreaks(rest)
  {
    DropBreaksAppend(line, brk + rest);
    DropBreaksAppend(brk, rest);
    DropBreaksOfLine(line);
  }

  lemma SliceThree<T>(s: seq<T>, i: int, j: int)
    requires 0 <= i <= j <= |s|
    ensures s == s[..i] + (s[i..j] + s[j..])
  {
  }

  /**
   * `splitlines()` loses only line breaks: the lines written one after the other are
   * the characters of `s` that are not line breaks, in their original order.
   */
  lemma {:induction false} SplitLinesKeepsText(s: string)
    ensures Concat(SplitLines(s)) == DropBreaks(s)
    decreases |s|
  {
    if s != [] {
      var k := LineEnd(s);
      if k < |s| {
        var w := BreakWidth(s, k);
        var rest := s[k + w..];
        SplitLinesKeepsText(rest);
        SliceThree(s, k, k + w);
        assert SingleLine(s[..k]);
        BreakDropped(s, k);
        calc {
          Concat(SplitLines(s));
          Concat([s[..k]] + SplitLines(rest));
          { ConcatCons(s[..k], SplitLines(rest)); }
          s[..k] + Concat(SplitLines(rest));
          s[..k] + DropBreaks(rest);
          { LineStep(s[..k], s[k..k + w], rest); }
          DropBreaks(s[..k] + (s[k..k + w] + rest));
          DropBreaks(s);
        }
      } else {
        assert SingleLine(s);
        DropBreaksOfLine(s);
        ConcatCons(s, []);
      }
    }
  }

  lemma {:induction false} ContainsShift(s: string, p: string)
    requires s != [] && Contains(s[1..], p)
    ensures Contains(s, p)
  {
  }

  /** `replace("*.", "")` shortens every string that contains "*." by at least two. */
  lemma {:induction false} RemoveStarDotShrinks(s: string)
    requires Contains(s, "*.")
    ensures |RemoveStarDot(s)| + 2 <= |s|
    decreases |s|
  {
    if "*." <= s {
    } else {
      RemoveStarDotShrinks(s[1..]);
    }
  }

  lemma {:induction false} RemoveStarDotKeeps(s: string)
    requires !Contains(s, "*.")
    ensures RemoveStarDot(s) == s
    decreases |s|
  {
    if s != [] {
      RemoveStarDotKeeps(s[1..]);
    }
  }

  /** `replace("*.", "")` leaves a name unchanged exactly when "*." does not occur in it. */
  lemma {:induction false} RemoveStarDotIdentity(s: string)
    ensures RemoveStarDot(s) == s <==> !Contains(s, "*.")
  {
    if Contains(s, "*.") {
      RemoveStarDotShrinks(s);
    } else {
      RemoveStarDotKeeps(s);
    }
  }
}
