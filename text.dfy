/** String helpers with the semantics of the Python and JavaScript builtins the
    source calls: `lower()`, `in`, `count`, `split()`, `strip()`, `str(int)`. */
module Text {
  import opened Wrappers

  /** An optional string parameter that is truthy in Python and in
      JavaScript: present and not empty. */
  predicate Present(param: Option<string>)
  {
    param.Some? && param.value != ""
  }

  /** Case mapping of `str.lower()` / `toLowerCase()` restricted to ASCII letters;
      the Hangul text of the keyword tables and stores has no case. */
  function LowerChar(c: char): char
  {
    if 'A' <= c <= 'Z' then (c as int + 32) as char else c
  }

  function Lower(s: string): (r: string)
    ensures |r| == |s|
  {
    seq(|s|, i requires 0 <= i < |s| => LowerChar(s[i]))
  }

  /** Text with no character up to 'Z' (Hangul, say) is its own lowercase. */
  lemma LowerAboveAscii(s: string)
    requires forall i :: 0 <= i < |s| ==> s[i] > 'Z'
    ensures Lower(s) == s
  {
  }

  /** Text with no ASCII capital is its own lowercase. */
  lemma LowerNoCapitals(s: string)
    requires forall i :: 0 <= i < |s| ==> !('A' <= s[i] <= 'Z')
    ensures Lower(s) == s
  {
  }

  /** ASCII whitespace as Python's `str.split()`/`strip()` and JavaScript's `\s` see it. */
  predicate IsSpace(c: char)
  {
    c == ' ' || c == '\t' || c == '\n' || c == '\r' || c == '\U{B}' || c == '\U{C}'
  }

  predicate StartsWith(s: string, p: string)
  {
    |p| <= |s| && s[..|p|] == p
  }

  /** Python `sub in s` / JavaScript `s.includes(sub)`. */
  predicate Contains(s: string, sub: string)
    decreases |s|
  {
    StartsWith(s, sub) || (s != [] && Contains(s[1..], sub))
  }

  /** Python `s.count(sub)`: non-overlapping occurrences scanned from the left;
      the empty pattern occurs |s| + 1 times. */
  function CountOcc(s: string, sub: string): nat
    decreases |s|
  {
    if sub == [] then |s| + 1
    else if |s| < |sub| then 0
    else if s[..|sub|] == sub then 1 + CountOcc(s[|sub|..], sub)
    else CountOcc(s[1..], sub)
  }

  /** `not text or not text.strip()`: empty or whitespace only. */
  predicate IsBlank(s: string)
  {
    forall i :: 0 <= i < |s| ==> IsSpace(s[i])
  }

  function SkipSpaces(s: string): (r: string)
    ensures |r| <= |s| && r == s[|s| - |r|..]
    ensures r != [] ==> !IsSpace(r[0])
  {
    if s != [] && IsSpace(s[0]) then SkipSpaces(s[1..]) else s
  }

  function WordPrefix(s: string): (w: string)
    ensures |w| <= |s| && w == s[..|w|]
    ensures forall i :: 0 <= i < |w| ==> !IsSpace(w[i])
    ensures s != [] && !IsSpace(s[0]) ==> w != []
  {
    if s == [] || IsSpace(s[0]) then [] else [s[0]] + WordPrefix(s[1..])
  }

  /** Python `s.split()` with no separator: the maximal runs of non-space characters. */
  function Words(s: string): seq<string>
    decreases |s|
  {
    var t := SkipSpaces(s);
    if t == [] then []
    else
      var w := WordPrefix(t);
      [w] + Words(t[|w|..])
  }

  /** A non-empty run of non-space characters. */
  predicate SpaceFreeWord(w: string)
  {
    w != [] && forall i :: 0 <= i < |w| ==> !IsSpace(w[i])
  }

  /** Every word is non-empty and holds no whitespace. */
  lemma {:induction false} WordsSpec(s: string)
    ensures forall k :: 0 <= k < |Words(s)| ==> SpaceFreeWord(Words(s)[k])
    decreases |s|
  {
    var t := SkipSpaces(s);
    if t != [] {
      var w := WordPrefix(t);
      assert SpaceFreeWord(w);
      WordsSpec(t[|w|..]);
      var rest := Words(t[|w|..]);
      assert Words(s) == [w] + rest;
      forall k | 0 <= k < |Words(s)| ensures SpaceFreeWord(Words(s)[k]) {
        if k > 0 {
          assert Words(s)[k] == rest[k - 1];
        }
      }
    }
  }

  function DigitChar(d: nat): char
    requires d < 10
  {
    "0123456789"[d]
  }

  /** `str(n)` for a natural number: decimal digits, most significant first. */
  function NatToString(n: nat): (r: string)
    ensures r != []
  {
    if n < 10 then [DigitChar(n)] else NatToString(n / 10) + [DigitChar(n % 10)]
  }

  function IntToString(i: int): string
  {
    if i < 0 then "-" + NatToString(-i) else NatToString(i)
  }

  /** `sep.join(parts)`. */
  function Join(sep: string, parts: seq<string>): string
  {
    if parts == [] then ""
    else if |parts| == 1 then parts[0]
    else parts[0] + sep + Join(sep, parts[1..])
  }

  /** Joining one more part adds the separator and the part at the end. */
  lemma {:induction false} JoinSnoc(sep: string, parts: seq<string>, x: string)
    ensures Join(sep, parts + [x]) == if parts == [] then x else Join(sep, parts) + sep + x
  {
    if |parts| == 1 {
      assert parts + [x] == [parts[0], x];
    } else if |parts| > 1 {
      assert (parts + [x])[1..] == parts[1..] + [x];
      JoinSnoc(sep, parts[1..], x);
    }
  }

  /** Every part occurs in the joined text. */
  lemma {:induction false} JoinContainsPart(sep: string, parts: seq<string>, i: nat)
    requires i < |parts|
    ensures Contains(Join(sep, parts), parts[i])
  {
    if |parts| == 1 {
      ContainsAt(parts[0], parts[0], 0);
    } else if i == 0 {
      ContainsAt(Join(sep, parts), parts[0], 0);
    } else {
      JoinContainsPart(sep, parts[1..], i - 1);
      ContainsSuffix(parts[0] + sep, Join(sep, parts[1..]), parts[i]);
    }
  }

  /** `s[:n]` for n >= 0. */
  function Prefix(s: string, n: nat): (r: string)
    ensures |r| == if n <= |s| then n else |s|
  {
    if n <= |s| then s[..n] else s
  }

  /** Python's ordering on `str`: lexicographic by code point, a proper prefix first. */
  predicate StrLt(a: string, b: string)
  {
    if a == [] then b != []
    else if b == [] then false
    else if a[0] != b[0] then a[0] < b[0]
    else StrLt(a[1..], b[1..])
  }

  lemma {:induction false} StrLtIrreflexive(a: string)
    ensures !StrLt(a, a)
  {
    if a != [] { StrLtIrreflexive(a[1..]); }
  }

  lemma {:induction false} StrLtTransitive(a: string, b: string, c: string)
    requires StrLt(a, b) && StrLt(b, c)
    ensures StrLt(a, c)
  {
    if a != [] && b != [] && c != [] && a[0] == b[0] && b[0] == c[0] {
      StrLtTransitive(a[1..], b[1..], c[1..]);
    }
  }

  lemma {:induction false} StrLtTotal(a: string, b: string)
    requires a != b
    ensures StrLt(a, b) || StrLt(b, a)
  {
    if a != [] && b != [] && a[0] == b[0] {
      assert a == [a[0]] + a[1..] && b == [b[0]] + b[1..];
      StrLtTotal(a[1..], b[1..]);
    }
  }

  lemma StrLtAsymmetric(a: string, b: string)
    requires StrLt(a, b)
    ensures !StrLt(b, a)
  {
    if StrLt(b, a) {
      StrLtTransitive(a, b, a);
      StrLtIrreflexive(a);
    }
  }

  /** A keyword without spaces occurs in `a + " " + b` exactly when it occurs in
      `a` or in `b`: joining two fields with a space creates no new match. */
  lemma {:induction false} ContainsJoinedBySpace(a: string, b: string, k: string)
    requires k != [] && forall i :: 0 <= i < |k| ==> !IsSpace(k[i])
    ensures Contains(a + " " + b, k) <==> Contains(a, k) || Contains(b, k)
    decreases |a|
  {
    var s := a + " " + b;
    if a == [] {
      assert s == " " + b;
      assert s[0] == ' ' && k[0] != ' ';
      assert s[1..] == b;
      NotContainsEmpty(k);
    } else {
      assert s[1..] == a[1..] + " " + b;
      ContainsJoinedBySpace(a[1..], b, k);
      if |k| <= |a| {
        assert s[..|k|] == a[..|k|];
      } else if |k| <= |s| {
        // a match longer than `a` would have to cover the separating space
        assert s[|a|] == ' ' && k[|a|] != ' ';
      }
    }
  }

  lemma NotContainsEmpty(k: string)
    requires k != []
    ensures !Contains([], k)
  {
  }

  /** A pattern occurs only in a text at least as long as itself. */
  lemma {:induction false} ContainsLength(s: string, sub: string)
    requires Contains(s, sub)
    ensures |sub| <= |s|
    decreases |s|
  {
    if !StartsWith(s, sub) {
      ContainsLength(s[1..], sub);
    }
  }

  /** `s.count(sub)` is positive exactly when `sub in s`, the empty pattern included. */
  lemma {:induction false} CountOccPositiveIffContains(s: string, sub: string)
    ensures CountOcc(s, sub) > 0 <==> Contains(s, sub)
    decreases |s|
  {
    if sub != [] {
      if |s| < |sub| {
        if Contains(s, sub) {
          ContainsLength(s, sub);
        }
      } else if s[..|sub|] != sub {
        CountOccPositiveIffContains(s[1..], sub);
      }
    }
  }

  /** A pattern one of whose characters is missing from `s` does not occur in it. */
  lemma NotContainsWithoutChar(s: string, k: string, j: nat)
    requires j < |k| && k[j] !in s
    ensures !Contains(s, k)
    decreases |s|
  {
    if s != [] {
      NotContainsWithoutChar(s[1..], k, j);
    }
  }

  /** A pattern found at position `i` occurs. */
  lemma ContainsAt(s: string, k: string, i: nat)
    requires i + |k| <= |s| && s[i..i + |k|] == k
    ensures Contains(s, k)
    decreases i
  {
    if i > 0 {
      assert s[1..][i - 1..i - 1 + |k|] == k;
      ContainsAt(s[1..], k, i - 1);
    }
  }

  /** What occurs in `b` occurs in `a + b`. */
  lemma {:induction false} ContainsSuffix(a: string, b: string, k: string)
    requires Contains(b, k)
    ensures Contains(a + b, k)
    decreases |a|
  {
    if a == [] {
      assert a + b == b;
    } else {
      assert (a + b)[1..] == a[1..] + b;
      ContainsSuffix(a[1..], b, k);
    }
  }

  /** What occurs in `a` occurs in `a + b`. */
  lemma {:induction false} ContainsPrefix(a: string, b: string, k: string)
    requires Contains(a, k)
    ensures Contains(a + b, k)
    decreases |a|
  {
    if StartsWith(a, k) {
      assert (a + b)[..|k|] == a[..|k|];
    } else {
      assert (a + b)[1..] == a[1..] + b;
      ContainsPrefix(a[1..], b, k);
    }
  }

  /** `f(1, s[0]) + f(2, s[1]) + ... + f(n, s[n - 1])`: the text a loop over
      `enumerate(s, 1)` builds by appending one numbered block per item. */
  function Numbered<T>(f: (nat, T) -> string, s: seq<T>, n: nat): string
    requires n <= |s|
  {
    if n == 0 then "" else Numbered(f, s, n - 1) + f(n, s[n - 1])
  }

  /** The first `n` blocks depend only on the first `n` items. */
  lemma {:induction false} NumberedPrefix<T>(f: (nat, T) -> string, s: seq<T>, more: seq<T>, n: nat)
    requires n <= |s|
    ensures Numbered(f, s + more, n) == Numbered(f, s, n)
  {
    if n > 0 {
      NumberedPrefix(f, s, more, n - 1);
      assert (s + more)[n - 1] == s[n - 1];
    }
  }

  /** One more item appends one more block, numbered one past the others. */
  lemma NumberedAppend<T>(f: (nat, T) -> string, s: seq<T>, x: T)
    ensures Numbered(f, s + [x], |s| + 1) == Numbered(f, s, |s|) + f(|s| + 1, x)
  {
    NumberedPrefix(f, s, [x], |s|);
    assert (s + [x])[|s|] == x;
  }

  /** A text of at least one block starts with the block numbered 1. */
  lemma {:induction false} NumberedStartsWithFirst<T>(f: (nat, T) -> string, s: seq<T>, n: nat)
    requires 1 <= n <= |s|
    ensures StartsWith(Numbered(f, s, n), f(1, s[0]))
  {
    if n > 1 {
      NumberedStartsWithFirst(f, s, n - 1);
      var b := f(1, s[0]);
      assert Numbered(f, s, n)[..|b|] == Numbered(f, s, n - 1)[..|b|];
    }
  }

  /** Item lists related pointwise by `same` give the same text when `f`
      cannot tell related items apart. */
  lemma {:induction false} NumberedRespects<T>(f: (nat, T) -> string, same: (T, T) -> bool,
                                               xs: seq<T>, ys: seq<T>, n: nat)
    requires n <= |xs| && n <= |ys|
    requires forall i :: 0 <= i < n ==> same(xs[i], ys[i])
    requires forall k: nat, x: T, y: T :: same(x, y) ==> f(k, x) == f(k, y)
    ensures Numbered(f, xs, n) == Numbered(f, ys, n)
  {
    if n > 0 {
      NumberedRespects(f, same, xs, ys, n - 1);
      assert same(xs[n - 1], ys[n - 1]);
    }
  }

  lemma StartsWithTransitive(a: string, b: string, c: string)
    requires StartsWith(a, b) && StartsWith(b, c)
    ensures StartsWith(a, c)
  {
    assert a[..|c|] == b[..|c|];
  }

  /** A text built around `x` contains `x`. */
  lemma ContainsMiddle(pre: string, x: string, suf: string)
    ensures Contains(pre + x + suf, x)
  {
    var s := pre + x + suf;
    assert s[|pre|..|pre| + |x|] == x;
    ContainsAt(s, x, |pre|);
  }

  /** Two texts with the same frame are equal only when what they frame is. */
  lemma SandwichInjective(pre: string, suf: string, a: string, b: string)
    requires pre + a + suf == pre + b + suf
    ensures a == b
  {
    assert |a| == |b|;
    assert (pre + a + suf)[|pre|..|pre| + |a|] == a;
    assert (pre + b + suf)[|pre|..|pre| + |b|] == b;
  }

  lemma StartsWithAppend(a: string, b: string)
    ensures StartsWith(a + b, a)
  {
    assert (a + b)[..|a|] == a;
  }

  /** A text framed as `h + body + tail` starts with `h` and whatever
      `body` starts with, and ends with `tail`. */
  lemma FramedText(h: string, body: string, b: string, tail: string)
    requires StartsWith(body, b)
    ensures StartsWith(h + body + tail, h + b)
    ensures |tail| <= |h + body + tail| && (h + body + tail)[|h + body + tail| - |tail|..] == tail
  {
    var m := h + body + tail;
    assert m[..|h + b|] == h + body[..|b|];
    assert m[|m| - |tail|..] == tail;
  }

  lemma StartsWithPrepend(p: string, s: string, q: string)
    requires StartsWith(s, q)
    ensures StartsWith(p + s, p + q)
  {
    assert (p + s)[..|p + q|] == p + s[..|q|];
  }
}
