/**
 * The string primitives the source relies on: JavaScript white space (`\s`,
 * `String.prototype.trim`), ASCII case mapping (`toLowerCase`, `toUpperCase`),
 * `split` on one separator character and the lower-case/trim normalisation of
 * email addresses.
 */
module Text {

  /** The characters of JavaScript's `\s` class; `trim` removes exactly these. */
  predicate IsJsSpace(c: char) {
    || c == '\t' || c == '\n' || c == '\U{000B}' || c == '\U{000C}' || c == '\r' || c == ' '
    || c == '\U{00A0}' || c == '\U{1680}' || ('\U{2000}' <= c <= '\U{200A}')
    || c == '\U{2028}' || c == '\U{2029}' || c == '\U{202F}' || c == '\U{205F}'
    || c == '\U{3000}' || c == '\U{FEFF}'
  }

  predicate AllSpace(s: string) {
    forall i :: 0 <= i < |s| ==> IsJsSpace(s[i])
  }

  predicate NoSpace(s: string) {
    forall i :: 0 <= i < |s| ==> !IsJsSpace(s[i])
  }

  /** Removes leading white space. */
  function TrimStart(s: string): (r: string)
    ensures |r| <= |s|
  {
    if |s| > 0 && IsJsSpace(s[0]) then TrimStart(s[1..]) else s
  }

  /** Removes trailing white space. */
  function TrimEnd(s: string): (r: string)
    ensures |r| <= |s|
  {
    if |s| > 0 && IsJsSpace(s[|s| - 1]) then TrimEnd(s[..|s| - 1]) else s
  }

  /** `TrimStart` leaves the suffix that starts at the first non-space. */
  lemma {:induction false} TrimStartSuffix(s: string)
    ensures var r := TrimStart(s); r == s[|s| - |r|..] && AllSpace(s[..|s| - |r|])
    ensures var r := TrimStart(s); r == [] || !IsJsSpace(r[0])
    decreases |s|
  {
    if |s| > 0 && IsJsSpace(s[0]) {
      TrimStartSuffix(s[1..]);
      var r := TrimStart(s[1..]);
      assert s[..|s| - |r|] == [s[0]] + s[1..][..|s[1..]| - |r|];
    }
  }

  /** `TrimEnd` leaves the prefix that ends at the last non-space. */
  lemma {:induction false} TrimEndPrefix(s: string)
    ensures var r := TrimEnd(s); r == s[..|r|] && AllSpace(s[|r|..])
    ensures var r := TrimEnd(s); r == [] || !IsJsSpace(r[|r| - 1])
    decreases |s|
  {
    if |s| > 0 && IsJsSpace(s[|s| - 1]) {
      TrimEndPrefix(s[..|s| - 1]);
      var r := TrimEnd(s[..|s| - 1]);
      assert s[|r|..] == s[..|s| - 1][|r|..] + [s[|s| - 1]];
    }
  }

  /** `String.prototype.trim`. */
  function Trim(s: string): (r: string)
    ensures |r| <= |s|
    ensures r == [] || (!IsJsSpace(r[0]) && !IsJsSpace(r[|r| - 1]))
  {
    TrimStartSuffix(s);
    TrimEndPrefix(TrimStart(s));
    var r := TrimEnd(TrimStart(s));
    assert r != [] ==> r[0] == TrimStart(s)[0];
    r
  }

  /** Taking a prefix or a suffix of a suffix is taking an infix or a suffix of the whole. */
  lemma SuffixSlices<T>(s: seq<T>, i: nat, n: nat)
    requires i + n <= |s|
    ensures s[i..][..n] == s[i..i + n] && s[i..][n..] == s[i + n..]
  {
  }

  /** The trimmed string is the infix of `s` left after removing white-space margins. */
  lemma TrimIsInfix(s: string) returns (i: nat)
    ensures i + |Trim(s)| <= |s| && Trim(s) == s[i..i + |Trim(s)|]
    ensures AllSpace(s[..i]) && AllSpace(s[i + |Trim(s)|..])
  {
    var t := TrimStart(s);
    i := |s| - |t|;
    var r := TrimEnd(t);
    TrimStartSuffix(s);
    TrimEndPrefix(t);
    SuffixSlices(s, i, |r|);
  }

  lemma {:induction false} TrimStartOfPadded(p: string, x: string)
    requires AllSpace(p)
    ensures TrimStart(p + x) == TrimStart(x)
    decreases |p|
  {
    if |p| > 0 {
      assert (p + x)[1..] == p[1..] + x;
      TrimStartOfPadded(p[1..], x);
    } else {
      assert p + x == x;
    }
  }

  lemma {:induction false} TrimEndOfPadded(x: string, q: string)
    requires AllSpace(q)
    ensures TrimEnd(x + q) == TrimEnd(x)
    decreases |q|
  {
    if |q| > 0 {
      assert (x + q)[..|x + q| - 1] == x + q[..|q| - 1];
      TrimEndOfPadded(x, q[..|q| - 1]);
    } else {
      assert x + q == x;
    }
  }

  lemma {:induction false} TrimStartKeepsTail(s: string, q: string)
    requires !AllSpace(s)
    ensures TrimStart(s + q) == TrimStart(s) + q
    decreases |s|
  {
    if IsJsSpace(s[0]) {
      assert (s + q)[1..] == s[1..] + q;
      assert !AllSpace(s[1..]) by {
        var k :| 0 <= k < |s| && !IsJsSpace(s[k]);
        assert s[1..][k - 1] == s[k];
      }
      TrimStartKeepsTail(s[1..], q);
    }
  }

  lemma AllSpaceTrimStart(s: string)
    requires AllSpace(s)
    ensures TrimStart(s) == []
  {
  }

  /** White space added before or after a string does not change what `trim` returns. */
  lemma TrimIgnoresPadding(p: string, s: string, q: string)
    requires AllSpace(p) && AllSpace(q)
    ensures Trim(p + s + q) == Trim(s)
  {
    assert p + s + q == p + (s + q);
    TrimStartOfPadded(p, s + q);
    if AllSpace(s) {
      assert AllSpace(s + q);
      AllSpaceTrimStart(s + q);
      AllSpaceTrimStart(s);
    } else {
      TrimStartKeepsTail(s, q);
      TrimEndOfPadded(TrimStart(s), q);
    }
  }

  /** `trim` is idempotent. */
  lemma TrimIdempotent(s: string)
    ensures Trim(Trim(s)) == Trim(s)
  {
  }

  function LowerChar(c: char): (d: char)
  {
    if 'A' <= c <= 'Z' then ((c as int) + 32) as char else c
  }

  function UpperChar(c: char): (d: char)
  {
    if 'a' <= c <= 'z' then ((c as int) - 32) as char else c
  }

  /** `toLowerCase`, restricted to the ASCII letters. */
  function LowerAscii(s: string): (r: string)
    ensures |r| == |s| && forall i :: 0 <= i < |s| ==> r[i] == LowerChar(s[i])
  {
    seq(|s|, i requires 0 <= i < |s| => LowerChar(s[i]))
  }

  /** `toUpperCase`, restricted to the ASCII letters. */
  function UpperAscii(s: string): (r: string)
    ensures |r| == |s| && forall i :: 0 <= i < |s| ==> r[i] == UpperChar(s[i])
  {
    seq(|s|, i requires 0 <= i < |s| => UpperChar(s[i]))
  }

  /** `email.toLowerCase().trim()`, the normal form of an email address throughout the backend. */
  function NormalizeEmail(email: string): string
  {
    Trim(LowerAscii(email))
  }

  lemma LowerCharIdempotent(c: char)
    ensures LowerChar(LowerChar(c)) == LowerChar(c)
    ensures !('A' <= LowerChar(c) <= 'Z')
  {
  }

  /** Every character of a lower-cased string is left alone by a second lower-casing. */
  lemma LowerInfixFixed(email: string, i: nat, n: string)
    requires i + |n| <= |email| && n == LowerAscii(email)[i..i + |n|]
    ensures LowerAscii(n) == n
  {
    var low := LowerAscii(email);
    forall k | 0 <= k < |n|
      ensures LowerChar(n[k]) == n[k]
    {
      assert n[k] == low[i + k] == LowerChar(email[i + k]);
      LowerCharIdempotent(email[i + k]);
    }
  }

  /** Normalising an already normalised address changes nothing. */
  lemma NormalizeIdempotent(email: string)
    ensures NormalizeEmail(NormalizeEmail(email)) == NormalizeEmail(email)
  {
    var low := LowerAscii(email);
    var n := Trim(low);
    var i := TrimIsInfix(low);
    LowerInfixFixed(email, i, n);
    assert LowerAscii(n) == n;
    TrimIdempotent(low);
    assert NormalizeEmail(n) == Trim(n);
  }

  predicate NoCapital(s: string) {
    forall k :: 0 <= k < |s| ==> !('A' <= s[k] <= 'Z')
  }

  lemma LowerHasNoCapital(s: string)
    ensures NoCapital(LowerAscii(s))
  {
    forall k | 0 <= k < |s|
      ensures !('A' <= LowerAscii(s)[k] <= 'Z')
    {
      LowerCharIdempotent(s[k]);
    }
  }

  lemma TrimKeepsNoCapital(s: string)
    requires NoCapital(s)
    ensures NoCapital(Trim(s))
  {
    var i := TrimIsInfix(s);
    var n := Trim(s);
    forall k | 0 <= k < |n|
      ensures !('A' <= n[k] <= 'Z')
    {
      assert n[k] == s[i + k];
    }
  }

  /** A normalised address has no ASCII capital letter and no white space at either end. */
  lemma NormalizedShape(email: string)
    ensures var n := NormalizeEmail(email);
      (n == [] || (!IsJsSpace(n[0]) && !IsJsSpace(n[|n| - 1]))) && NoCapital(n)
  {
    LowerHasNoCapital(email);
    TrimKeepsNoCapital(LowerAscii(email));
  }

  /** The index of the first occurrence of `c` in `s`. */
  function IndexOf(s: string, c: char): (i: nat)
    requires c in s
    ensures i < |s| && s[i] == c && c !in s[..i]
  {
    if s[0] == c then 0 else 1 + IndexOf(s[1..], c)
  }

  /** `s.split(sep)` for a one-character separator. */
  function Split(s: string, sep: char): (parts: seq<string>)
    ensures |parts| >= 1
    ensures |parts| == 1 <==> sep !in s
    ensures forall k :: 0 <= k < |parts| ==> sep !in parts[k]
    decreases |s|
  {
    if sep !in s then [s]
    else
      var i := IndexOf(s, sep);
      [s[..i]] + Split(s[i + 1..], sep)
  }

  /** `parts.join(sep)`. */
  function Join(parts: seq<string>, sep: char): string
    requires |parts| >= 1
  {
    if |parts| == 1 then parts[0] else parts[0] + [sep] + Join(parts[1..], sep)
  }

  /** One step of a split followed by a join: the first part, the separator, then the rest joined. */
  lemma SplitJoinStep(s: string, sep: char)
    requires sep in s
    ensures var i := IndexOf(s, sep);
      Join(Split(s, sep), sep) == s[..i] + [sep] + Join(Split(s[i + 1..], sep), sep)
  {
    var i := IndexOf(s, sep);
    var parts := Split(s, sep);
    assert parts[0] == s[..i] && parts[1..] == Split(s[i + 1..], sep);
  }

  /** A string is its prefix before `i`, the character at `i`, and its suffix after `i`. */
  lemma Reassembled<T>(s: seq<T>, i: nat)
    requires i < |s|
    ensures s[..i] + [s[i]] + s[i + 1..] == s
  {
  }

  /** Splitting and joining with the same separator gives back the original string. */
  lemma {:induction false} SplitJoin(s: string, sep: char)
    ensures Join(Split(s, sep), sep) == s
    decreases |s|
  {
    if sep in s {
      var i := IndexOf(s, sep);
      SplitJoin(s[i + 1..], sep);
      SplitJoinStep(s, sep);
      Reassembled(s, i);
    }
  }

  /** The first part of a split is the prefix before the first separator. */
  lemma SplitFirst(s: string, sep: char)
    ensures Split(s, sep)[0] == (if sep in s then s[..IndexOf(s, sep)] else s)
  {
  }
}
