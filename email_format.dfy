/**
 * The email syntax check `/^[^\s@]+@[^\s@]+\.[^\s@]+$/`, used by the invitation
 * handler and by the email service's `isValidEmail`.
 */
module EmailFormat {
  import opened Text

  /** A character matched by `[^\s@]`. */
  predicate PartChar(c: char) {
    !IsJsSpace(c) && c != '@'
  }

  /** A string matched by `[^\s@]+`. */
  predicate Part(s: string) {
    |s| > 0 && forall k :: 0 <= k < |s| ==> PartChar(s[k])
  }

  /**
   * The language of the regular expression: `s` is `local + "@" + name + "." + tld`
   * with three non-empty parts free of white space and of "@" (`name` may itself
   * contain dots, since `[^\s@]+` is greedy and backtracks).
   */
  ghost predicate MatchesEmailRegex(s: string) {
    exists at: nat, dot: nat :: MatchAt(s, at, dot)
  }

  /** The "@" at `at` and the "." at `dot` split `s` as the regular expression requires. */
  predicate MatchAt(s: string, at: nat, dot: nat) {
    0 < at < dot < |s| - 1 && s[at] == '@' && s[dot] == '.'
    && Part(s[..at]) && Part(s[at + 1..dot]) && Part(s[dot + 1..])
  }

  /**
   * The same test stated on the characters of `s`: no white space, exactly one "@"
   * preceded by something, and a domain with a "." that is neither its first nor
   * its last character.
   */
  predicate IsEmailShaped(s: string) {
    && NoSpace(s)
    && '@' in s
    && var at := IndexOf(s, '@');
    && at > 0
    && '@' !in s[at + 1..]
    && var domain := s[at + 1..];
    && |domain| >= 3
    && '.' in domain[1..|domain| - 1]
  }

  lemma IndexOfUnique(s: string, c: char, j: nat)
    requires j < |s| && s[j] == c && c !in s[..j]
    ensures IndexOf(s, c) == j
  {
  }

  lemma PartAt(s: string, lo: nat, hi: nat, k: nat)
    requires lo <= k < hi <= |s| && Part(s[lo..hi])
    ensures PartChar(s[k])
  {
    assert s[lo..hi][k - lo] == s[k];
  }

  /** A non-empty stretch of part characters is a part. */
  lemma PartSlice(s: string, lo: nat, hi: nat)
    requires lo < hi <= |s| && forall k :: lo <= k < hi ==> PartChar(s[k])
    ensures Part(s[lo..hi])
  {
    forall j | 0 <= j < hi - lo
      ensures PartChar(s[lo..hi][j])
    {
      assert s[lo..hi][j] == s[lo + j];
    }
  }

  lemma ShapedMatches(s: string)
    requires IsEmailShaped(s)
    ensures MatchesEmailRegex(s)
  {
    var at := IndexOf(s, '@');
    var domain := s[at + 1..];
    var inner := domain[1..|domain| - 1];
    var p := IndexOf(inner, '.') + 1;
    var dot := at + 1 + p;
    assert s[dot] == '.' by { assert domain[p] == inner[p - 1]; }
    forall k | 0 <= k < |s| && k != at
      ensures PartChar(s[k])
    {
      if k > at {
        assert domain[k - at - 1] == s[k];
      }
    }
    PartSlice(s, 0, at);
    assert s[0..at] == s[..at];
    PartSlice(s, at + 1, dot);
    PartSlice(s, dot + 1, |s|);
    assert s[dot + 1..|s|] == s[dot + 1..];
    assert MatchAt(s, at, dot);
  }

  /** Under a regular-expression match, every character but the "@" is a part character. */
  lemma MatchedChars(s: string, at: nat, dot: nat)
    requires 0 < at < dot < |s| - 1 && s[at] == '@' && s[dot] == '.'
    requires Part(s[..at]) && Part(s[at + 1..dot]) && Part(s[dot + 1..])
    ensures forall k :: 0 <= k < |s| && k != at ==> PartChar(s[k])
  {
    forall k | 0 <= k < |s| && k != at
      ensures PartChar(s[k])
    {
      if k < at {
        PartAt(s, 0, at, k);
      } else if k < dot {
        PartAt(s, at + 1, dot, k);
      } else if k > dot {
        PartAt(s, dot + 1, |s|, k);
      }
    }
  }

  lemma ShapedFromParts(s: string, at: nat)
    requires NoSpace(s) && 0 < at < |s| && s[at] == '@'
    requires '@' !in s[..at] && '@' !in s[at + 1..]
    requires |s[at + 1..]| >= 3 && '.' in s[at + 1..][1..|s[at + 1..]| - 1]
    ensures IsEmailShaped(s)
  {
    IndexOfUnique(s, '@', at);
  }

  lemma MatchHasNoSpace(s: string, at: nat, dot: nat)
    requires MatchAt(s, at, dot)
    ensures NoSpace(s)
  {
    MatchedChars(s, at, dot);
    forall k | 0 <= k < |s| ensures !IsJsSpace(s[k]) {
      if k != at {
        assert PartChar(s[k]);
      }
    }
  }

  lemma MatchHasOneAt(s: string, at: nat, dot: nat)
    requires MatchAt(s, at, dot)
    ensures '@' !in s[..at] && '@' !in s[at + 1..]
  {
    MatchedChars(s, at, dot);
    forall k | 0 <= k < at ensures s[..at][k] != '@' {
      assert s[..at][k] == s[k];
      assert PartChar(s[k]);
    }
    var domain := s[at + 1..];
    forall k | 0 <= k < |domain| ensures domain[k] != '@' {
      assert domain[k] == s[at + 1 + k];
      assert PartChar(s[at + 1 + k]);
    }
  }

  lemma MatchHasInnerDot(s: string, at: nat, dot: nat)
    requires MatchAt(s, at, dot)
    ensures |s[at + 1..]| >= 3 && '.' in s[at + 1..][1..|s[at + 1..]| - 1]
  {
    var domain := s[at + 1..];
    assert domain[1..|domain| - 1][dot - at - 2] == s[dot];
  }

  lemma MatchesShaped(s: string)
    requires MatchesEmailRegex(s)
    ensures IsEmailShaped(s)
  {
    var at, dot :| MatchAt(s, at, dot);
    MatchHasNoSpace(s, at, dot);
    MatchHasOneAt(s, at, dot);
    MatchHasInnerDot(s, at, dot);
    ShapedFromParts(s, at);
  }

  /** The character-level check accepts exactly the strings the regular expression matches. */
  lemma EmailShapedIffRegex(s: string)
    ensures IsEmailShaped(s) <==> MatchesEmailRegex(s)
  {
    if IsEmailShaped(s) {
      ShapedMatches(s);
    }
    if MatchesEmailRegex(s) {
      MatchesShaped(s);
    }
  }

  /** An accepted address contains exactly one "@", with a non-empty part on each side. */
  lemma {:induction false} AcceptedHasOneAt(s: string)
    requires IsEmailShaped(s)
    ensures multiset(s)['@'] == 1
    ensures var at := IndexOf(s, '@'); 0 < at < |s| - 3
  {
    var at := IndexOf(s, '@');
    assert s == s[..at] + [s[at]] + s[at + 1..];
    assert multiset(s) == multiset(s[..at]) + multiset{'@'} + multiset(s[at + 1..]);
  }
}
