/**
 * The profile avatar's placeholder text: the initials of the first two words
 * of the user's name, or the first two letters of a single word, upper-cased.
 */
module Avatar {
  import opened Text

  /** The words of the trimmed name, split on single spaces. */
  function Words(placeholder: string): (words: seq<string>)
    ensures |words| >= 1
  {
    Split(Trim(placeholder), ' ')
  }

  /**
   * The second word is not empty when there is one. The component reads the
   * first character of the second word, which is missing (and upper-casing it
   * throws) when the first space of the trimmed name is followed by another.
   */
  predicate HasInitials(placeholder: string) {
    var words := Words(placeholder);
    |words| > 1 ==> words[1] != ""
  }

  /** In a name of several words the first word is not empty, since the trimmed name does not start with a space. */
  lemma FirstWordNonEmpty(placeholder: string)
    requires ' ' in Trim(placeholder)
    ensures Words(placeholder)[0] == Trim(placeholder)[..IndexOf(Trim(placeholder), ' ')] != ""
  {
    SplitFirst(Trim(placeholder), ' ');
  }

  /** The avatar's initials, as the component computes them. */
  function AvatarInitials(placeholder: string): (initials: string)
    requires HasInitials(placeholder)
    ensures |initials| <= 2
  {
    var words := Words(placeholder);
    if |words| > 1 then
      FirstWordNonEmpty(placeholder);
      [UpperChar(words[0][0]), UpperChar(words[1][0])]
    else
      var n := if |words[0]| < 2 then |words[0]| else 2;
      UpperAscii(words[0][..n])
  }

  /**
   * The initials are defined exactly when the trimmed name has no space, or
   * the character right after its first space is not a space.
   */
  lemma HasInitialsIff(placeholder: string)
    ensures var t := Trim(placeholder);
      HasInitials(placeholder) <==> (' ' !in t || (IndexOf(t, ' ') + 1 < |t| && t[IndexOf(t, ' ') + 1] != ' '))
  {
    var t := Trim(placeholder);
    if ' ' in t {
      var i := IndexOf(t, ' ');
      var rest := t[i + 1..];
      assert Words(placeholder)[1] == Split(rest, ' ')[0];
      SplitFirst(rest, ' ');
      if ' ' in rest {
        assert rest[0] == ' ' <==> IndexOf(rest, ' ') == 0;
      }
    }
  }

  /**
   * With several words: the upper-cased first character of the trimmed name
   * and the upper-cased character right after its first space.
   */
  lemma InitialsOfSeveralWords(placeholder: string)
    requires HasInitials(placeholder)
    requires ' ' in Trim(placeholder)
    ensures var t := Trim(placeholder);
      IndexOf(t, ' ') + 1 < |t|
      && AvatarInitials(placeholder) == [UpperChar(t[0]), UpperChar(t[IndexOf(t, ' ') + 1])]
  {
    var t := Trim(placeholder);
    var i := IndexOf(t, ' ');
    FirstWordNonEmpty(placeholder);
    assert Words(placeholder)[0][0] == t[0];
    HasInitialsIff(placeholder);
    var rest := t[i + 1..];
    assert Words(placeholder)[1] == Split(rest, ' ')[0];
    SplitFirst(rest, ' ');
    assert Split(rest, ' ')[0][0] == rest[0];
  }

  /** With one word: its first two characters (fewer if it is shorter), upper-cased. */
  lemma InitialsOfOneWord(placeholder: string)
    requires ' ' !in Trim(placeholder)
    ensures HasInitials(placeholder)
    ensures var t := Trim(placeholder);
      AvatarInitials(placeholder) == UpperAscii(if |t| < 2 then t else t[..2])
  {
  }

  /** A name of only white space has empty initials. */
  lemma BlankNameHasNoInitials(placeholder: string)
    requires AllSpace(placeholder)
    ensures HasInitials(placeholder) && AvatarInitials(placeholder) == ""
  {
    TrimIgnoresPadding(placeholder, "", "");
    assert placeholder + "" + "" == placeholder;
  }

  /** A non-blank name has at least one initial. */
  lemma NonBlankNameHasInitials(placeholder: string)
    requires HasInitials(placeholder) && Trim(placeholder) != ""
    ensures 1 <= |AvatarInitials(placeholder)| <= 2
  {
    if ' ' in Trim(placeholder) {
      InitialsOfSeveralWords(placeholder);
    }
  }

  /** White space around the name does not change its initials. */
  lemma PaddingIgnored(before: string, placeholder: string, after: string)
    requires AllSpace(before) && AllSpace(after)
    ensures HasInitials(before + placeholder + after) <==> HasInitials(placeholder)
    ensures HasInitials(placeholder) ==> AvatarInitials(before + placeholder + after) == AvatarInitials(placeholder)
  {
    TrimIgnoresPadding(before, placeholder, after);
  }

  /** A first word followed by two spaces leaves the second word empty: the initials are undefined. */
  lemma DoubleSpaceAfterFirstWord(placeholder: string, first: string, rest: string)
    requires first != [] && ' ' !in first
    requires Trim(placeholder) == first + "  " + rest
    ensures !HasInitials(placeholder)
  {
    var t := Trim(placeholder);
    assert t[..|first|] == first;
    assert t[|first|] == ' ' && t[|first| + 1] == ' ';
    assert IndexOf(t, ' ') == |first|;
    HasInitialsIff(placeholder);
  }

  // ---------- initials across wider gaps ----------

  /** The non-empty words, in order. */
  function NonEmptyWords(words: seq<string>): (r: seq<string>)
    ensures |r| <= |words|
    ensures forall k :: 0 <= k < |r| ==> r[k] != ""
  {
    if words == [] then []
    else (if words[0] == "" then [] else [words[0]]) + NonEmptyWords(words[1..])
  }

  /** The initials of the first two non-empty words, however many spaces part them; defined for every name. */
  function CorrectedInitials(placeholder: string): (initials: string)
    ensures |initials| <= 2
  {
    var words := NonEmptyWords(Words(placeholder));
    if |words| > 1 then [UpperChar(words[0][0]), UpperChar(words[1][0])]
    else if |words| == 1 then UpperAscii(words[0][..if |words[0]| < 2 then |words[0]| else 2])
    else ""
  }

  /** Where the component's initials are defined, the corrected initials are the same. */
  lemma CorrectedAgreesWhereDefined(placeholder: string)
    requires HasInitials(placeholder)
    ensures CorrectedInitials(placeholder) == AvatarInitials(placeholder)
  {
    var words := Words(placeholder);
    if |words| > 1 {
      FirstWordNonEmpty(placeholder);
      assert words[1..][0] == words[1] && words[1..][1..] == words[2..];
      assert NonEmptyWords(words) == [words[0]] + NonEmptyWords(words[1..]);
      assert NonEmptyWords(words[1..]) == [words[1]] + NonEmptyWords(words[2..]);
    } else if words[0] == "" {
      assert words[1..] == [];
      assert NonEmptyWords(words) == [];
    } else {
      assert words[1..] == [];
      assert NonEmptyWords(words) == [words[0]];
    }
  }

  /** A non-blank name has one or two corrected initials. */
  lemma CorrectedNonBlankHasInitials(placeholder: string)
    requires Trim(placeholder) != ""
    ensures 1 <= |CorrectedInitials(placeholder)| <= 2
  {
    var words := Words(placeholder);
    if ' ' in Trim(placeholder) {
      FirstWordNonEmpty(placeholder);
    }
    assert words[0] != "";
    assert NonEmptyWords(words) == [words[0]] + NonEmptyWords(words[1..]);
  }

  /**
   * Two words parted by two spaces: the component's initials are undefined,
   * while the corrected initials are those of both words.
   */
  lemma CorrectedInitialsAcrossDoubleSpace(placeholder: string, first: string, second: string)
    requires first != [] && ' ' !in first && second != [] && ' ' !in second
    requires Trim(placeholder) == first + "  " + second
    ensures !HasInitials(placeholder)
    ensures CorrectedInitials(placeholder) == [UpperChar(first[0]), UpperChar(second[0])]
  {
    DoubleSpaceAfterFirstWord(placeholder, first, second);
    var t := Trim(placeholder);
    assert t[..|first|] == first && t[|first|] == ' ';
    assert IndexOf(t, ' ') == |first|;
    var tail := t[|first| + 1..];
    assert tail == " " + second;
    assert IndexOf(tail, ' ') == 0;
    assert tail[..0] == "" && tail[1..] == second;
    assert Split(tail, ' ') == [""] + Split(second, ' ');
    assert Split(second, ' ') == [second];
    var words := Words(placeholder);
    assert words == [first] + Split(tail, ' ');
    assert words == [first, "", second];
    assert words[1..] == ["", second] && words[1..][1..] == [second] && words[1..][1..][1..] == [];
    assert NonEmptyWords([second]) == [second] + NonEmptyWords([]);
    assert NonEmptyWords(["", second]) == NonEmptyWords([second]);
    assert NonEmptyWords(words) == [first] + NonEmptyWords(["", second]);
  }
}
