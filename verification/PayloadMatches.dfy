/** The pattern of the payload viewer as a whole: at every position the scan takes the longest match
    of any of its alternatives, and a string is a key exactly when a colon follows closely. */
module PayloadMatches {
  import opened PayloadLexer

  predicate WordUnit(c: CodeUnit) {
    'A' as int <= c <= 'Z' as int || 'a' as int <= c <= 'z' as int || '0' as int <= c <= '9' as int || c == '_' as int
  }

  /** A quote, units that are escaped or are neither quote nor backslash, and a quote. */
  ghost predicate StringMatch(s: Text, n: nat) {
    2 <= n <= |s| && s[0] == '"' as int && s[n - 1] == '"' as int && StringBody(s[1..n - 1])
  }

  /** One of the three words between word boundaries. */
  predicate WordMatch(afterWord: bool, s: Text, n: nat) {
    n <= |s| && !afterWord && (n < |s| ==> !WordUnit(s[n])) &&
    (s[..n] == [0x74, 0x72, 0x75, 0x65] || s[..n] == [0x66, 0x61, 0x6c, 0x73, 0x65] ||
      s[..n] == [0x6e, 0x75, 0x6c, 0x6c])
  }

  ghost predicate NumberMatch(s: Text, n: nat) {
    exists g: nat, i: nat, j: nat :: NumberParse(s, g, i, j, n)
  }

  /** The first `n` units match one of the pattern's alternatives. */
  ghost predicate PatternMatches(afterWord: bool, s: Text, n: nat) {
    StringMatch(s, n) || WordMatch(afterWord, s, n) || NumberMatch(s, n)
  }

  lemma StringLength(s: Text, n: nat)
    requires s != [] && s[0] == QUOTE && 0 < n <= |s|
    ensures 1 + StringTail(s[1..]) == n && n > 1 <==> StringMatch(s, n)
  {
    if n > 1 {
      StringMatchIsUnique(s[1..], n - 1);
      assert s[1..][n - 2] == s[n - 1];
      assert s[1..][..n - 2] == s[1..n - 1];
    }
  }

  lemma WordLength(s: Text, word: Text)
    ensures IsKeyword(s, word) <==>
      |word| <= |s| && s[..|word|] == word && (|word| < |s| ==> !WordUnit(s[|word|]))
  {
    if |word| <= |s| { assert s[|word|..] != [] ==> s[|word|..][0] == s[|word|]; }
  }

  /** A number begins with a sign or a digit, unlike the other alternatives. */
  lemma NumberHead(s: Text, n: nat)
    requires NumberMatch(s, n)
    ensures 0 < n <= |s| && (s[0] == MINUS || IsDigit(s[0]))
  {
    var g: nat, i: nat, j: nat :| NumberParse(s, g, i, j, n);
    assert s[g..i][0] == s[g];
  }

  lemma NumberLength(s: Text)
    ensures Number(s) > 0 ==> NumberMatch(s, Number(s))
    ensures forall n: nat :: NumberMatch(s, n) ==> n <= Number(s)
  {
    if Number(s) > 0 {
      var g, i, j := NumberIsMatch(s);
    }
    forall n: nat | NumberMatch(s, n) ensures n <= Number(s) {
      var g: nat, i: nat, j: nat :| NumberParse(s, g, i, j, n);
      NumberIsLongest(s, g, i, j, n);
    }
  }

  /** The alternatives begin differently. */
  lemma HeadsDiffer(afterWord: bool, s: Text, n: nat)
    requires PatternMatches(afterWord, s, n)
    ensures 0 < n <= |s|
    ensures StringMatch(s, n) <==> s[0] == QUOTE
    ensures s[0] == MINUS || IsDigit(s[0]) ==> NumberMatch(s, n)
    ensures NumberMatch(s, n) ==> s[0] == MINUS || IsDigit(s[0])
  {
    if NumberMatch(s, n) { NumberHead(s, n); }
    if WordMatch(afterWord, s, n) { assert n > 0 && s[..n][0] == s[0]; }
    hide NumberMatch;
  }

  lemma StringIsTaken(afterWord: bool, s: Text)
    requires s != [] && s[0] == QUOTE
    ensures MatchLength(afterWord, s) > 0 ==> PatternMatches(afterWord, s, MatchLength(afterWord, s))
    ensures forall n: nat :: PatternMatches(afterWord, s, n) ==> n <= MatchLength(afterWord, s)
  {
    var taken := MatchLength(afterWord, s);
    if taken > 0 { StringLength(s, taken); }
    forall n: nat | PatternMatches(afterWord, s, n) ensures n <= taken {
      HeadsDiffer(afterWord, s, n);
      StringLength(s, n);
    }
  }

  lemma OtherIsTaken(afterWord: bool, s: Text)
    requires s == [] || s[0] != QUOTE
    ensures MatchLength(afterWord, s) > 0 ==> PatternMatches(afterWord, s, MatchLength(afterWord, s))
    ensures forall n: nat :: PatternMatches(afterWord, s, n) ==> n <= MatchLength(afterWord, s)
  {
    NumberLength(s);
    WordLength(s, TRUE);
    WordLength(s, FALSE);
    WordLength(s, NULL);
    forall n: nat | PatternMatches(afterWord, s, n) ensures n <= MatchLength(afterWord, s) {
      HeadsDiffer(afterWord, s, n);
      if WordMatch(afterWord, s, n) { assert s[..n][0] == s[0]; }
    }
    hide NumberMatch, Number, StringTail;
  }

  /** What the scan takes is a match of the pattern, and no match is longer; it takes nothing exactly
      when nothing matches. */
  lemma MatchIsLongest(afterWord: bool, s: Text)
    ensures MatchLength(afterWord, s) > 0 ==> PatternMatches(afterWord, s, MatchLength(afterWord, s))
    ensures forall n: nat :: PatternMatches(afterWord, s, n) ==> 0 < n <= MatchLength(afterWord, s)
  {
    if s != [] && s[0] == QUOTE { StringIsTaken(afterWord, s); } else { OtherIsTaken(afterWord, s); }
    hide PatternMatches, MatchLength;
    forall n: nat | PatternMatches(afterWord, s, n) ensures n > 0 { HeadsDiffer(afterWord, s, n); }
  }

  // --- Keys ---

  /** After white space only, the colon is among the first `n` units. */
  predicate ColonWithin(s: Text, n: nat) {
    exists i :: 0 <= i < n && i < |s| && s[i] == ':' as int && forall k :: 0 <= k < i ==> IsSpace(s[k])
  }

  lemma {:induction false} SkippedSpaces(s: Text)
    ensures SkipSpaces(s) != [] && SkipSpaces(s)[0] == COLON <==> ColonWithin(s, |s|)
  {
    if s != [] && IsSpace(s[0]) {
      SkippedSpaces(s[1..]);
      if i :| 0 <= i < |s| && s[i] == COLON && forall k :: 0 <= k < i ==> IsSpace(s[k]) {
        assert s[1..][i - 1] == COLON && forall k :: 0 <= k < i - 1 ==> IsSpace(s[1..][k]);
      }
      if i :| 0 <= i < |s| - 1 && s[1..][i] == COLON && forall k :: 0 <= k < i ==> IsSpace(s[1..][k]) {
        assert s[i + 1] == COLON;
        forall k | 0 <= k < i + 1 ensures IsSpace(s[k]) { if k > 0 { assert s[1..][k - 1] == s[k]; } }
      }
    }
  }

  /** A string is a key exactly when a colon follows within twenty units, after white space only. */
  lemma KeyIff(raw: Text, rest: Text)
    requires raw != [] && raw[0] == '"' as int
    ensures KindOf(raw, rest) == if ColonWithin(rest, 20) then Key else String
  {
    var ahead := if |rest| <= LOOKAHEAD then rest else rest[..LOOKAHEAD];
    SkippedSpaces(ahead);
    assert ColonWithin(ahead, |ahead|) <==> ColonWithin(rest, 20) by {
      assert forall i :: 0 <= i < |ahead| ==> ahead[i] == rest[i];
    }
  }

  // --- The other kinds ---

  lemma NumberUnits(s: Text, n: nat, k: nat)
    requires NumberMatch(s, n) && k < n
    ensures k < |s| && s[k] != 0x74 && s[k] != 0x66
  {
    var g: nat, i: nat, j: nat :| NumberParse(s, g, i, j, n);
    if g <= k < i {
      assert s[g..i][k - g] == s[k];
    } else if i <= k < j {
      assert s[i..j][k - i] == s[k];
      if k > i { assert s[i..j][1..][k - i - 1] == s[k]; }
    } else if j <= k {
      assert s[j..n][k - j] == s[k];
      if k > j { assert s[j..n][1..][k - j - 1] == s[k]; }
      if k > j + 1 { assert s[j..n][2..][k - j - 2] == s[k]; }
    }
  }

  lemma NumberHasNoWord(s: Text, n: nat)
    requires NumberMatch(s, n)
    ensures n <= |s| && !Contains(s[..n], TRUE) && !Contains(s[..n], FALSE)
  {
    NumberHead(s, n);
    forall i | 0 <= i <= n ensures !(TRUE <= s[..n][i..]) && !(FALSE <= s[..n][i..]) {
      if i < n {
        NumberUnits(s, n, i);
        assert s[..n][i..][0] == s[i];
      }
    }
    hide NumberMatch;
  }

  /** A match that is no string is coloured by the word it is, and otherwise as a number. */
  lemma KindIs(afterWord: bool, s: Text, n: nat)
    requires PatternMatches(afterWord, s, n)
    ensures
      0 < n <= |s| &&
      KindOf(s[..n], s[n..]) ==
        if s[0] == '"' as int then if ColonWithin(s[n..], 20) then Key else String
        else if s[..n] == [0x6e, 0x75, 0x6c, 0x6c] then Null
        else if s[..n] == [0x74, 0x72, 0x75, 0x65] || s[..n] == [0x66, 0x61, 0x6c, 0x73, 0x65] then Boolean
        else Numeric
  {
    HeadsDiffer(afterWord, s, n);
    assert s[..n][0] == s[0];
    if s[0] == QUOTE {
      KeyIff(s[..n], s[n..]);
    } else if NumberMatch(s, n) {
      NumberHasNoWord(s, n);
    } else {
      assert s[..n][0..] == s[..n];
    }
    hide NumberMatch, StringMatch, ColonAhead, ColonWithin;
  }

  // --- The scan of a whole text ---

  /** The pattern matches the `n` units from `at` on. */
  ghost predicate MatchesAt(text: Text, at: nat, n: nat)
    requires at <= |text|
  {
    PatternMatches(at > 0 && WordUnit(text[at - 1]), text[at..], n)
  }

  lemma LengthIsLongest(text: Text, at: nat)
    requires at <= |text|
    ensures LengthAt(text, at) > 0 ==> MatchesAt(text, at, LengthAt(text, at))
    ensures forall n: nat :: MatchesAt(text, at, n) ==> 0 < n <= LengthAt(text, at)
  {
    MatchIsLongest(AfterWord(text, at), text[at..]);
    hide PatternMatches, MatchLength;
  }

  /** The next match is the first place where the pattern matches, and there the longest match; it is
      missing exactly when the pattern matches nowhere further on. */
  lemma NextMatchIs(text: Text, at: nat)
    requires at <= |text|
    ensures
      match NextMatch(text, at)
      case Missing => forall i: nat, n: nat :: at <= i <= |text| ==> !MatchesAt(text, i, n)
      case Found(m) =>
        MatchesAt(text, m.from, m.to - m.from) &&
        (forall n: nat :: MatchesAt(text, m.from, n) ==> n <= m.to - m.from) &&
        forall i: nat, n: nat :: at <= i < m.from ==> !MatchesAt(text, i, n)
  {
    hide MatchesAt, LengthAt, NextMatch;
    forall i: nat, n: nat | at <= i <= |text|
      ensures NextMatch(text, at).Missing? || i < NextMatch(text, at).at.from ==> !MatchesAt(text, i, n)
    {
      NextMatchIsLeftmost(text, at, i);
      LengthIsLongest(text, i);
    }
    var next := NextMatch(text, at);
    if next.Found? {
      NextMatchIsLeftmost(text, at, next.at.from);
      LengthIsLongest(text, next.at.from);
    }
  }
}
