/** The scanner behind the payload viewer: the regular expression of `payloadTokens` as a
    leftmost, non-overlapping scan.

    Text is a JavaScript string, a sequence of UTF-16 code units. The pattern has no `u` flag, so
    it works on single units. Its three alternatives start with different units and never need to
    backtrack: a string's body stops only at an unescaped quote, and the optional parts of a
    number come after everything it must have.
  */
module PayloadLexer {

  type CodeUnit = c: int | 0 <= c < 0x1_0000

  type Text = seq<CodeUnit>

  const QUOTE: CodeUnit := 0x22
  const BACKSLASH: CodeUnit := 0x5c
  const MINUS: CodeUnit := 0x2d
  const PLUS: CodeUnit := 0x2b
  const DOT: CodeUnit := 0x2e
  const COLON: CodeUnit := 0x3a
  const COMMA: CodeUnit := 0x2c
  const SPACE: CodeUnit := 0x20
  const NEWLINE: CodeUnit := 0x0a

  const TRUE: Text := [0x74, 0x72, 0x75, 0x65]
  const FALSE: Text := [0x66, 0x61, 0x6c, 0x73, 0x65]
  const NULL: Text := [0x6e, 0x75, 0x6c, 0x6c]

  /** Units ahead that are searched for a colon after a string. */
  const LOOKAHEAD := 20

  predicate IsDigit(c: CodeUnit) {
    0x30 <= c <= 0x39
  }

  /** `\w`. */
  predicate IsWord(c: CodeUnit) {
    IsDigit(c) || 0x41 <= c <= 0x5a || 0x61 <= c <= 0x7a || c == 0x5f
  }

  /** `\s`: white space and line terminators of ECMA-262, sections 12.2 and 12.3. */
  predicate IsSpace(c: CodeUnit) {
    0x09 <= c <= 0x0d || c == SPACE || c == 0xa0 || c == 0x1680 || 0x2000 <= c <= 0x200a
    || c == 0x2028 || c == 0x2029 || c == 0x202f || c == 0x205f || c == 0x3000 || c == 0xfeff
  }

  predicate StartsWord(s: Text) {
    s != [] && IsWord(s[0])
  }

  // --- The three alternatives: the length of the match at the head of `s`, 0 for none ---

  /** `(?:\\[\s\S]|[^"\\])*"`, after an opening quote. */
  function StringTail(s: Text): (n: nat)
    ensures n <= |s|
  {
    if s == [] then 0
    else if s[0] == QUOTE then 1
    else if s[0] == BACKSLASH then
      if |s| == 1 || StringTail(s[2..]) == 0 then 0 else 2 + StringTail(s[2..])
    else if StringTail(s[1..]) == 0 then 0 else 1 + StringTail(s[1..])
  }

  /** The language of `(?:\\[\s\S]|[^"\\])*`. */
  ghost predicate StringBody(s: Text) {
    s == []
    || (s[0] == BACKSLASH && |s| >= 2 && StringBody(s[2..]))
    || (s[0] != BACKSLASH && s[0] != QUOTE && StringBody(s[1..]))
  }

  /** The one way the pattern can match is the one that is found; 0 means there is none. */
  lemma {:induction false} StringMatchIsUnique(s: Text, n: nat)
    requires 0 < n <= |s|
    ensures StringTail(s) == n <==> s[n - 1] == QUOTE && StringBody(s[..n - 1])
  {
    if s[0] == BACKSLASH {
      if n >= 3 {
        StringMatchIsUnique(s[2..], n - 2);
        assert s[..n - 1][2..] == s[2..][..n - 3];
      }
    } else if s[0] != QUOTE && n >= 2 {
      StringMatchIsUnique(s[1..], n - 1);
      assert s[..n - 1][1..] == s[1..][..n - 2];
    }
  }

  function DigitRun(s: Text): (n: nat)
    ensures n <= |s|
  {
    if s == [] || !IsDigit(s[0]) then 0 else 1 + DigitRun(s[1..])
  }

  lemma {:induction false} DigitRunIsDigits(s: Text, i: nat)
    requires i < DigitRun(s)
    ensures IsDigit(s[i])
  {
    if i > 0 { DigitRunIsDigits(s[1..], i - 1); }
  }

  /** `(?:\.\d+)?`. */
  function Fraction(s: Text): (n: nat)
    ensures n <= |s|
  {
    if s == [] || s[0] != DOT || DigitRun(s[1..]) == 0 then 0 else 1 + DigitRun(s[1..])
  }

  /** `(?:[eE][+-]?\d+)?`. */
  function Exponent(s: Text): (n: nat)
    ensures n <= |s|
  {
    if s == [] || (s[0] != 0x65 && s[0] != 0x45) then 0 else
    var sign := if |s| > 1 && (s[1] == PLUS || s[1] == MINUS) then 1 else 0;
    if DigitRun(s[1 + sign..]) == 0 then 0 else 1 + sign + DigitRun(s[1 + sign..])
  }

  /** `-?\d+(?:\.\d+)?(?:[eE][+-]?\d+)?`. */
  function Number(s: Text): (n: nat)
    ensures n <= |s|
  {
    var sign := if s != [] && s[0] == MINUS then 1 else 0;
    var whole := DigitRun(s[sign..]);
    if whole == 0 then 0 else
    var integer := sign + whole;
    var mantissa := integer + Fraction(s[integer..]);
    mantissa + Exponent(s[mantissa..])
  }

  predicate AllDigits(s: Text) {
    s != [] && forall i :: 0 <= i < |s| ==> IsDigit(s[i])
  }

  predicate IsFraction(s: Text) {
    s == [] || (s[0] == DOT && AllDigits(s[1..]))
  }

  predicate IsExponent(s: Text) {
    s == [] || ((s[0] == 0x65 || s[0] == 0x45) &&
      (AllDigits(s[1..]) || (|s| > 1 && (s[1] == PLUS || s[1] == MINUS) && AllDigits(s[2..]))))
  }

  /** One way for the number alternative to match the first `k` units: the sign ends at `g`, the
      whole part at `i`, the fraction at `j`. */
  predicate NumberParse(s: Text, g: nat, i: nat, j: nat, k: nat) {
    g <= i <= j <= k <= |s| && (g == 0 || (g == 1 && s[0] == MINUS)) &&
    AllDigits(s[g..i]) && IsFraction(s[i..j]) && IsExponent(s[j..k])
  }

  lemma {:induction false} RunCovers(s: Text, m: nat)
    requires m <= |s| && forall i :: 0 <= i < m ==> IsDigit(s[i])
    ensures DigitRun(s) >= m
  {
    if m > 0 { RunCovers(s[1..], m - 1); }
  }

  lemma FractionCovers(s: Text, m: nat)
    requires m <= |s| && IsFraction(s[..m])
    ensures Fraction(s) >= m
    ensures Fraction(s) > m && m < |s| ==> s[m] == DOT || IsDigit(s[m])
  {
    if m > 0 {
      assert s[..m][1..] == s[1..][..m - 1];
      assert forall i :: 0 <= i < m - 1 ==> s[1..][i] == s[..m][1..][i];
      RunCovers(s[1..], m - 1);
      if Fraction(s) > m { DigitRunIsDigits(s[1..], m - 1); }
    }
  }

  lemma ExponentCovers(s: Text, m: nat)
    requires m <= |s| && IsExponent(s[..m])
    ensures Exponent(s) >= m
  {
    if m > 0 {
      if AllDigits(s[..m][1..]) {
        assert forall i :: 0 <= i < m - 1 ==> s[1..][i] == s[..m][1..][i];
        assert s[1] == s[..m][1..][0];
        RunCovers(s[1..], m - 1);
      } else {
        assert forall i :: 0 <= i < m - 2 ==> s[2..][i] == s[..m][2..][i];
        RunCovers(s[2..], m - 2);
      }
    }
  }

  lemma DropTake(s: Text, a: nat, b: nat)
    requires a <= b <= |s|
    ensures s[a..][..b - a] == s[a..b]
  {
  }

  lemma WholeCovers(s: Text, g: nat, i: nat)
    requires g < i <= |s| && forall x :: g <= x < i ==> IsDigit(s[x])
    ensures DigitRun(s[g..]) >= i - g
    ensures g + DigitRun(s[g..]) > i ==> IsDigit(s[i])
  {
    assert forall x :: 0 <= x < i - g ==> s[g..][x] == s[g + x];
    RunCovers(s[g..], i - g);
    if g + DigitRun(s[g..]) > i {
      DigitRunIsDigits(s[g..], i - g);
      assert s[g..][i - g] == s[i];
    }
  }

  /** The parts of a parse begin with units of different kinds. */
  lemma NumberHeads(s: Text, g: nat, i: nat, j: nat, k: nat)
    requires NumberParse(s, g, i, j, k)
    ensures g < i <= j <= k <= |s| && g == (if s[0] == MINUS then 1 else 0) && IsFraction(s[i..j]) &&
      IsExponent(s[j..k])
    ensures g + DigitRun(s[g..]) >= i
    ensures g + DigitRun(s[g..]) > i ==> IsDigit(s[i])
    ensures j > i ==> s[i] == DOT
    ensures k > j ==> s[j] == 0x65 || s[j] == 0x45
  {
    forall x | g <= x < i ensures IsDigit(s[x]) { assert s[g..i][x - g] == s[x]; }
    assert j > i ==> s[i..j][0] == s[i];
    assert k > j ==> s[j..k][0] == s[j];
    hide IsDigit, DigitRun;
    assert g == 0 ==> IsDigit(s[0]);
    assert !IsDigit(MINUS) by { DigitsOnly(); }
    WholeCovers(s, g, i);
  }

  lemma DigitsOnly()
    ensures !IsDigit(MINUS) && !IsDigit(DOT)
  {
  }

  lemma NumberUnfold(s: Text, g: nat, i: nat, j: nat)
    requires s != [] && g == (if s[0] == MINUS then 1 else 0)
    requires g < i <= |s| && i == g + DigitRun(s[g..]) && j == i + Fraction(s[i..])
    ensures j <= |s| && Number(s) == j + Exponent(s[j..])
  {
    hide DigitRun, Fraction, Exponent;
  }

  lemma FractionCoversAt(s: Text, i: nat, j: nat)
    requires i <= j <= |s| && IsFraction(s[i..j])
    ensures i + Fraction(s[i..]) >= j
    ensures i + Fraction(s[i..]) > j ==> j < |s| && (s[j] == DOT || IsDigit(s[j]))
  {
    DropTake(s, i, j);
    hide IsFraction, Fraction;
    FractionCovers(s[i..], j - i);
    assert j < |s| ==> s[i..][j - i] == s[j];
  }

  lemma ExponentCoversAt(s: Text, j: nat, k: nat)
    requires j <= k <= |s| && IsExponent(s[j..k])
    ensures j + Exponent(s[j..]) >= k
  {
    DropTake(s, j, k);
    hide IsExponent, Exponent;
    ExponentCovers(s[j..], k - j);
  }

  /** The scan takes a longest match of the number alternative. */
  lemma NumberIsLongest(s: Text, g: nat, i: nat, j: nat, k: nat)
    requires NumberParse(s, g, i, j, k)
    ensures Number(s) >= k
  {
    hide *;
    NumberHeads(s, g, i, j, k);
    DigitsAreNeither(s, i, j, k);
    var end := g + DigitRun(s[g..]);
    NumberUnfold(s, g, end, end + Fraction(s[end..]));
    if end == i {
      PartsCover(s, i, j, k, Fraction(s[i..]));
    }
  }

  lemma PartsCover(s: Text, i: nat, j: nat, k: nat, fraction: nat)
    requires i <= j <= k <= |s| && IsFraction(s[i..j]) && IsExponent(s[j..k]) && fraction == Fraction(s[i..])
    requires j < |s| && (IsDigit(s[j]) || s[j] == DOT) ==> k == j
    ensures i + fraction <= |s| && i + fraction + Exponent(s[i + fraction..]) >= k
  {
    hide *;
    FractionCoversAt(s, i, j);
    if i + fraction == j { ExponentCoversAt(s, j, k); }
  }

  /** A digit or a dot begins no exponent, a digit no fraction. */
  lemma DigitsAreNeither(s: Text, i: nat, j: nat, k: nat)
    requires i <= j <= k <= |s| && (j > i ==> s[i] == DOT) && (k > j ==> s[j] == 0x65 || s[j] == 0x45)
    ensures i < |s| && IsDigit(s[i]) ==> k == i
    ensures j < |s| && (IsDigit(s[j]) || s[j] == DOT) ==> k == j
  {
  }

  /** And what it takes is such a match. */
  lemma NumberIsMatch(s: Text) returns (g: nat, i: nat, j: nat)
    requires Number(s) > 0
    ensures NumberParse(s, g, i, j, Number(s))
  {
    NumberStarts(s);
    hide *;
    g := if s[0] == MINUS then 1 else 0;
    RunIsDigits(s, g);
    i := g + DigitRun(s[g..]);
    FractionIsMatchAt(s, i);
    j := i + Fraction(s[i..]);
    ExponentIsMatchAt(s, j);
    NumberUnfold(s, g, i, j);
    PartsAreParse(s, g, i, j, j + Exponent(s[j..]));
  }

  lemma PartsAreParse(s: Text, g: nat, i: nat, j: nat, k: nat)
    requires s != [] && g == (if s[0] == MINUS then 1 else 0) && g <= i <= j <= k <= |s|
    requires AllDigits(s[g..i]) && IsFraction(s[i..j]) && IsExponent(s[j..k])
    ensures NumberParse(s, g, i, j, k)
  {
  }

  lemma NumberStarts(s: Text)
    requires Number(s) > 0
    ensures s != [] && DigitRun(s[if s[0] == MINUS then 1 else 0..]) > 0
  {
    hide DigitRun, Fraction, Exponent;
  }

  lemma FractionIsMatchAt(s: Text, i: nat)
    requires i <= |s|
    ensures i + Fraction(s[i..]) <= |s| && IsFraction(s[i..i + Fraction(s[i..])])
  {
    FractionIsMatch(s[i..]);
    DropTake(s, i, i + Fraction(s[i..]));
    hide IsFraction, Fraction;
  }

  lemma ExponentIsMatchAt(s: Text, j: nat)
    requires j <= |s|
    ensures j + Exponent(s[j..]) <= |s| && IsExponent(s[j..j + Exponent(s[j..])])
  {
    ExponentIsMatch(s[j..]);
    DropTake(s, j, j + Exponent(s[j..]));
    hide IsExponent, Exponent;
  }

  lemma RunIsDigits(s: Text, g: nat)
    requires g <= |s| && DigitRun(s[g..]) > 0
    ensures g + DigitRun(s[g..]) <= |s| && AllDigits(s[g..g + DigitRun(s[g..])])
  {
    var n := DigitRun(s[g..]);
    var digits := s[g..g + n];
    forall x | 0 <= x < n ensures IsDigit(digits[x]) {
      DigitRunIsDigits(s[g..], x);
      assert digits[x] == s[g..][x];
    }
  }

  lemma PrefixIsDigits(s: Text, g: nat, n: nat)
    requires g < n <= |s| && DigitRun(s[g..]) == n - g
    ensures AllDigits(s[..n][g..])
  {
    var digits := s[..n][g..];
    forall x | 0 <= x < n - g ensures IsDigit(digits[x]) {
      DigitRunIsDigits(s[g..], x);
      assert digits[x] == s[g..][x];
    }
  }

  lemma FractionIsMatch(s: Text)
    ensures IsFraction(s[..Fraction(s)])
  {
    var n := Fraction(s);
    if n > 0 { PrefixIsDigits(s, 1, n); }
  }

  lemma ExponentIsMatch(s: Text)
    ensures IsExponent(s[..Exponent(s)])
  {
    var n := Exponent(s);
    if n > 0 {
      PrefixIsDigits(s, if s[1] == PLUS || s[1] == MINUS then 2 else 1, n);
    }
  }

  /** One of the words, up to a word boundary. */
  predicate IsKeyword(s: Text, word: Text) {
    word <= s && !StartsWord(s[|word|..])
  }

  /** The longest match at the head of `s`; `afterWord` says whether a word character precedes. */
  function MatchLength(afterWord: bool, s: Text): (n: nat)
    ensures n <= |s|
  {
    if s == [] then 0
    else if s[0] == QUOTE then if StringTail(s[1..]) == 0 then 0 else 1 + StringTail(s[1..])
    else if !afterWord && IsKeyword(s, TRUE) then |TRUE|
    else if !afterWord && IsKeyword(s, FALSE) then |FALSE|
    else if !afterWord && IsKeyword(s, NULL) then |NULL|
    else Number(s)
  }

  // --- Kinds ---

  datatype Kind = Key | String | Null | Boolean | Numeric | Punctuation

  datatype Token = Token(kind: Kind, text: Text)

  function SkipSpaces(s: Text): Text {
    if s == [] || !IsSpace(s[0]) then s else SkipSpaces(s[1..])
  }

  /** `/^\s*:/` on the next few units. */
  predicate ColonAhead(s: Text) {
    var ahead := SkipSpaces(if |s| <= LOOKAHEAD then s else s[..LOOKAHEAD]);
    ahead != [] && ahead[0] == COLON
  }

  predicate Contains(s: Text, word: Text) {
    exists i {:trigger s[i..]} :: 0 <= i <= |s| && word <= s[i..]
  }

  function KindOf(raw: Text, rest: Text): Kind
    requires raw != []
  {
    if raw[0] == QUOTE then if ColonAhead(rest) then Key else String
    else if raw == NULL then Null
    else if Contains(raw, TRUE) || Contains(raw, FALSE) then Boolean
    else Numeric
  }

  // --- The scan ---

  /** A match occupies `[from, to)`. */
  datatype Match = Match(from: nat, to: nat)

  datatype Search = Missing | Found(at: Match)

  predicate AfterWord(text: Text, at: nat)
    requires at <= |text|
  {
    at > 0 && IsWord(text[at - 1])
  }

  function LengthAt(text: Text, at: nat): nat
    requires at <= |text|
  {
    MatchLength(AfterWord(text, at), text[at..])
  }

  /** The leftmost match that starts at `at` or later, if any. */
  function NextMatch(text: Text, at: nat): (m: Search)
    requires at <= |text|
    ensures m.Found? ==> at <= m.at.from < m.at.to <= |text|
    decreases |text| - at
  {
    var n := LengthAt(text, at);
    if n > 0 then Found(Match(at, at + n))
    else if at == |text| then Missing
    else NextMatch(text, at + 1)
  }

  lemma {:induction false} NextMatchIsLeftmost(text: Text, at: nat, i: nat)
    requires at <= i <= |text|
    ensures
      match NextMatch(text, at)
      case Missing => LengthAt(text, i) == 0
      case Found(m) => (i < m.from ==> LengthAt(text, i) == 0) && m.to - m.from == LengthAt(text, m.from)
    decreases |text| - at
  {
    if LengthAt(text, at) == 0 && at < |text| {
      NextMatchIsLeftmost(text, at + 1, if i == at then i + 1 else i);
    }
  }

  /** `text.matchAll(pattern)` from `at` on. */
  function Matches(text: Text, at: nat): seq<Match>
    requires at <= |text|
    decreases |text| - at
  {
    match NextMatch(text, at)
    case Missing => []
    case Found(m) => [m] + Matches(text, m.to)
  }
}
