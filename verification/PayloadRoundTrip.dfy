/** The round trip: printing a payload and tokenizing it gives back what the payload holds. */
module PayloadRoundTrip {
  import opened PayloadLexer
  import opened PayloadTokens
  import opened PayloadJson

  // --- Scanning by suffix ---

  /** The matches of `s`, as tokens, when `afterWord` says what precedes it. */
  function Lexemes(afterWord: bool, s: Text): seq<Token>
    decreases |s|
  {
    if s == [] then [] else
    var n := MatchLength(afterWord, s);
    if n == 0 then Lexemes(IsWord(s[0]), s[1..])
    else [Token(KindOf(s[..n], s[n..]), s[..n])] + Lexemes(IsWord(s[n - 1]), s[n..])
  }

  function Significant(tokens: seq<Token>): seq<Token> {
    if tokens == [] then []
    else if tokens[0].kind == Punctuation then Significant(tokens[1..])
    else tokens[..1] + Significant(tokens[1..])
  }

  lemma MatchesUnfold(text: Text, at: nat)
    requires at <= |text|
    ensures
      var n := LengthAt(text, at);
      Matches(text, at) ==
      if n > 0 then [Match(at, at + n)] + Matches(text, at + n)
      else if at < |text| then Matches(text, at + 1) else []
  {
    hide MatchLength;
  }

  lemma DropDrop(s: Text, at: nat, n: nat)
    requires at + n <= |s|
    ensures s[at..][n..] == s[at + n..]
    ensures n > 0 ==> s[at..][n - 1] == s[at + n - 1]
  {
  }

  lemma LexemesUnfold(text: Text, at: nat)
    requires at <= |text|
    ensures
      var n := LengthAt(text, at);
      Lexemes(AfterWord(text, at), text[at..]) ==
      if n > 0 then [Token(KindOf(text[at..at + n], text[at + n..]), text[at..at + n])] +
        Lexemes(AfterWord(text, at + n), text[at + n..])
      else if at < |text| then Lexemes(AfterWord(text, at + 1), text[at + 1..]) else []
  {
    hide MatchLength, KindOf, IsWord;
    var n := LengthAt(text, at);
    DropTake(text, at, at + n);
    DropDrop(text, at, n);
    if at < |text| { DropDrop(text, at, 1); }
  }

  lemma {:induction false} LexemesFrom(text: Text, at: nat)
    requires at <= |text|
    ensures Ordered(text, Matches(text, at), at)
    ensures Lexemes(AfterWord(text, at), text[at..]) == MatchTokens(text, Matches(text, at), at)
    decreases |text| - at
  {
    hide KindOf, LengthAt, Lexemes, Matches;
    MatchesOrdered(text, at);
    MatchesUnfold(text, at);
    LexemesUnfold(text, at);
    var n := LengthAt(text, at);
    if n > 0 {
      LexemesFrom(text, at + n);
      assert Matches(text, at)[1..] == Matches(text, at + n);
    } else if at < |text| {
      LexemesFrom(text, at + 1);
      MatchTokensFrom(text, Matches(text, at), at, at + 1);
    }
  }

  lemma MatchTokensFrom(text: Text, ms: seq<Match>, at: nat, later: nat)
    requires Ordered(text, ms, at) && Ordered(text, ms, later)
    ensures MatchTokens(text, ms, at) == MatchTokens(text, ms, later)
  {
  }

  function MatchTokens(text: Text, ms: seq<Match>, at: nat): seq<Token>
    requires Ordered(text, ms, at)
  {
    if ms == [] then [] else [MatchToken(text, ms[0], 0, |text|)] + MatchTokens(text, ms[1..], ms[0].to)
  }

  lemma {:induction false} SignificantSum(a: seq<Token>, b: seq<Token>)
    ensures Significant(a + b) == Significant(a) + Significant(b)
  {
    hide Significant;
    if a == [] {
      assert a + b == b;
      SignificantNothing();
    } else {
      var rest := a[1..];
      SignificantSum(rest, b);
      SignificantCons(a[0], rest);
      SignificantCons(a[0], rest + b);
      assert a == [a[0]] + rest && a + b == [a[0]] + (rest + b);
    }
  }

  lemma SignificantNothing()
    ensures Significant([]) == []
  {
  }

  lemma SignificantCons(token: Token, rest: seq<Token>)
    ensures Significant([token] + rest) == (if token.kind == Punctuation then [] else [token]) + Significant(rest)
  {
    assert ([token] + rest)[1..] == rest && ([token] + rest)[..1] == [token];
  }

  lemma {:induction false} SignificantWhole(text: Text, ms: seq<Match>, at: nat)
    requires at <= |text| && Ordered(text, ms, at)
    ensures Significant(WholeFrom(text, ms, at)) == MatchTokens(text, ms, at)
    decreases |ms|
  {
    hide KindOf;
    if ms == [] {
      assert Significant(Gap(text, at, |text|)) == [];
    } else {
      var m, rest := ms[0], WholeFrom(text, ms[1..], ms[0].to);
      var token := MatchToken(text, m, 0, |text|);
      SignificantWhole(text, ms[1..], m.to);
      assert WholeFrom(text, ms, at) == Gap(text, at, m.from) + ([token] + rest);
      SignificantSum(Gap(text, at, m.from), [token] + rest);
      SignificantSum([token], rest);
      NotPunctuation(text[m.from..m.to], text[m.to..]);
      SignificantOne(text, at, m.from, token);
    }
  }

  lemma SignificantOne(text: Text, from: nat, to: nat, token: Token)
    requires to <= |text| && token.kind != Punctuation
    ensures Significant(Gap(text, from, to)) == [] && Significant([token]) == [token]
  {
  }

  lemma NotPunctuation(raw: Text, rest: Text)
    requires raw != []
    ensures KindOf(raw, rest) != Punctuation
  {
  }

  /** Dropping punctuation from the whole text's tokens leaves the matches of the pattern. */
  lemma TokensAreLexemes(text: Text)
    ensures Significant(Tokens(text, 0, |text|)) == Lexemes(false, text)
  {
    LexemesFrom(text, 0);
    SignificantWhole(text, Matches(text, 0), 0);
    assert text[0..] == text;
  }

  // --- What the scanner does with printed text ---

  /** Units that neither start a match nor are word characters. */
  predicate Inert(c: CodeUnit) {
    !IsWord(c) && c != QUOTE && c != MINUS
  }

  lemma SkipInert(afterWord: bool, c: CodeUnit, rest: Text)
    requires Inert(c)
    ensures Lexemes(afterWord, [c] + rest) == Lexemes(false, rest)
  {
    assert ([c] + rest)[1..] == rest && ([c] + rest)[0..] == [c] + rest;
  }

  lemma {:induction false} SkipIndent(k: nat, rest: Text)
    ensures Lexemes(false, Spaces(k) + rest) == Lexemes(false, rest)
  {
    if k == 0 {
      assert Spaces(0) + rest == rest;
    } else {
      assert Spaces(k) + rest == [SPACE] + (Spaces(k - 1) + rest);
      SkipInert(false, SPACE, Spaces(k - 1) + rest);
      SkipIndent(k - 1, rest);
    }
  }

  lemma SkipLineStart(indent: nat, rest: Text)
    ensures Lexemes(false, LineStart(indent) + rest) == Lexemes(false, rest)
  {
    assert LineStart(indent) + rest == [NEWLINE] + (Spaces(indent) + rest);
    SkipInert(false, NEWLINE, Spaces(indent) + rest);
    SkipIndent(indent, rest);
  }

  /** Only a word character that follows makes a difference to a preceding one. */
  lemma AfterWordIrrelevant(rest: Text)
    requires !StartsWord(rest)
    ensures Lexemes(true, rest) == Lexemes(false, rest)
  {
    hide MatchLength, KindOf, StartsWord;
    MatchIrrelevant(rest);
  }

  lemma MatchIrrelevant(rest: Text)
    requires !StartsWord(rest)
    ensures MatchLength(true, rest) == MatchLength(false, rest)
  {
    hide StringTail, Number;
  }

  /** A match of the first `n` units. */
  lemma LexOne(afterWord: bool, raw: Text, rest: Text)
    requires raw != [] && MatchLength(afterWord, raw + rest) == |raw|
    requires !IsWord(raw[|raw| - 1]) || !StartsWord(rest)
    ensures Lexemes(afterWord, raw + rest) == [Token(KindOf(raw, rest), raw)] + Lexemes(false, rest)
  {
    hide MatchLength, KindOf;
    assert (raw + rest)[..|raw|] == raw && (raw + rest)[|raw|..] == rest;
    if IsWord(raw[|raw| - 1]) { AfterWordIrrelevant(rest); }
  }

  // --- Strings ---

  lemma StringTailEscape(c: CodeUnit, rest: Text)
    ensures StringTail(Escape(c) + rest) == if StringTail(rest) == 0 then 0 else |Escape(c)| + StringTail(rest)
  {
    var e := Escape(c);
    if e == [c] {
      assert (e + rest)[1..] == rest;
    } else if |e| == 2 {
      assert (e + rest)[2..] == rest;
    } else {
      var h := e[2..];
      assert (e + rest)[2..] == h + rest;
      assert h + rest == [h[0]] + ([h[1]] + ([h[2]] + ([h[3]] + rest)));
      StringTailPlain(h[0], [h[1]] + ([h[2]] + ([h[3]] + rest)));
      StringTailPlain(h[1], [h[2]] + ([h[3]] + rest));
      StringTailPlain(h[2], [h[3]] + rest);
      StringTailPlain(h[3], rest);
    }
  }

  lemma StringTailPlain(c: CodeUnit, rest: Text)
    requires c != QUOTE && c != BACKSLASH
    ensures StringTail([c] + rest) == if StringTail(rest) == 0 then 0 else 1 + StringTail(rest)
  {
    assert ([c] + rest)[1..] == rest;
  }

  lemma {:induction false} StringTailEscapeAll(s: Text, rest: Text)
    ensures StringTail(EscapeAll(s) + ([QUOTE] + rest)) == |EscapeAll(s)| + 1
    decreases |s|
  {
    var end := [QUOTE] + rest;
    hide StringTail, Escape;
    if s == [] {
      assert EscapeAll(s) + end == end;
      StringTailQuote(rest);
    } else if |s| > 1 && IsHigh(s[0]) && IsLow(s[1]) {
      var tail := EscapeAll(s[2..]) + end;
      StringTailEscapeAll(s[2..], rest);
      assert EscapeAll(s) + end == [s[0]] + ([s[1]] + tail);
      StringTailPlain(s[0], [s[1]] + tail);
      StringTailPlain(s[1], tail);
    } else {
      var tail := EscapeAll(s[1..]) + end;
      StringTailEscapeAll(s[1..], rest);
      assert EscapeAll(s) + end == Escape(s[0]) + tail;
      StringTailEscape(s[0], tail);
    }
  }

  lemma StringTailQuote(rest: Text)
    ensures StringTail([QUOTE] + rest) == 1
  {
  }

  lemma LexString(afterWord: bool, s: Text, rest: Text)
    ensures Lexemes(afterWord, Quoted(s) + rest) ==
      [Token(if ColonAhead(rest) then Key else String, Quoted(s))] + Lexemes(false, rest)
  {
    StringTailEscapeAll(s, rest);
    assert (Quoted(s) + rest)[1..] == EscapeAll(s) + ([QUOTE] + rest);
    hide EscapeAll, StringTail;
    LexOne(afterWord, Quoted(s), rest);
  }

  // --- Numbers ---

  /** What may follow a printed value. */
  predicate Ends(rest: Text) {
    (rest == [] || rest[0] == COMMA || rest[0] == NEWLINE) && !ColonAhead(rest)
  }

  lemma {:induction false} DigitRunSum(ds: DigitString, rest: Text)
    requires rest == [] || !IsDigit(rest[0])
    ensures DigitRun(ds + rest) == |ds|
  {
    if ds == [] {
      assert ds + rest == rest;
    } else {
      DigitRunSum(ds[1..], rest);
      assert (ds + rest)[1..] == ds[1..] + rest;
    }
  }

  lemma ExponentOf(n: Numeral, rest: Text)
    requires Ends(rest)
    ensures Exponent(ExponentText(n) + rest) == |ExponentText(n)|
  {
    if n.exponent == [] {
      assert ExponentText(n) + rest == rest;
    } else {
      DigitRunSum(n.exponent, rest);
      assert (ExponentText(n) + rest)[2..] == n.exponent + rest;
    }
  }

  lemma FractionOf(n: Numeral, rest: Text)
    requires Ends(rest)
    ensures Fraction(FractionText(n) + (ExponentText(n) + rest)) == |FractionText(n)|
  {
    var after := ExponentText(n) + rest;
    assert after == [] || (!IsDigit(after[0]) && after[0] != DOT);
    if n.fraction == [] {
      assert FractionText(n) + after == after;
    } else {
      DigitRunSum(n.fraction, after);
      assert (FractionText(n) + after)[1..] == n.fraction + after;
    }
  }

  lemma WholeOf(n: Numeral, rest: Text)
    requires Ends(rest)
    ensures DigitRun(n.whole + (FractionText(n) + (ExponentText(n) + rest))) == |n.whole|
  {
    var after := FractionText(n) + (ExponentText(n) + rest);
    assert after == [] || !IsDigit(after[0]);
    hide *;
    DigitRunSum(n.whole, after);
  }

  lemma NumberOf(n: Numeral, rest: Text)
    requires Ends(rest)
    ensures Number(NumberText(n) + rest) == |NumberText(n)|
  {
    hide *;
    WholeOf(n, rest);
    FractionOf(n, rest);
    ExponentOf(n, rest);
    NumberDrops(n, rest);
    NumberUnfold(NumberText(n) + rest, |SignText(n)|, |SignText(n)| + |n.whole|,
      |SignText(n)| + |n.whole| + |FractionText(n)|);
  }

  lemma NumberDrops(n: Numeral, rest: Text)
    ensures
      var s, a, b, c := NumberText(n) + rest, |SignText(n)|, |n.whole|, |FractionText(n)|;
      |NumberText(n)| == a + b + c + |ExponentText(n)| && b > 0 && s != [] && a == (if s[0] == MINUS then 1 else 0) &&
      s[a..] == n.whole + (FractionText(n) + (ExponentText(n) + rest)) &&
      s[a + b..] == FractionText(n) + (ExponentText(n) + rest) && s[a + b + c..] == ExponentText(n) + rest
  {
    hide FractionText, ExponentText;
    Regroup(SignText(n), n.whole, FractionText(n), ExponentText(n), rest);
    assert (NumberText(n) + rest)[0] == if n.negative then MINUS else n.whole[0];
  }

  lemma Regroup(a: Text, b: Text, c: Text, d: Text, e: Text)
    ensures
      var s := a + b + c + d + e;
      s == a + (b + (c + (d + e))) && s[|a|..] == b + (c + (d + e)) && s[|a| + |b|..] == c + (d + e) &&
        s[|a| + |b| + |c|..] == d + e
  {
  }

  predicate NumberUnit(c: CodeUnit) {
    IsDigit(c) || c == MINUS || c == PLUS || c == DOT || c == 0x65
  }

  lemma NumberUnits(n: Numeral)
    ensures forall i :: 0 <= i < |NumberText(n)| ==> NumberUnit(NumberText(n)[i])
    ensures IsDigit(NumberText(n)[|NumberText(n)| - 1])
    ensures IsDigit(NumberText(n)[0]) || NumberText(n)[0] == MINUS
  {
  }

  lemma NumberIsNumeric(n: Numeral, rest: Text)
    ensures KindOf(NumberText(n), rest) == Numeric
  {
    NumberUnits(n);
    var raw := NumberText(n);
    forall i | 0 <= i <= |raw| ensures !(TRUE <= raw[i..]) && !(FALSE <= raw[i..]) {
      assert i < |raw| ==> raw[i..][0] == raw[i] && NumberUnit(raw[i]);
    }
  }

  lemma LexNumber(n: Numeral, rest: Text)
    requires Ends(rest)
    ensures Lexemes(false, NumberText(n) + rest) == [Token(Numeric, NumberText(n))] + Lexemes(false, rest)
  {
    assert !StartsWord(rest);
    hide Ends, NumberText, Number, MatchLength, KindOf, Lexemes;
    NumberOf(n, rest);
    NumberIsNumeric(n, rest);
    NumberUnits(n);
    NumberMatches(NumberText(n), rest);
    LexOne(false, NumberText(n), rest);
  }

  lemma NumberMatches(raw: Text, rest: Text)
    requires raw != [] && (IsDigit(raw[0]) || raw[0] == MINUS) && Number(raw + rest) == |raw|
    ensures MatchLength(false, raw + rest) == |raw|
  {
    assert (raw + rest)[0] == raw[0];
    hide Number, StringTail;
  }

  // --- Keywords ---

  lemma LexKeyword(word: Text, kind: Kind, rest: Text)
    requires (word == NULL && kind == Null) || ((word == TRUE || word == FALSE) && kind == Boolean)
    requires Ends(rest)
    ensures Lexemes(false, word + rest) == [Token(kind, word)] + Lexemes(false, rest)
  {
    assert (word + rest)[|word|..] == rest;
    assert word[0..] == word;
    assert KindOf(word, rest) == kind && MatchLength(false, word + rest) == |word|;
    hide KindOf, MatchLength, Ends;
    LexOne(false, word, rest);
  }

  // --- Line starts and brackets are no colons ---

  lemma {:induction false} SpacesThen(s: Text, k: nat)
    requires k < |s| && (forall i :: 0 <= i < k ==> IsSpace(s[i])) && !IsSpace(s[k]) && s[k] != COLON
    ensures !ColonAhead(s)
  {
    var ahead := if |s| <= LOOKAHEAD then s else s[..LOOKAHEAD];
    SkipAll(ahead, k);
  }

  lemma {:induction false} SkipAll(s: Text, k: nat)
    requires forall i :: 0 <= i < k && i < |s| ==> IsSpace(s[i])
    requires k < |s| ==> !IsSpace(s[k])
    ensures SkipSpaces(s) == if k < |s| then s[k..] else []
  {
    if s != [] && k > 0 {
      SkipAll(s[1..], k - 1);
    }
  }

  lemma CloseEnds(indent: nat, close: CodeUnit, rest: Text)
    requires close == 0x5d || close == 0x7d
    ensures Ends(LineStart(indent) + ([close] + rest))
  {
    SpacesThen(LineStart(indent) + ([close] + rest), indent + 1);
  }

  lemma CommaEnds(rest: Text)
    ensures Ends([COMMA] + rest)
  {
    SpacesThen([COMMA] + rest, 0);
  }

  lemma ColonFollows(rest: Text)
    ensures ColonAhead([COLON] + rest)
  {
    var s := [COLON] + rest;
    var ahead := if |s| <= LOOKAHEAD then s else s[..LOOKAHEAD];
    SkipAll(ahead, 0);
  }

  // --- Printing, then scanning ---

  lemma {:induction false} LeafTokensSum(a: seq<Leaf>, b: seq<Leaf>)
    ensures LeafTokens(a + b) == LeafTokens(a) + LeafTokens(b)
  {
    hide LeafToken, LeafTokens;
    if a == [] {
      NoLeafTokens();
      assert a + b == b;
    } else {
      var rest := a[1..];
      LeafTokensSum(rest, b);
      LeafTokensCons(a[0], rest);
      LeafTokensCons(a[0], rest + b);
      assert a == [a[0]] + rest && a + b == [a[0]] + (rest + b);
    }
  }

  lemma LeafTokensCons(leaf: Leaf, rest: seq<Leaf>)
    ensures LeafTokens([leaf] + rest) == [LeafToken(leaf)] + LeafTokens(rest)
  {
    assert ([leaf] + rest)[1..] == rest;
  }

  lemma NoLeafTokens()
    ensures LeafTokens([]) == []
  {
  }

  lemma LeafTokensOne(leaf: Leaf)
    ensures LeafTokens([leaf]) == [LeafToken(leaf)]
  {
  }

  lemma PrintLeaf(v: Json, indent: nat)
    requires !v.JArray? && !v.JObject?
    ensures
      var tokens := LeafTokens(Leaves(v));
      match v
      case JNull => Print(v, indent) == NULL && tokens == [Token(Null, NULL)]
      case JBool(b) => Print(v, indent) == (if b then TRUE else FALSE) &&
        tokens == [Token(Boolean, if b then TRUE else FALSE)]
      case JNumber(n) => Print(v, indent) == NumberText(n) && tokens == [Token(Numeric, NumberText(n))]
      case JString(s) => Print(v, indent) == Quoted(s) && tokens == [Token(String, Quoted(s))]
      case _ => true
  {
    LeafTokensOne(Leaves(v)[0]);
    hide LeafTokens, Quoted, NumberText;
  }

  lemma LexLeaf(v: Json, indent: nat, rest: Text)
    requires Ends(rest) && !v.JArray? && !v.JObject?
    ensures Lexemes(false, Print(v, indent) + rest) == LeafTokens(Leaves(v)) + Lexemes(false, rest)
  {
    assert !ColonAhead(rest);
    hide *;
    PrintLeaf(v, indent);
    if v.JNumber? {
      LexNumber(v.n, rest);
    } else if v.JString? {
      LexString(false, v.s, rest);
    } else if v.JNull? {
      LexKeyword(NULL, Null, rest);
    } else if v.b {
      LexKeyword(TRUE, Boolean, rest);
    } else {
      LexKeyword(FALSE, Boolean, rest);
    }
  }

  lemma {:induction false} LexValue(v: Json, indent: nat, rest: Text)
    requires Ends(rest)
    ensures Lexemes(false, Print(v, indent) + rest) == LeafTokens(Leaves(v)) + Lexemes(false, rest)
    decreases v, 0
  {
    hide Lexemes, Print, LeafTokens;
    if v.JArray? {
      assert v == JArray(v.items);
      LexArray(v.items, indent, rest);
    } else if v.JObject? {
      assert v == JObject(v.members);
      LexObject(v.members, indent, rest);
    } else {
      LexLeaf(v, indent, rest);
    }
  }

  lemma {:induction false} LexArray(items: seq<Json>, indent: nat, rest: Text)
    requires Ends(rest)
    ensures Lexemes(false, Print(JArray(items), indent) + rest) == LeafTokens(ItemLeaves(items)) + Lexemes(false, rest)
    decreases items, 2
  {
    hide Lexemes;
    if items == [] {
      assert Print(JArray(items), indent) + rest == [0x5b] + ([0x5d] + rest);
      SkipInert(false, 0x5b, [0x5d] + rest);
      SkipInert(false, 0x5d, rest);
    } else {
      var close := LineStart(indent) + ([0x5d] + rest);
      assert Print(JArray(items), indent) + rest == [0x5b] + (PrintItems(items, indent + 2) + close);
      SkipInert(false, 0x5b, PrintItems(items, indent + 2) + close);
      CloseEnds(indent, 0x5d, rest);
      LexItems(items, indent + 2, close);
      SkipLineStart(indent, [0x5d] + rest);
      SkipInert(false, 0x5d, rest);
    }
  }

  lemma {:induction false} LexItems(items: seq<Json>, indent: nat, rest: Text)
    requires items != [] && Ends(rest)
    ensures Lexemes(false, PrintItems(items, indent) + rest) == LeafTokens(ItemLeaves(items)) + Lexemes(false, rest)
    decreases items, 1
  {
    hide Lexemes, Print, Ends;
    var more := if |items| == 1 then rest else [COMMA] + (PrintItems(items[1..], indent) + rest);
    assert PrintItems(items, indent) + rest == LineStart(indent) + (Print(items[0], indent) + more);
    SkipLineStart(indent, Print(items[0], indent) + more);
    if |items| > 1 {
      CommaEnds(PrintItems(items[1..], indent) + rest);
      SkipInert(false, COMMA, PrintItems(items[1..], indent) + rest);
      LexItems(items[1..], indent, rest);
    } else {
      assert ItemLeaves(items[1..]) == [];
    }
    LexValue(items[0], indent, more);
    LeafTokensSum(Leaves(items[0]), ItemLeaves(items[1..]));
  }

  lemma {:induction false} LexObject(members: seq<Member>, indent: nat, rest: Text)
    requires Ends(rest)
    ensures Lexemes(false, Print(JObject(members), indent) + rest) ==
      LeafTokens(MemberLeaves(members)) + Lexemes(false, rest)
    decreases members, 2
  {
    hide Lexemes;
    if members == [] {
      assert Print(JObject(members), indent) + rest == [0x7b] + ([0x7d] + rest);
      SkipInert(false, 0x7b, [0x7d] + rest);
      SkipInert(false, 0x7d, rest);
    } else {
      var close := LineStart(indent) + ([0x7d] + rest);
      assert Print(JObject(members), indent) + rest == [0x7b] + (PrintMembers(members, indent + 2) + close);
      SkipInert(false, 0x7b, PrintMembers(members, indent + 2) + close);
      CloseEnds(indent, 0x7d, rest);
      LexMembers(members, indent + 2, close);
      SkipLineStart(indent, [0x7d] + rest);
      SkipInert(false, 0x7d, rest);
    }
  }

  lemma LexKey(key: Text, indent: nat, value: Text)
    ensures
      Lexemes(false, LineStart(indent) + (Quoted(key) + ([COLON] + ([SPACE] + value)))) ==
      [LeafToken(KeyLeaf(key))] + Lexemes(false, value)
  {
    hide Lexemes, Quoted, ColonAhead;
    SkipLineStart(indent, Quoted(key) + ([COLON] + ([SPACE] + value)));
    ColonFollows([SPACE] + value);
    LexString(false, key, [COLON] + ([SPACE] + value));
    SkipInert(false, COLON, [SPACE] + value);
    SkipInert(false, SPACE, value);
  }

  lemma SplitMembers(members: seq<Member>, indent: nat, more: Text, rest: Text)
    requires members != [] && more == if |members| == 1 then rest
      else [COMMA] + (PrintMembers(members[1..], indent) + rest)
    ensures
      var member := members[0];
      PrintMembers(members, indent) + rest ==
      LineStart(indent) + (Quoted(member.key) + ([COLON] + ([SPACE] + (Print(member.value, indent) + more))))
  {
    hide Print, Quoted;
  }

  lemma {:induction false} LexMembers(members: seq<Member>, indent: nat, rest: Text)
    requires members != [] && Ends(rest)
    ensures Lexemes(false, PrintMembers(members, indent) + rest) ==
      LeafTokens(MemberLeaves(members)) + Lexemes(false, rest)
    decreases members, 1
  {
    hide Lexemes, Print, Ends, LeafToken, Quoted, PrintMembers, LineStart;
    var member, others := members[0], members[1..];
    var more := if |members| == 1 then rest else [COMMA] + (PrintMembers(others, indent) + rest);
    SplitMembers(members, indent, more, rest);
    LexKey(member.key, indent, Print(member.value, indent) + more);
    if |members| > 1 {
      CommaEnds(PrintMembers(others, indent) + rest);
      SkipInert(false, COMMA, PrintMembers(others, indent) + rest);
      LexMembers(others, indent, rest);
    }
    LexValue(member.value, indent, more);
    MemberLeafTokens(members);
    hide Leaves, MemberLeaves, LeafTokens;
    JoinThree([LeafToken(KeyLeaf(member.key))], LeafTokens(Leaves(member.value)), LeafTokens(MemberLeaves(others)),
      Lexemes(false, rest));
    assert |members| == 1 ==> LeafTokens(MemberLeaves(others)) + Lexemes(false, rest) == Lexemes(false, rest);
  }

  lemma MemberLeafTokens(members: seq<Member>)
    requires members != []
    ensures
      LeafTokens(MemberLeaves(members)) ==
      [LeafToken(KeyLeaf(members[0].key))] + (LeafTokens(Leaves(members[0].value)) +
        LeafTokens(MemberLeaves(members[1..])))
    ensures |members| == 1 ==> LeafTokens(MemberLeaves(members[1..])) == []
  {
    hide Leaves, LeafToken, LeafTokens;
    var key, leaves, others := KeyLeaf(members[0].key), Leaves(members[0].value), MemberLeaves(members[1..]);
    NoLeafTokens();
    LeafTokensSum(leaves, others);
    LeafTokensSum([key], leaves + others);
    LeafTokensOne(key);
  }

  lemma JoinThree<T>(a: seq<T>, b: seq<T>, c: seq<T>, d: seq<T>)
    ensures a + (b + (c + d)) == (a + (b + c)) + d
  {
  }

  // --- Reading tokens back ---

  lemma HexRoundTrip(c: CodeUnit)
    ensures
      var e := UnicodeEscape(c);
      HexValue(e[2]) * 0x1000 + HexValue(e[3]) * 0x100 + HexValue(e[4]) * 0x10 + HexValue(e[5]) == c
  {
    HexDigitRoundTrip(c / 0x1000);
    HexDigitRoundTrip(c / 0x100 % 16);
    HexDigitRoundTrip(c / 0x10 % 16);
    HexDigitRoundTrip(c % 16);
    assert c / 0x100 / 16 == c / 0x1000 && c / 0x10 / 16 == c / 0x100;
  }

  lemma HexDigitRoundTrip(d: nat)
    requires d < 16
    ensures HexValue(HexDigit(d)) == d
  {
  }

  lemma UnescapeUnicode(c: CodeUnit, rest: Text)
    ensures UnescapeAll(UnicodeEscape(c) + rest) == [c] + UnescapeAll(rest)
  {
    var s := UnicodeEscape(c) + rest;
    HexRoundTrip(c);
    assert s[6..] == rest && s[2] == UnicodeEscape(c)[2] && s[3] == UnicodeEscape(c)[3] &&
      s[4] == UnicodeEscape(c)[4] && s[5] == UnicodeEscape(c)[5];
    assert s[0] == BACKSLASH && s[1] == 0x75;
    hide UnicodeEscape, HexValue;
  }

  lemma UnescapeShort(c: CodeUnit, code: CodeUnit, rest: Text)
    requires code != 0x75
    requires c == if code == 0x62 then 0x08 else if code == 0x74 then 0x09 else if code == 0x6e then 0x0a
                  else if code == 0x66 then 0x0c else if code == 0x72 then 0x0d else code
    ensures UnescapeAll([BACKSLASH, code] + rest) == [c] + UnescapeAll(rest)
  {
    var s := [BACKSLASH, code] + rest;
    assert s[2..] == rest && s[0] == BACKSLASH && s[1] == code;
  }

  lemma UnescapeEscape(c: CodeUnit, rest: Text)
    ensures UnescapeAll(Escape(c) + rest) == [c] + UnescapeAll(rest)
  {
    var e := Escape(c);
    if |e| == 1 {
      UnescapePlain(c, rest);
    } else if |e| == 2 {
      assert e == [BACKSLASH, e[1]];
      hide UnescapeAll;
      UnescapeShort(c, e[1], rest);
    } else {
      hide UnescapeAll;
      UnescapeUnicode(c, rest);
    }
  }

  lemma UnescapePlain(c: CodeUnit, rest: Text)
    requires c != BACKSLASH
    ensures UnescapeAll([c] + rest) == [c] + UnescapeAll(rest)
  {
    assert ([c] + rest)[1..] == rest && ([c] + rest)[..1] == [c];
  }

  /** Unescaping undoes escaping, whatever the units: control characters, quotes, backslashes,
      surrogate pairs and lone surrogates. */
  lemma {:induction false} UnescapeEscapeAll(s: Text)
    ensures UnescapeAll(EscapeAll(s)) == s
    decreases |s|
  {
    hide Escape, UnescapeAll;
    if s == [] {
      UnescapeNothing();
    } else if |s| > 1 && IsHigh(s[0]) && IsLow(s[1]) {
      var tail := EscapeAll(s[2..]);
      UnescapeEscapeAll(s[2..]);
      assert EscapeAll(s) == [s[0]] + ([s[1]] + tail);
      UnescapePlain(s[0], [s[1]] + tail);
      UnescapePlain(s[1], tail);
    } else {
      UnescapeEscapeAll(s[1..]);
      UnescapeEscape(s[0], EscapeAll(s[1..]));
    }
  }

  lemma UnescapeNothing()
    ensures UnescapeAll([]) == []
  {
  }

  /** Unquoting a printed string gives the string. */
  lemma UnquotedQuoted(s: Text)
    ensures Unquoted(Quoted(s)) == s
  {
    UnescapeEscapeAll(s);
    assert Quoted(s)[1..|Quoted(s)| - 1] == EscapeAll(s);
  }

  lemma ReadingLeaf(leaf: Leaf)
    ensures LeafToken(leaf).kind != Punctuation && Reading(LeafToken(leaf)) == leaf
  {
    if leaf.KeyLeaf? { UnquotedQuoted(leaf.name); }
    if leaf.StringLeaf? { UnquotedQuoted(leaf.s); }
  }

  lemma {:induction false} ReadingsOfLeaves(tokens: seq<Token>, leaves: seq<Leaf>)
    requires Significant(tokens) == LeafTokens(leaves)
    ensures Readings(tokens) == leaves
    decreases |tokens|
  {
    hide Reading, LeafToken;
    if tokens != [] {
      if tokens[0].kind == Punctuation {
        ReadingsOfLeaves(tokens[1..], leaves);
      } else {
        assert leaves != [];
        ReadingLeaf(leaves[0]);
        assert Significant(tokens)[1..] == Significant(tokens[1..]) &&
          LeafTokens(leaves)[1..] == LeafTokens(leaves[1..]);
        ReadingsOfLeaves(tokens[1..], leaves[1..]);
      }
    } else {
      assert leaves == [];
    }
  }

  /** The viewer shows exactly the payload: its tokens, read in order, are the value's keys,
      strings, numbers, booleans and nulls, each of the right kind. */
  lemma TokensReadPayload(payload: Payload)
    ensures
      var text := SerializePayload(payload);
      Readings(Tokens(text, 0, |text|)) == if payload.Undefined? then [NullLeaf] else Leaves(payload.value)
  {
    var v := if payload.Undefined? then JNull else payload.value;
    var text := Print(v, 0);
    hide Print, Lexemes, Significant, LeafTokens, Tokens, Leaves;
    LexValue(v, 0, []);
    assert text + [] == text;
    TokensAreLexemes(text);
    assert Lexemes(false, []) == [];
    ReadingsOfLeaves(Tokens(text, 0, |text|), Leaves(v));
  }
}
