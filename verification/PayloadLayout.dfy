/** How a payload is laid out: the brackets, commas and colons around its parts, one part to a line,
    two spaces deeper for each level. */
module PayloadLayout {
  import opened PayloadLexer
  import opened PayloadJson

  /** Every line but the first moves two spaces to the right. */
  function Indented(text: Text): Text {
    if text == [] then []
    else if text[0] == NEWLINE then [NEWLINE, SPACE, SPACE] + Indented(text[1..])
    else text[..1] + Indented(text[1..])
  }

  lemma {:induction false} IndentedSum(a: Text, b: Text)
    ensures Indented(a + b) == Indented(a) + Indented(b)
  {
    if a == [] {
      assert a + b == b;
    } else {
      assert (a + b)[1..] == a[1..] + b && (a + b)[..1] == a[..1];
      IndentedSum(a[1..], b);
    }
  }

  predicate OneLine(text: Text) {
    forall i :: 0 <= i < |text| ==> text[i] != NEWLINE
  }

  lemma {:induction false} OneLineStays(text: Text)
    requires OneLine(text)
    ensures Indented(text) == text
  {
    if text != [] {
      assert text == text[..1] + text[1..];
      OneLineStays(text[1..]);
    }
  }

  lemma {:induction false} EscapedIsOneLine(s: Text)
    ensures OneLine(EscapeAll(s))
  {
    if s != [] {
      if |s| > 1 && IsHigh(s[0]) && IsLow(s[1]) { EscapedIsOneLine(s[2..]); } else { EscapedIsOneLine(s[1..]); }
    }
  }

  lemma QuotedStays(s: Text)
    ensures Indented(Quoted(s)) == Quoted(s)
  {
    EscapedIsOneLine(s);
    OneLineStays(Quoted(s));
  }

  lemma OneLineSum(a: Text, b: Text)
    requires OneLine(a) && OneLine(b)
    ensures OneLine(a + b)
  {
  }

  lemma NumberParts(n: Numeral)
    ensures OneLine(SignText(n)) && OneLine(n.whole) && OneLine(FractionText(n)) && OneLine(ExponentText(n))
  {
  }

  lemma NumberStays(n: Numeral)
    ensures Indented(NumberText(n)) == NumberText(n)
  {
    NumberParts(n);
    hide OneLine, Indented, SignText, FractionText, ExponentText;
    OneLineSum(SignText(n), n.whole);
    OneLineSum(SignText(n) + n.whole, FractionText(n));
    OneLineSum(SignText(n) + n.whole + FractionText(n), ExponentText(n));
    OneLineStays(NumberText(n));
  }

  lemma {:induction false} LineStartMoves(indent: nat)
    ensures Indented(LineStart(indent)) == LineStart(indent + 2)
  {
    assert LineStart(indent)[1..] == Spaces(indent);
    OneLineStays(Spaces(indent));
    assert [NEWLINE, SPACE, SPACE] + Spaces(indent) == LineStart(indent + 2);
  }

  // --- Deeper means further to the right, and nothing else ---

  lemma {:induction false} DeeperIsIndented(v: Json, indent: nat)
    ensures Indented(Print(v, indent)) == Print(v, indent + 2)
    decreases v, 0
  {
    match v
    case JNull => OneLineStays(NULL);
    case JBool(b) => OneLineStays(if b then TRUE else FALSE);
    case JNumber(n) => NumberStays(n);
    case JString(s) => QuotedStays(s);
    case JArray(items) =>
      if items == [] {
        OneLineStays([0x5b, 0x5d]);
      } else {
        DeeperItems(items, indent + 2);
        Bracketed(0x5b, PrintItems(items, indent + 2), indent, 0x5d);
      }
    case JObject(members) =>
      if members == [] {
        OneLineStays([0x7b, 0x7d]);
      } else {
        DeeperMembers(members, indent + 2);
        Bracketed(0x7b, PrintMembers(members, indent + 2), indent, 0x7d);
      }
  }

  lemma Bracketed(open: CodeUnit, inner: Text, indent: nat, close: CodeUnit)
    requires open != NEWLINE && close != NEWLINE
    ensures Indented([open] + inner + LineStart(indent) + [close]) ==
      [open] + Indented(inner) + LineStart(indent + 2) + [close]
  {
    OneLineStays([open]);
    OneLineStays([close]);
    LineStartMoves(indent);
    IndentedSum([open], inner);
    IndentedSum([open] + inner, LineStart(indent));
    IndentedSum([open] + inner + LineStart(indent), [close]);
  }

  lemma Following(first: Text, rest: Text, more: bool)
    ensures Indented(first + if more then [COMMA] + rest else []) ==
      Indented(first) + if more then [COMMA] + Indented(rest) else []
  {
    OneLineStays([COMMA]);
    IndentedSum([COMMA], rest);
    IndentedSum(first, if more then [COMMA] + rest else []);
  }

  lemma {:induction false} DeeperItems(items: seq<Json>, indent: nat)
    requires items != []
    ensures Indented(PrintItems(items, indent)) == PrintItems(items, indent + 2)
    decreases items, 1
  {
    var first := LineStart(indent) + Print(items[0], indent);
    LineStartMoves(indent);
    DeeperIsIndented(items[0], indent);
    IndentedSum(LineStart(indent), Print(items[0], indent));
    if |items| > 1 { DeeperItems(items[1..], indent); }
    Following(first, if |items| > 1 then PrintItems(items[1..], indent) else [], |items| > 1);
  }

  lemma {:induction false} DeeperMembers(members: seq<Member>, indent: nat)
    requires members != []
    ensures Indented(PrintMembers(members, indent)) == PrintMembers(members, indent + 2)
    decreases members, 1
  {
    var member := members[0];
    var key := LineStart(indent) + Quoted(member.key) + [COLON, SPACE];
    LineStartMoves(indent);
    QuotedStays(member.key);
    OneLineStays([COLON, SPACE]);
    DeeperIsIndented(member.value, indent);
    IndentedSum(LineStart(indent), Quoted(member.key));
    IndentedSum(LineStart(indent) + Quoted(member.key), [COLON, SPACE]);
    IndentedSum(key, Print(member.value, indent));
    if |members| > 1 { DeeperMembers(members[1..], indent); }
    Following(key + Print(member.value, indent), if |members| > 1 then PrintMembers(members[1..], indent) else [],
      |members| > 1);
  }

  // --- A payload from the texts of its parts ---

  /** One part to a line, two spaces in, with commas between them. */
  function Lines(parts: seq<Text>): Text {
    if parts == [] then []
    else [0x0a, 0x20, 0x20] + Indented(parts[0]) + if |parts| == 1 then [] else [0x2c] + Lines(parts[1..])
  }

  function Texts(items: seq<Json>): (texts: seq<Text>)
    ensures |texts| == |items|
    ensures forall i :: 0 <= i < |items| ==> texts[i] == SerializePayload(Defined(items[i]))
  {
    seq(|items|, i requires 0 <= i < |items| => SerializePayload(Defined(items[i])))
  }

  /** `"key": value`. */
  function MemberTexts(members: seq<Member>): (texts: seq<Text>)
    ensures |texts| == |members|
    ensures forall i :: 0 <= i < |members| ==>
      texts[i] == Quoted(members[i].key) + [0x3a, 0x20] + SerializePayload(Defined(members[i].value))
  {
    seq(|members|, i requires 0 <= i < |members| =>
      Quoted(members[i].key) + [0x3a, 0x20] + SerializePayload(Defined(members[i].value)))
  }

  lemma LineStartTwo()
    ensures LineStart(2) == [0x0a, 0x20, 0x20] && LineStart(0) == [0x0a]
  {
  }

  /** The first line, and what follows it. */
  lemma LinesUnfold(parts: seq<Text>)
    requires parts != []
    ensures Lines(parts) ==
      [0x0a, 0x20, 0x20] + Indented(parts[0]) + if |parts| == 1 then [] else [0x2c] + Lines(parts[1..])
  {
    hide Indented;
  }

  lemma ItemsUnfold(items: seq<Json>)
    requires items != []
    ensures PrintItems(items, 2) ==
      LineStart(2) + Print(items[0], 2) + if |items| == 1 then [] else [COMMA] + PrintItems(items[1..], 2)
    ensures Texts(items)[0] == Print(items[0], 0)
  {
    hide Print, LineStart;
  }

  lemma {:induction false} ItemsAreLines(items: seq<Json>)
    requires items != []
    ensures PrintItems(items, 2) == Lines(Texts(items))
    decreases |items|
  {
    hide Print, PrintItems, Indented, LineStart, Lines, Texts;
    LineStartTwo();
    DeeperIsIndented(items[0], 0);
    ItemsUnfold(items);
    LinesUnfold(Texts(items));
    TextsTail(items);
    if |items| > 1 { ItemsAreLines(items[1..]); }
  }

  lemma TextsTail(items: seq<Json>)
    requires items != []
    ensures Texts(items)[1..] == Texts(items[1..])
  {
    hide Print;
  }

  lemma MemberIndented(member: Member)
    ensures Indented(Quoted(member.key) + [COLON, SPACE] + Print(member.value, 0)) ==
      Quoted(member.key) + [COLON, SPACE] + Print(member.value, 2)
  {
    QuotedStays(member.key);
    OneLineStays([COLON, SPACE]);
    DeeperIsIndented(member.value, 0);
    IndentedSum(Quoted(member.key), [COLON, SPACE]);
    IndentedSum(Quoted(member.key) + [COLON, SPACE], Print(member.value, 0));
  }

  lemma MembersUnfold(members: seq<Member>)
    requires members != []
    ensures PrintMembers(members, 2) ==
      LineStart(2) + (Quoted(members[0].key) + [COLON, SPACE] + Print(members[0].value, 2)) +
      if |members| == 1 then [] else [COMMA] + PrintMembers(members[1..], 2)
    ensures MemberTexts(members)[0] == Quoted(members[0].key) + [COLON, SPACE] + Print(members[0].value, 0)
  {
    hide Print, LineStart, Quoted;
    JoinedAlike(LineStart(2), Quoted(members[0].key), [COLON, SPACE], Print(members[0].value, 2));
  }

  lemma JoinedAlike(a: Text, b: Text, c: Text, d: Text)
    ensures a + b + c + d == a + (b + c + d)
  {
  }

  lemma MembersTail(members: seq<Member>)
    requires members != []
    ensures MemberTexts(members)[1..] == MemberTexts(members[1..])
  {
    hide Print, Quoted;
  }

  lemma {:induction false} MembersAreLines(members: seq<Member>)
    requires members != []
    ensures PrintMembers(members, 2) == Lines(MemberTexts(members))
    decreases |members|
  {
    hide Print, PrintMembers, Indented, LineStart, Lines, MemberTexts, Quoted;
    LineStartTwo();
    MemberIndented(members[0]);
    MembersUnfold(members);
    LinesUnfold(MemberTexts(members));
    MembersTail(members);
    if |members| > 1 { MembersAreLines(members[1..]); }
  }

  /** An array is its items' own texts, and an object its keys with their values' own texts: between
      their brackets, each on its line, two spaces deeper than it would be alone, with commas between
      them. The empty ones are bare brackets, and an absent payload is null. */
  lemma PayloadIsLaidOut(items: seq<Json>, members: seq<Member>)
    ensures SerializePayload(Defined(JArray(items))) ==
      if items == [] then [0x5b, 0x5d] else [0x5b] + Lines(Texts(items)) + [0x0a, 0x5d]
    ensures SerializePayload(Defined(JObject(members))) ==
      if members == [] then [0x7b, 0x7d] else [0x7b] + Lines(MemberTexts(members)) + [0x0a, 0x7d]
    ensures SerializePayload(Undefined) == [0x6e, 0x75, 0x6c, 0x6c]
  {
    LineStartTwo();
    if items != [] {
      ItemsAreLines(items);
      assert [0x5b] + Lines(Texts(items)) + [0x0a] + [0x5d] == [0x5b] + Lines(Texts(items)) + [0x0a, 0x5d];
    }
    if members != [] {
      MembersAreLines(members);
      assert [0x7b] + Lines(MemberTexts(members)) + [0x0a] + [0x7d] ==
        [0x7b] + Lines(MemberTexts(members)) + [0x0a, 0x7d];
    }
  }

  // --- Scalars ---

  lemma ExponentIsSpelled(n: Numeral)
    ensures ExponentText(n) ==
      if |n.exponent| > 0 then ['e' as int, if n.exponentNegative then '-' as int else '+' as int] + n.exponent else []
  {
  }

  lemma FractionIsSpelled(n: Numeral)
    ensures FractionText(n) == if |n.fraction| > 0 then ['.' as int] + n.fraction else []
    ensures SignText(n) == if n.negative then ['-' as int] else []
  {
  }

  /** Numbers in decimal: sign, whole part, fraction behind a point, exponent behind an `e` with its
      sign. */
  lemma NumbersAreSpelled(n: Numeral)
    ensures
      SerializePayload(Defined(JNumber(n))) ==
      (if n.negative then ['-' as int] else []) + n.whole +
      (if |n.fraction| > 0 then ['.' as int] + n.fraction else []) +
      (if |n.exponent| > 0 then ['e' as int, if n.exponentNegative then '-' as int else '+' as int] + n.exponent
        else [])
  {
    ExponentIsSpelled(n);
    FractionIsSpelled(n);
    hide ExponentText, FractionText, SignText;
  }

  lemma WordsAreSpelled()
    ensures SerializePayload(Defined(JNull)) == [0x6e, 0x75, 0x6c, 0x6c]
    ensures SerializePayload(Defined(JBool(true))) == [0x74, 0x72, 0x75, 0x65]
    ensures SerializePayload(Defined(JBool(false))) == [0x66, 0x61, 0x6c, 0x73, 0x65]
  {
  }

  /** Only control characters, the quote, the backslash and lone surrogates are escaped: five controls
      and the two marks in two units, the others in six with small hexadecimal digits. */
  lemma EscapesAre(c: CodeUnit)
    ensures Escape(8) == ['\\' as int, 'b' as int] && Escape(9) == ['\\' as int, 't' as int]
    ensures Escape(10) == ['\\' as int, 'n' as int] && Escape(12) == ['\\' as int, 'f' as int]
    ensures Escape(13) == ['\\' as int, 'r' as int] && Escape('"' as int) == ['\\' as int, '"' as int]
    ensures Escape('\\' as int) == ['\\' as int, '\\' as int]
    ensures c in {8, 9, 10, 12, 13, '"' as int, '\\' as int} ||
      if c < 32 || IsHigh(c) || IsLow(c)
      then |Escape(c)| == 6 && Escape(c)[..2] == ['\\' as int, 'u' as int] &&
           forall i :: 2 <= i < 6 ==>
             '0' as int <= Escape(c)[i] <= '9' as int || 'a' as int <= Escape(c)[i] <= 'f' as int
      else Escape(c) == [c]
  {
  }
}
