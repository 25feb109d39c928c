/** `serializePayload` and the round trip through the tokenizer: what the viewer's coloured tokens
    say is exactly what the payload holds. */
module PayloadJson {
  import opened PayloadLexer

  // --- JSON values and their two-space printing (section 25.5.2 of ECMA-262) ---

  type DigitString = ds: Text | forall i :: 0 <= i < |ds| ==> IsDigit(ds[i])
  type Digits = ds: DigitString | ds != [] witness [0x30]

  /** The decimal form of a finite number; an empty fraction or exponent is absent. */
  datatype Numeral = Numeral(negative: bool, whole: Digits, fraction: DigitString, exponentNegative: bool,
    exponent: DigitString)

  datatype Json =
    | JNull
    | JBool(b: bool)
    | JNumber(n: Numeral)
    | JString(s: Text)
    | JArray(items: seq<Json>)
    | JObject(members: seq<Member>)

  datatype Member = Member(key: Text, value: Json)

  datatype Payload = Undefined | Defined(value: Json)

  predicate IsHigh(c: CodeUnit) {
    0xd800 <= c <= 0xdbff
  }

  predicate IsLow(c: CodeUnit) {
    0xdc00 <= c <= 0xdfff
  }

  /** Lower-case, as `UnicodeEscape` writes it. */
  function HexDigit(d: nat): CodeUnit
    requires d < 16
  {
    if d < 10 then 0x30 + d else 0x61 + d - 10
  }

  function UnicodeEscape(c: CodeUnit): Text {
    [BACKSLASH, 0x75, HexDigit(c / 0x1000), HexDigit(c / 0x100 % 16), HexDigit(c / 0x10 % 16), HexDigit(c % 16)]
  }

  /** One unit that is not part of a surrogate pair. */
  function Escape(c: CodeUnit): Text {
    if c == 0x08 then [BACKSLASH, 0x62]
    else if c == 0x09 then [BACKSLASH, 0x74]
    else if c == 0x0a then [BACKSLASH, 0x6e]
    else if c == 0x0c then [BACKSLASH, 0x66]
    else if c == 0x0d then [BACKSLASH, 0x72]
    else if c == QUOTE || c == BACKSLASH then [BACKSLASH, c]
    else if c < 0x20 || IsHigh(c) || IsLow(c) then UnicodeEscape(c)
    else [c]
  }

  function EscapeAll(s: Text): Text {
    if s == [] then []
    else if |s| > 1 && IsHigh(s[0]) && IsLow(s[1]) then s[..2] + EscapeAll(s[2..])
    else Escape(s[0]) + EscapeAll(s[1..])
  }

  function Quoted(s: Text): Text {
    [QUOTE] + EscapeAll(s) + [QUOTE]
  }

  function SignText(n: Numeral): Text {
    if n.negative then [MINUS] else []
  }

  function FractionText(n: Numeral): Text {
    if n.fraction == [] then [] else [DOT] + n.fraction
  }

  function ExponentText(n: Numeral): Text {
    if n.exponent == [] then [] else [0x65, if n.exponentNegative then MINUS else PLUS] + n.exponent
  }

  function NumberText(n: Numeral): Text {
    SignText(n) + n.whole + FractionText(n) + ExponentText(n)
  }

  function Spaces(k: nat): Text {
    seq(k, _ => SPACE)
  }

  function LineStart(indent: nat): Text {
    [NEWLINE] + Spaces(indent)
  }

  function Print(v: Json, indent: nat): Text
    decreases v, 0
  {
    match v
    case JNull => NULL
    case JBool(b) => if b then TRUE else FALSE
    case JNumber(n) => NumberText(n)
    case JString(s) => Quoted(s)
    case JArray(items) => if items == [] then [0x5b, 0x5d]
      else [0x5b] + PrintItems(items, indent + 2) + LineStart(indent) + [0x5d]
    case JObject(members) =>
      if members == [] then [0x7b, 0x7d] else [0x7b] + PrintMembers(members, indent + 2) + LineStart(indent) + [0x7d]
  }

  function PrintItems(items: seq<Json>, indent: nat): Text
    requires items != []
    decreases items, 1
  {
    LineStart(indent) + Print(items[0], indent) + if |items| == 1 then [] else [COMMA] + PrintItems(items[1..], indent)
  }

  function PrintMembers(members: seq<Member>, indent: nat): Text
    requires members != []
    decreases members, 1
  {
    var member := members[0];
    LineStart(indent) + Quoted(member.key) + [COLON, SPACE] + Print(member.value, indent)
    + if |members| == 1 then [] else [COMMA] + PrintMembers(members[1..], indent)
  }

  function SerializePayload(payload: Payload): Text {
    Print(if payload.Undefined? then JNull else payload.value, 0)
  }

  // --- Reading the text of a string token back (section 7 of RFC 8259) ---

  function HexValue(c: CodeUnit): nat {
    if IsDigit(c) then c - 0x30 else if 0x61 <= c <= 0x66 then c - 0x61 + 10 else 0
  }

  function UnescapeAll(s: Text): Text {
    if s == [] then []
    else if s[0] != BACKSLASH || |s| == 1 then s[..1] + UnescapeAll(s[1..])
    else if s[1] == 0x75 && |s| >= 6 then
      var c := HexValue(s[2]) * 0x1000 + HexValue(s[3]) * 0x100 + HexValue(s[4]) * 0x10 + HexValue(s[5]);
      [c] + UnescapeAll(s[6..])
    else
      var c := if s[1] == 0x62 then 0x08 else if s[1] == 0x74 then 0x09 else if s[1] == 0x6e then 0x0a
               else if s[1] == 0x66 then 0x0c else if s[1] == 0x72 then 0x0d else s[1];
      [c] + UnescapeAll(s[2..])
  }

  function Unquoted(token: Text): Text {
    if |token| < 2 then [] else UnescapeAll(token[1..|token| - 1])
  }

  // --- The leaves of a value, in order ---

  datatype Leaf =
    | KeyLeaf(name: Text)
    | StringLeaf(s: Text)
    | NumberLeaf(decimal: Text)
    | BooleanLeaf(b: bool)
    | NullLeaf

  function Leaves(v: Json): seq<Leaf>
    decreases v, 0
  {
    match v
    case JNull => [NullLeaf]
    case JBool(b) => [BooleanLeaf(b)]
    case JNumber(n) => [NumberLeaf(NumberText(n))]
    case JString(s) => [StringLeaf(s)]
    case JArray(items) => ItemLeaves(items)
    case JObject(members) => MemberLeaves(members)
  }

  function ItemLeaves(items: seq<Json>): seq<Leaf>
    decreases items, 1
  {
    if items == [] then [] else Leaves(items[0]) + ItemLeaves(items[1..])
  }

  function MemberLeaves(members: seq<Member>): seq<Leaf>
    decreases members, 1
  {
    if members == [] then [] else [KeyLeaf(members[0].key)] + (Leaves(members[0].value) + MemberLeaves(members[1..]))
  }

  function LeafToken(leaf: Leaf): Token {
    match leaf
    case KeyLeaf(name) => Token(Key, Quoted(name))
    case StringLeaf(s) => Token(String, Quoted(s))
    case NumberLeaf(decimal) => Token(Numeric, decimal)
    case BooleanLeaf(b) => Token(Boolean, if b then TRUE else FALSE)
    case NullLeaf => Token(Null, NULL)
  }

  function LeafTokens(leaves: seq<Leaf>): seq<Token> {
    if leaves == [] then [] else [LeafToken(leaves[0])] + LeafTokens(leaves[1..])
  }

  /** What a token that is not punctuation says. */
  function Reading(token: Token): Leaf {
    match token.kind
    case Key => KeyLeaf(Unquoted(token.text))
    case String => StringLeaf(Unquoted(token.text))
    case Numeric => NumberLeaf(token.text)
    case Boolean => BooleanLeaf(token.text == TRUE)
    case _ => NullLeaf
  }

  /** The tokens that are not punctuation, read in order. */
  function Readings(tokens: seq<Token>): seq<Leaf> {
    if tokens == [] then []
    else if tokens[0].kind == Punctuation then Readings(tokens[1..])
    else [Reading(tokens[0])] + Readings(tokens[1..])
  }
}
