/** `payloadSection`: the pages of a long payload partition its text. */
module PayloadSections {
  import opened Basics
  import opened PayloadLexer
  import opened PayloadTokens
  import opened PayloadJson

  const PAYLOAD_SECTION_SIZE := 12000

  datatype Section = Section(page: nat, total: nat, start: nat, end: nat, text: Text)

  /** `Math.ceil(n / size)`. */
  function CeilDiv(n: nat, size: nat): nat
    requires size > 0
  {
    (n + size - 1) / size
  }

  function Total(text: Text, size: nat): nat
    requires size > 0
  {
    Max(1, CeilDiv(|text|, size))
  }

  /** A cut between the two halves of a surrogate pair moves to before the pair. */
  predicate SplitsPair(text: Text, position: nat) {
    0 < position < |text| && IsHigh(text[position - 1]) && IsLow(text[position])
  }

  function Boundary(text: Text, position: nat): (p: nat)
    ensures p <= position <= p + 1
  {
    if SplitsPair(text, position) then position - 1 else position
  }

  function PageStart(text: Text, size: nat, page: nat): nat {
    Boundary(text, page * size)
  }

  function PageEnd(text: Text, size: nat, page: nat): nat {
    Boundary(text, Min((page + 1) * size, |text|))
  }

  /** A page that exists begins in the text, and only the last one reaches its end. */
  lemma PageBounds(text: Text, size: nat, page: nat)
    requires size > 0 && page < Total(text, size)
    ensures page * size <= |text|
    ensures page + 1 < Total(text, size) <==> (page + 1) * size < |text|
    ensures PageStart(text, size, page) <= PageEnd(text, size, page) <= |text|
  {
    var n := |text|;
    var total := CeilDiv(n, size);
    assert total * size <= n + size - 1 < (total + 1) * size by { Quotient(n + size - 1, size); }
    Products(page, total, size);
  }

  lemma Quotient(n: nat, d: nat)
    requires d > 0
    ensures n / d * d <= n < (n / d + 1) * d
  {
  }

  /** Order of multiples. */
  lemma Products(page: nat, total: nat, size: nat)
    requires size > 0
    ensures (page + 1) * size == page * size + size
    ensures page < total ==> (page + 1) * size <= total * size
    ensures page + 1 < total ==> (page + 2) * size <= total * size && (page + 2) * size == page * size + 2 * size
    ensures total <= page + 1 ==> total * size <= (page + 1) * size
    ensures (total + 1) * size == total * size + size
  {
  }

  function PayloadSection(text: Text, requestedPage: int := 0, size: nat := PAYLOAD_SECTION_SIZE): (section: Section)
    requires size > 0
  {
    var total := Total(text, size);
    var page := Max(0, Min(requestedPage, total - 1));
    PageBounds(text, size, page);
    var start, end := PageStart(text, size, page), PageEnd(text, size, page);
    Section(page, total, start, end, text[start..end])
  }

  /** Any requested page is shown as the nearest one there is. */
  lemma RequestedPageIsClamped(text: Text, requestedPage: int, size: nat)
    requires size > 0
    ensures
      var s := PayloadSection(text, requestedPage, size);
      0 <= s.page < s.total &&
      (0 <= requestedPage < s.total ==> s.page == requestedPage) &&
      (requestedPage < 0 ==> s.page == 0) && (requestedPage >= s.total ==> s.page == s.total - 1) &&
      s == PayloadSection(text, s.page, size)
  {
  }

  /** Sections follow each other without gap or overlap, from the first unit to the last. */
  lemma SectionsAreContiguous(text: Text, page: nat, size: nat)
    requires size > 0 && page < Total(text, size)
    ensures
      var s := PayloadSection(text, page, size);
      (page == 0 ==> s.start == 0) &&
      if page + 1 < s.total then s.end == PayloadSection(text, page + 1, size).start else s.end == |text|
  {
    PageBounds(text, size, page);
    if page + 1 < Total(text, size) { PageBounds(text, size, page + 1); }
  }

  /** No section begins or ends inside a surrogate pair, and moving cuts costs one unit. */
  lemma SectionsKeepPairs(text: Text, requestedPage: int, size: nat)
    requires size > 0
    ensures
      var s := PayloadSection(text, requestedPage, size);
      !SplitsPair(text, s.start) && !SplitsPair(text, s.end) && |s.text| <= size + 1
  {
    var s := PayloadSection(text, requestedPage, size);
    PageBounds(text, size, s.page);
    Products(s.page, 0, size);
    BoundaryKeepsPairs(text, s.page * size);
    BoundaryKeepsPairs(text, Min((s.page + 1) * size, |text|));
  }

  lemma BoundaryKeepsPairs(text: Text, position: nat)
    ensures !SplitsPair(text, Boundary(text, position))
  {
  }

  /** With room for a pair no section is empty, unless the text is. */
  lemma SectionsAreNonEmpty(text: Text, requestedPage: int, size: nat)
    requires size >= 2 && text != []
    ensures PayloadSection(text, requestedPage, size).text != []
  {
    var page := PayloadSection(text, requestedPage, size).page;
    PageBounds(text, size, page);
    Products(page, 0, size);
    if page > 0 {
      PageBounds(text, size, page - 1);
    }
  }

  /** Every section but the last is as long as asked for, give or take one unit, and there are no
      more sections than the text needs. */
  lemma SectionsAreFull(text: Text, page: nat, size: nat)
    requires size > 0 && page < Total(text, size)
    ensures
      var s := PayloadSection(text, page, size);
      (page + 1 < s.total ==> size - 1 <= |s.text| <= size + 1) && (text != [] ==> (s.total - 1) * size < |text|)
  {
    var total := Total(text, size);
    PageBounds(text, size, page);
    PageBounds(text, size, total - 1);
    Products(page, total, size);
    if total > 1 { PageBounds(text, size, total - 2); }
  }

  lemma SectionIsSlice(text: Text, page: nat, size: nat)
    requires size > 0 && page < Total(text, size)
    ensures
      var s := PayloadSection(text, page, size);
      s.page == page && s.total == Total(text, size) && s.start <= s.end <= |text| && s.text == text[s.start..s.end]
  {
    PageBounds(text, size, page);
  }

  lemma JoinSlices<T>(s: seq<T>, a: nat, b: nat)
    requires a <= b <= |s|
    ensures s[..a] + s[a..b] == s[..b]
  {
  }

  /** The texts of the first `n` sections, in order. */
  function SectionTexts(text: Text, size: nat, n: nat): Text
    requires size > 0 && n <= Total(text, size)
  {
    if n == 0 then [] else SectionTexts(text, size, n - 1) + PayloadSection(text, n - 1, size).text
  }

  lemma {:induction false} FirstSections(text: Text, size: nat, n: nat)
    requires size > 0 && 0 < n <= Total(text, size)
    ensures SectionTexts(text, size, n) == text[..PayloadSection(text, n - 1, size).end]
  {
    hide PayloadSection, Total;
    SectionIsSlice(text, n - 1, size);
    SectionsAreContiguous(text, n - 1, size);
    var s := PayloadSection(text, n - 1, size);
    JoinSlices(text, s.start, s.end);
    if n > 1 {
      SectionIsSlice(text, n - 2, size);
      SectionsAreContiguous(text, n - 2, size);
      FirstSections(text, size, n - 1);
    } else {
      assert SectionTexts(text, size, 0) == text[..0];
    }
  }

  /** All sections together are the text. */
  lemma SectionsPartitionText(text: Text, size: nat)
    requires size > 0
    ensures SectionTexts(text, size, Total(text, size)) == text
  {
    FirstSections(text, size, Total(text, size));
    SectionsAreContiguous(text, Total(text, size) - 1, size);
  }

  /** What the viewer paints: the tokens of the first `n` pages. */
  function PaintedTokens(text: Text, size: nat, n: nat): seq<Token>
    requires size > 0 && n <= Total(text, size)
  {
    if n == 0 then []
    else
      var s := PayloadSection(text, n - 1, size);
      PageBounds(text, size, s.page);
      PaintedTokens(text, size, n - 1) + Tokens(text, s.start, s.end)
  }

  lemma {:induction false} ReadsSum(a: seq<Token>, b: seq<Token>)
    ensures Texts(a + b) == Texts(a) + Texts(b) && Kinds(a + b) == Kinds(a) + Kinds(b)
  {
    hide Texts, Kinds, Same;
    if a == [] {
      ReadsNothing();
      assert a + b == b;
    } else {
      var rest := a[1..];
      ReadsSum(rest, b);
      ReadsCons(a[0], rest);
      ReadsCons(a[0], rest + b);
      assert a == [a[0]] + rest && a + b == [a[0]] + (rest + b);
    }
  }

  lemma {:induction false} FirstPages(text: Text, size: nat, n: nat)
    requires size > 0 && 0 < n <= Total(text, size)
    ensures
      var end := PayloadSection(text, n - 1, size).end;
      end <= |text| && Texts(PaintedTokens(text, size, n)) == text[..end] &&
        Kinds(PaintedTokens(text, size, n)) == TextKinds(text)[..end]
  {
    hide Texts, Kinds, TextKinds, Tokens, PayloadSection, Total;
    var s := PayloadSection(text, n - 1, size);
    SectionIsSlice(text, n - 1, size);
    SectionsAreContiguous(text, n - 1, size);
    WindowReads(text, s.start, s.end);
    ReadsSum(PaintedTokens(text, size, n - 1), Tokens(text, s.start, s.end));
    JoinSlices(text, s.start, s.end);
    JoinSlices(TextKinds(text), s.start, s.end);
    if n > 1 {
      SectionIsSlice(text, n - 2, size);
      SectionsAreContiguous(text, n - 2, size);
      FirstPages(text, size, n - 1);
    } else {
      ReadsNothing();
      assert text[..0] == [] && TextKinds(text)[..0] == [];
    }
  }

  /** Paging through a payload paints every unit once, in order, and in the colour it has when
      the text is tokenized in one piece. */
  lemma PagesPaintTheText(text: Text, size: nat)
    requires size > 0
    ensures
      var painted := PaintedTokens(text, size, Total(text, size));
      Texts(painted) == text && Kinds(painted) == TextKinds(text)
  {
    FirstPages(text, size, Total(text, size));
    SectionsAreContiguous(text, Total(text, size) - 1, size);
  }
}
