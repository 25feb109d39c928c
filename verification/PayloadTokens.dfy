/** `payloadTokens`: the tokens of a window of the text are exactly the tokens of the whole text,
    cut to the window. */
module PayloadTokens {
  import opened Basics
  import opened PayloadLexer

  // --- What the loop computes ---

  function MatchToken(text: Text, m: Match, start: nat, end: nat): Token
    requires m.from < m.to <= |text| && start < m.to && m.from < end <= |text| && start <= end
  {
    Token(KindOf(text[m.from..m.to], text[m.to..]), text[Max(m.from, start)..Min(m.to, end)])
  }

  function Gap(text: Text, from: nat, to: nat): seq<Token>
    requires to <= |text|
  {
    if from < to then [Token(Punctuation, text[from..to])] else []
  }

  predicate Ordered(text: Text, ms: seq<Match>, at: nat) {
    ms == [] || (at <= ms[0].from < ms[0].to <= |text| && Ordered(text, ms[1..], ms[0].to))
  }

  /** The tokens of `[cursor, end)`, of which `[start, cursor)` is done. */
  function TokensFrom(text: Text, ms: seq<Match>, at: nat, cursor: nat, start: nat, end: nat): seq<Token>
    requires Ordered(text, ms, at) && start <= cursor <= end <= |text|
  {
    if ms == [] || (ms[0].to > start && ms[0].from >= end) then Gap(text, cursor, end)
    else if ms[0].to <= start then TokensFrom(text, ms[1..], ms[0].to, cursor, start, end)
    else
      Gap(text, cursor, Min(ms[0].from, end)) + [MatchToken(text, ms[0], start, end)]
      + TokensFrom(text, ms[1..], ms[0].to, Min(ms[0].to, end), start, end)
  }

  lemma {:induction false} MatchesOrdered(text: Text, at: nat)
    requires at <= |text|
    ensures Ordered(text, Matches(text, at), at)
    decreases |text| - at
  {
    match NextMatch(text, at)
    case Missing =>
    case Found(m) =>
      MatchesOrdered(text, m.to);
      assert Matches(text, at)[1..] == Matches(text, m.to);
  }

  function Tokens(text: Text, start: nat, end: nat): seq<Token>
    requires start <= end <= |text|
  {
    MatchesOrdered(text, 0);
    TokensFrom(text, Matches(text, 0), 0, start, start, end)
  }

  /** One turn of the loop. */
  lemma TokensStep(text: Text, at: nat, cursor: nat, start: nat, end: nat)
    requires at <= |text| && start <= cursor <= end <= |text| && Ordered(text, Matches(text, at), at)
    ensures
      var rest := TokensFrom(text, Matches(text, at), at, cursor, start, end);
      match NextMatch(text, at)
      case Missing => rest == Gap(text, cursor, end)
      case Found(m) =>
        Ordered(text, Matches(text, m.to), m.to) &&
        if m.to <= start then rest == TokensFrom(text, Matches(text, m.to), m.to, cursor, start, end)
        else if m.from >= end then rest == Gap(text, cursor, end)
        else rest == Gap(text, cursor, Min(m.from, end)) + [MatchToken(text, m, start, end)]
                     + TokensFrom(text, Matches(text, m.to), m.to, Min(m.to, end), start, end)
  {
    hide NextMatch, KindOf;
    match NextMatch(text, at)
    case Missing =>
    case Found(m) => assert Matches(text, at)[0] == m && Matches(text, at)[1..] == Matches(text, m.to);
  }

  method PayloadTokens(text: Text, start: nat, end: nat) returns (tokens: seq<Token>)
    requires start <= end <= |text|
    ensures tokens == Tokens(text, start, end)
    ensures Texts(tokens) == text[start..end] && Kinds(tokens) == TextKinds(text)[start..end]
  {
    hide Texts, Kinds, TextKinds;
    WindowReads(text, start, end);
    hide NextMatch, KindOf, Matches, Ordered, TokensFrom;
    tokens := [];
    var cursor := start;
    var at := 0;
    MatchesOrdered(text, 0);
    ghost var all := Tokens(text, start, end);
    while true
      invariant at <= |text| && start <= cursor <= end && Ordered(text, Matches(text, at), at)
      invariant all == tokens + TokensFrom(text, Matches(text, at), at, cursor, start, end)
      decreases |text| - at
    {
      var next := NextMatch(text, at);
      TokensStep(text, at, cursor, start, end);
      if next.Missing? {
        break;
      }
      var m := next.at;
      if m.to <= start {
        at := m.to;
        continue;
      }
      if m.from >= end {
        break;
      }
      ghost var gap, rest := Gap(text, cursor, Min(m.from, end)),
        TokensFrom(text, Matches(text, m.to), m.to, Min(m.to, end), start, end);
      var token := Token(KindOf(text[m.from..m.to], text[m.to..]), text[Max(m.from, start)..Min(m.to, end)]);
      Regroup(tokens, gap, [token], rest);
      if m.from > cursor {
        tokens := tokens + [Token(Punctuation, text[cursor..Min(m.from, end)])];
      }
      tokens := tokens + [token];
      cursor := Min(m.to, end);
      at := m.to;
    }
    if cursor < end {
      tokens := tokens + [Token(Punctuation, text[cursor..end])];
    }
  }

  lemma Regroup<T>(a: seq<T>, b: seq<T>, c: seq<T>, d: seq<T>)
    ensures a + (b + c + d) == (a + b) + c + d
    ensures b == [] ==> a + (b + c + d) == a + c + d
  {
  }

  // --- Reading a token sequence ---

  function Texts(tokens: seq<Token>): Text {
    if tokens == [] then [] else tokens[0].text + Texts(tokens[1..])
  }

  function Same(kind: Kind, n: nat): (kinds: seq<Kind>)
    ensures |kinds| == n && forall i :: 0 <= i < n ==> kinds[i] == kind
  {
    seq(n, _ => kind)
  }

  function Kinds(tokens: seq<Token>): (kinds: seq<Kind>)
    ensures |kinds| == |Texts(tokens)|
  {
    if tokens == [] then [] else Same(tokens[0].kind, |tokens[0].text|) + Kinds(tokens[1..])
  }

  /** What of `s`, which begins at `at`, lies in `[start, end)`. */
  function Cut<T>(s: seq<T>, at: nat, start: nat, end: nat): seq<T> {
    var from, to := Max(at, start), Min(at + |s|, end);
    if from < to then s[from - at..to - at] else []
  }

  /** The tokens cut to `[start, end)` when the first one begins at `at`; what lies outside is
      dropped. */
  function Clip(tokens: seq<Token>, at: nat, start: nat, end: nat): seq<Token> {
    if tokens == [] then []
    else
      var piece := Cut(tokens[0].text, at, start, end);
      (if piece == [] then [] else [Token(tokens[0].kind, piece)]) +
        Clip(tokens[1..], at + |tokens[0].text|, start, end)
  }

  // --- A window is the whole text's tokens, cut ---

  function WholeFrom(text: Text, ms: seq<Match>, at: nat): seq<Token>
    requires at <= |text| && Ordered(text, ms, at)
  {
    TokensFrom(text, ms, at, at, 0, |text|)
  }

  lemma {:induction false} ClipBeyond(tokens: seq<Token>, at: nat, start: nat, end: nat)
    requires end <= at
    ensures Clip(tokens, at, start, end) == []
  {
    if tokens != [] { ClipBeyond(tokens[1..], at + |tokens[0].text|, start, end); }
  }

  lemma ClipCons(token: Token, rest: seq<Token>, at: nat, start: nat, end: nat)
    ensures
      var piece := Cut(token.text, at, start, end);
      Clip([token] + rest, at, start, end) ==
        (if piece == [] then [] else [Token(token.kind, piece)]) + Clip(rest, at + |token.text|, start, end)
  {
    assert ([token] + rest)[1..] == rest;
  }

  lemma SliceOfSlice<T>(s: seq<T>, from: nat, to: nat, a: nat, b: nat)
    requires from <= a <= b <= to <= |s|
    ensures s[from..to][a - from..b - from] == s[a..b]
  {
    var t := s[from..to];
    var u := t[a - from..b - from];
    assert |u| == b - a;
    forall i | 0 <= i < b - a ensures u[i] == s[a..b][i] {
      assert u[i] == t[a - from + i] == s[a + i];
    }
  }

  /** Cutting a slice of the text. */
  lemma CutSlice(text: Text, from: nat, to: nat, start: nat, end: nat)
    requires from <= to <= |text| && end <= |text|
    ensures Cut(text[from..to], from, start, end) ==
      (if Max(from, start) < Min(to, end) then text[Max(from, start)..Min(to, end)] else [])
  {
    var a, b := Max(from, start), Min(to, end);
    if a < b { SliceOfSlice(text, from, to, a, b); }
  }

  lemma ClipGap(text: Text, from: nat, to: nat, rest: seq<Token>, start: nat, end: nat)
    requires from <= to <= |text| && start < end <= |text|
    ensures Clip(Gap(text, from, to) + rest, from, start, end) ==
      Gap(text, Max(from, start), Min(to, end)) + Clip(rest, to, start, end)
  {
    hide Clip, Cut;
    CutSlice(text, from, to, start, end);
    if from < to {
      ClipCons(Token(Punctuation, text[from..to]), rest, from, start, end);
    } else {
      assert Gap(text, from, to) + rest == rest;
    }
  }

  lemma ClipMatch(text: Text, m: Match, rest: seq<Token>, start: nat, end: nat)
    requires m.from < m.to <= |text| && start < end <= |text|
    ensures
      Clip([MatchToken(text, m, 0, |text|)] + rest, m.from, start, end) ==
      (if start < m.to && m.from < end then [MatchToken(text, m, start, end)] else []) + Clip(rest, m.to, start, end)
  {
    hide KindOf, Clip, Cut, MatchToken;
    WholeMatch(text, m, start, end);
    CutSlice(text, m.from, m.to, start, end);
    ClipCons(MatchToken(text, m, 0, |text|), rest, m.from, start, end);
  }

  lemma WholeMatch(text: Text, m: Match, start: nat, end: nat)
    requires m.from < m.to <= |text| && start < end <= |text|
    ensures MatchToken(text, m, 0, |text|).text == text[m.from..m.to]
    ensures
      start < m.to && m.from < end ==>
        MatchToken(text, m, start, end) == Token(MatchToken(text, m, 0, |text|).kind,
          text[Max(m.from, start)..Min(m.to, end)]) &&
        Max(m.from, start) < Min(m.to, end)
  {
    hide KindOf;
  }

  lemma {:induction false} WindowFrom(text: Text, ms: seq<Match>, at: nat, start: nat, end: nat)
    requires at <= |text| && Ordered(text, ms, at) && start < end <= |text|
    ensures TokensFrom(text, ms, at, Min(Max(at, start), end), start, end) ==
      Clip(WholeFrom(text, ms, at), at, start, end)
    decreases |ms|
  {
    hide KindOf, Clip;
    if ms == [] {
      ClipGap(text, at, |text|, [], start, end);
      ClipBeyond([], |text|, start, end);
      assert Gap(text, at, |text|) + [] == Gap(text, at, |text|);
    } else {
      hide TokensFrom;
      WindowFrom(text, ms[1..], ms[0].to, start, end);
      WindowCons(text, ms, at, start, end);
    }
  }

  /** What cutting does to a gap, a match and the rest. */
  lemma ClipParts(text: Text, m: Match, at: nat, rest: seq<Token>, start: nat, end: nat)
    requires at <= m.from < m.to <= |text| && start < end <= |text|
    ensures
      Clip(Gap(text, at, m.from) + ([MatchToken(text, m, 0, |text|)] + rest), at, start, end) ==
      Gap(text, Max(at, start), Min(m.from, end))
      + ((if start < m.to && m.from < end then [MatchToken(text, m, start, end)] else []) +
        Clip(rest, m.to, start, end))
  {
    hide KindOf, Clip;
    ClipMatch(text, m, rest, start, end);
    ClipGap(text, at, m.from, [MatchToken(text, m, 0, |text|)] + rest, start, end);
  }

  lemma WindowCons(text: Text, ms: seq<Match>, at: nat, start: nat, end: nat)
    requires ms != [] && at <= |text| && Ordered(text, ms, at) && start < end <= |text|
    requires
      var to := ms[0].to;
      TokensFrom(text, ms[1..], to, Min(Max(to, start), end), start, end) ==
        Clip(WholeFrom(text, ms[1..], to), to, start, end)
    ensures TokensFrom(text, ms, at, Min(Max(at, start), end), start, end) ==
      Clip(WholeFrom(text, ms, at), at, start, end)
  {
    hide KindOf, Clip;
    var m, rest := ms[0], WholeFrom(text, ms[1..], ms[0].to);
    assert WholeFrom(text, ms, at) == Gap(text, at, m.from) + ([MatchToken(text, m, 0, |text|)] + rest);
    ClipParts(text, m, at, rest, start, end);
    if m.from >= end { ClipBeyond(rest, m.to, start, end); }
  }

  /** Windowed tokenization refines whole-text tokenization. */
  lemma WindowIsClippedWhole(text: Text, start: nat, end: nat)
    requires start < end <= |text|
    ensures Tokens(text, start, end) == Clip(Tokens(text, 0, |text|), 0, start, end)
  {
    MatchesOrdered(text, 0);
    WindowFrom(text, Matches(text, 0), 0, start, end);
  }

  lemma ReadsCons(token: Token, rest: seq<Token>)
    ensures Texts([token] + rest) == token.text + Texts(rest)
    ensures Kinds([token] + rest) == Same(token.kind, |token.text|) + Kinds(rest)
  {
    assert ([token] + rest)[1..] == rest;
  }

  lemma CutLength<T>(s: seq<T>, at: nat, start: nat, end: nat)
    ensures |Cut(s, at, start, end)| == Max(0, Min(at + |s|, end) - Max(at, start))
  {
  }

  lemma CutAt<T>(s: seq<T>, at: nat, start: nat, end: nat, i: nat)
    requires i < |Cut(s, at, start, end)|
    ensures Max(at, start) - at + i < |s| && Cut(s, at, start, end)[i] == s[Max(at, start) - at + i]
  {
  }

  lemma CutSum<T>(x: seq<T>, y: seq<T>, at: nat, start: nat, end: nat)
    ensures Cut(x + y, at, start, end) == Cut(x, at, start, end) + Cut(y, at + |x|, start, end)
  {
    hide Cut;
    var whole, left, right := Cut(x + y, at, start, end), Cut(x, at, start, end), Cut(y, at + |x|, start, end);
    CutLength(x + y, at, start, end);
    CutLength(x, at, start, end);
    CutLength(y, at + |x|, start, end);
    forall i | 0 <= i < |whole| ensures whole[i] == (left + right)[i] {
      CutAt(x + y, at, start, end, i);
      if i < |left| { CutAt(x, at, start, end, i); } else { CutAt(y, at + |x|, start, end, i - |left|); }
    }
  }

  lemma CutSame(kind: Kind, text: Text, at: nat, start: nat, end: nat)
    ensures Cut(Same(kind, |text|), at, start, end) == Same(kind, |Cut(text, at, start, end)|)
  {
  }

  lemma {:induction false} ClipReads(tokens: seq<Token>, at: nat, start: nat, end: nat)
    ensures Texts(Clip(tokens, at, start, end)) == Cut(Texts(tokens), at, start, end)
    ensures Kinds(Clip(tokens, at, start, end)) == Cut(Kinds(tokens), at, start, end)
  {
    if tokens == [] {
    } else {
      var token, rest := tokens[0], tokens[1..];
      ClipReads(rest, at + |token.text|, start, end);
      hide Clip, Texts, Kinds, Cut;
      ClipReadsCons(token, rest, at, start, end);
      assert tokens == [token] + rest;
    }
  }

  lemma ClipReadsCons(token: Token, rest: seq<Token>, at: nat, start: nat, end: nat)
    requires Texts(Clip(rest, at + |token.text|, start, end)) == Cut(Texts(rest), at + |token.text|, start, end)
    requires Kinds(Clip(rest, at + |token.text|, start, end)) == Cut(Kinds(rest), at + |token.text|, start, end)
    ensures Texts(Clip([token] + rest, at, start, end)) == Cut(Texts([token] + rest), at, start, end)
    ensures Kinds(Clip([token] + rest, at, start, end)) == Cut(Kinds([token] + rest), at, start, end)
  {
    hide Clip, Texts, Kinds, Cut;
    var piece, n := Cut(token.text, at, start, end), |token.text|;
    var clipped := Clip(rest, at + n, start, end);
    ReadsCons(token, rest);
    ClipCons(token, rest, at, start, end);
    CutSum(token.text, Texts(rest), at, start, end);
    CutSum(Same(token.kind, n), Kinds(rest), at, start, end);
    CutSame(token.kind, token.text, at, start, end);
    if piece == [] {
      assert [] + clipped == clipped;
    } else {
      ReadsCons(Token(token.kind, piece), clipped);
    }
  }

  lemma ReadsNothing()
    ensures Texts([]) == [] && Kinds([]) == []
  {
  }

  lemma {:induction false} WholeReads(text: Text, ms: seq<Match>, at: nat)
    requires at <= |text| && Ordered(text, ms, at)
    ensures Texts(WholeFrom(text, ms, at)) == text[at..]
    decreases |ms|
  {
    hide KindOf, Texts;
    if ms == [] {
      GapReads(text, at, |text|, []);
      ReadsNothing();
      assert Gap(text, at, |text|) + [] == Gap(text, at, |text|);
    } else {
      var m, rest := ms[0], WholeFrom(text, ms[1..], ms[0].to);
      WholeReads(text, ms[1..], m.to);
      WholeReadsCons(text, m, at, rest);
      assert WholeFrom(text, ms, at) == Gap(text, at, m.from) + ([MatchToken(text, m, 0, |text|)] + rest);
    }
  }

  lemma GapReads(text: Text, from: nat, to: nat, rest: seq<Token>)
    requires from <= to <= |text|
    ensures Texts(Gap(text, from, to) + rest) == text[from..to] + Texts(rest)
  {
    hide Texts;
    if from < to {
      ReadsCons(Token(Punctuation, text[from..to]), rest);
    } else {
      assert Gap(text, from, to) + rest == rest;
    }
  }

  lemma WholeReadsCons(text: Text, m: Match, at: nat, rest: seq<Token>)
    requires at <= m.from < m.to <= |text| && Texts(rest) == text[m.to..]
    ensures Texts(Gap(text, at, m.from) + ([MatchToken(text, m, 0, |text|)] + rest)) == text[at..]
  {
    hide KindOf, Texts;
    ReadsCons(MatchToken(text, m, 0, |text|), rest);
    GapReads(text, at, m.from, [MatchToken(text, m, 0, |text|)] + rest);
    assert text[at..] == text[at..m.from] + (text[m.from..m.to] + text[m.to..]);
  }

  /** The kind of every character of the text: that of the whole-text token it lies in. */
  function TextKinds(text: Text): (kinds: seq<Kind>)
    ensures |kinds| == |text|
  {
    MatchesOrdered(text, 0);
    WholeReads(text, Matches(text, 0), 0);
    Kinds(Tokens(text, 0, |text|))
  }

  /** Whatever the window, its tokens spell exactly its text, and every character keeps the kind
      it has in the whole text. */
  lemma WindowReads(text: Text, start: nat, end: nat)
    requires start <= end <= |text|
    ensures Texts(Tokens(text, start, end)) == text[start..end]
    ensures Kinds(Tokens(text, start, end)) == TextKinds(text)[start..end]
  {
    hide Texts, Kinds, Clip, TokensFrom, Matches, Ordered;
    MatchesOrdered(text, 0);
    WholeReads(text, Matches(text, 0), 0);
    if start < end {
      WindowIsClippedWhole(text, start, end);
      ClipReads(Tokens(text, 0, |text|), 0, start, end);
    } else {
      EmptyWindow(text, Matches(text, 0), 0, start);
    }
  }

  lemma {:induction false} EmptyWindow(text: Text, ms: seq<Match>, at: nat, start: nat)
    requires start <= |text| && Ordered(text, ms, at)
    ensures Texts(TokensFrom(text, ms, at, start, start, start)) == []
    decreases |ms|
  {
    hide KindOf;
    if ms != [] {
      EmptyWindow(text, ms[1..], ms[0].to, start);
      if !(ms[0].to > start && ms[0].from >= start) && ms[0].to > start {
        var tokens := TokensFrom(text, ms, at, start, start, start);
        assert tokens == [MatchToken(text, ms[0], start, start)] +
          TokensFrom(text, ms[1..], ms[0].to, start, start, start);
        assert tokens[1..] == TokensFrom(text, ms[1..], ms[0].to, start, start, start);
      }
    }
  }
}
