/** Redaction with one secret on the list: the exact condition, for every secret, under which no
    result shows it and under which sanitizing twice is sanitizing once. */
module SingleSecret {
  import opened Redaction
  import opened RedactionTheorems

  /** Where the word could end in a marker, `p` characters in, it occurs again too early: text that
      ends in those characters and is followed by the word is matched before it gets there. */
  predicate Overtaken(w: string, p: nat)
    requires p <= |w|
  {
    exists j :: 0 <= j < p && w <= (w[..p] + w)[j..]
  }

  /** The marker neither shows the word, nor stands in it, nor begins it, and wherever the word
      could end in a marker it is overtaken. */
  predicate StaysAway(w: string) {
    !Inside(w) && !Contains(w, MARKER) && !AfterMarker(w) &&
    forall p :: 0 <= p < |w| && w[p..] <= MARKER ==> Overtaken(w, p)
  }

  // --- Replacement around the first match ---

  lemma {:induction false} FirstAt(s: string, v: string) returns (f: nat)
    requires Contains(s, v)
    ensures f <= |s| && v <= s[f..] && forall j :: 0 <= j < f ==> !(v <= s[j..])
  {
    if v <= s {
      f := 0;
    } else {
      var g := FirstAt(s[1..], v);
      f := g + 1;
      assert s[1..][g..] == s[f..];
      forall j | 0 <= j < f ensures !(v <= s[j..]) {
        if j > 0 { assert s[1..][j - 1..] == s[j..]; } else { assert s[0..] == s; }
      }
    }
  }

  /** What precedes the first match is copied. */
  lemma {:induction false} CopyThenMatch(s: string, v: string, f: nat)
    requires v != "" && f <= |s| && v <= s[f..] && forall j :: 0 <= j < f ==> !(v <= s[j..])
    ensures f + |v| <= |s| && Replace(s, v) == s[..f] + (MARKER + Replace(s[f + |v|..], v))
  {
    assert s[0..] == s;
    if f > 0 {
      LaterSuffix(s, f);
      forall j | 0 <= j < f - 1 ensures !(v <= s[1..][j..]) { LaterSuffix(s, j + 1); }
      CopyThenMatch(s[1..], v, f - 1);
      LaterSuffix(s, f + |v|);
      FrontOfThree(s, f, MARKER + Replace(s[f + |v|..], v));
    } else {
      assert s[..0] == "";
      assert Replace(s, v) == MARKER + Replace(s[|v|..], v);
    }
  }

  lemma LaterSuffix(s: string, k: nat)
    requires 0 < k <= |s|
    ensures s[1..][k - 1..] == s[k..]
  {
  }

  lemma FrontOfThree(s: string, f: nat, tail: string)
    requires 0 < f <= |s|
    ensures s[..1] + (s[1..][..f - 1] + tail) == s[..f] + tail
  {
  }

  /** A match at the front with too little text behind it for another. */
  lemma OnlyMatch(w: string, y: string)
    requires w != "" && |y| < |w|
    ensures Replace(w + y, w) == MARKER + y
  {
    TooShort(y, w);
    Unmatched(y, w);
    assert (w + y)[|w|..] == y;
  }

  lemma {:induction false} TooShort(s: string, v: string)
    requires |s| < |v|
    ensures !Contains(s, v)
  {
    if s != "" { TooShort(s[1..], v); }
  }

  // --- A word that stays away ---

  /** A beginning of the output that is the word itself was there before. */
  lemma KeptPrefix(s: string, w: string)
    requires w != "" && StaysAway(w) && w <= Replace(s, w)
    ensures w <= s
  {
    if Contains(s, w) {
      var f := FirstAt(s, w);
      CopyThenMatch(s, w, f);
      assert s[0..] == s;
      var tail := MARKER + Replace(s[f + |w|..], w);
      FrontIsCopied(s, w, f, tail);
      if 0 < f < |w| { NotMadeUp(s, w, f, tail); }
    } else {
      Unmatched(s, w);
    }
  }

  lemma FrontIsCopied(s: string, w: string, f: nat, tail: string)
    requires f <= |s|
    ensures |w| <= f && w <= s[..f] + tail ==> w <= s
  {
  }

  lemma PrefixAt(w: string, s: string, f: nat)
    requires w <= s && f <= |w|
    ensures w[..f] == s[..f] && w[f..] <= s[f..]
  {
  }

  /** The word does not end in the marker that replaced its first match. */
  lemma NotMadeUp(s: string, w: string, f: nat, tail: string)
    requires StaysAway(w) && 0 < f < |w| && f + |w| <= |s| && w <= s[f..] && MARKER <= tail
    requires forall j :: 0 <= j < f ==> !(w <= s[j..])
    ensures !(w <= s[..f] + tail)
  {
    if w <= s[..f] + tail {
      PrefixAt(w, s[..f] + tail, f);
      assert (s[..f] + tail)[..f] == s[..f] && (s[..f] + tail)[f..] == tail;
      EndsInMarker(w, f, tail);
      MatchedBefore(s, w, f);
    }
  }

  lemma EndsInMarker(w: string, f: nat, tail: string)
    requires f <= |w| && !Contains(w, MARKER) && MARKER <= tail && w[f..] <= tail
    ensures w[f..] <= MARKER
  {
    PrefixesNest(w[f..], MARKER, tail);
    DropKeepsFree(w, f, MARKER);
    assert MARKER <= w[f..] ==> Contains(w[f..], MARKER);
  }

  lemma MatchedBefore(s: string, w: string, f: nat)
    requires f <= |w| && Overtaken(w, f) && f + |w| <= |s| && s[..f] == w[..f] && w <= s[f..]
    ensures exists j :: 0 <= j < f && w <= s[j..]
  {
    var j :| 0 <= j < f && w <= (w[..f] + w)[j..];
    assert w[..f] + w <= s;
    PrefixAt(w[..f] + w, s, j);
    assert w <= s[j..];
  }

  lemma DropKeepsFree(s: string, i: nat, v: string)
    requires i <= |s| && !Contains(s, v)
    ensures !Contains(s[i..], v)
  {
    if Contains(s[i..], v) { ContainsFrom(s, i, v); }
  }

  lemma {:induction false} StaysAwayFrom(s: string, w: string)
    requires w != "" && StaysAway(w)
    ensures !Contains(Replace(s, w), w)
  {
    var out := Replace(s, w);
    if s == "" {
    } else if w <= s {
      StaysAwayFrom(s[|w|..], w);
      MarkerShields(0, Replace(s[|w|..], w), w);
      assert MARKER[0..] == MARKER;
    } else {
      StaysAwayFrom(s[1..], w);
      assert out[1..] == Replace(s[1..], w);
      if w <= out { KeptPrefix(s, w); }
    }
  }

  // --- A word that comes back: a string whose replacement shows it ---

  lemma ComesBackBehind(w: string) returns (s: string)
    requires w != "" && AfterMarker(w)
    ensures Contains(Replace(s, w), w)
  {
    var i :| 0 <= i < |MARKER| && MARKER[i..] <= w;
    s := w + w[|MARKER| - i..];
    OnlyMatch(w, w[|MARKER| - i..]);
    EndBeginsWord(MARKER, i, w);
    ContainsSplit(MARKER[..i], w, "");
  }

  lemma EndBeginsWord(m: string, i: nat, w: string)
    requires i <= |m| && m[i..] <= w
    ensures m + w[|m| - i..] == m[..i] + w + ""
  {
    assert w == m[i..] + w[|m| - i..];
    assert m == m[..i] + m[i..];
  }

  lemma ComesBackAround(w: string) returns (s: string)
    requires Contains(w, MARKER)
    ensures Contains(Replace(s, w), w)
  {
    var f := FirstAt(w, MARKER);
    var x, y := w[..f], w[f + |MARKER|..];
    s := x + w + y;
    forall j | 0 <= j < f ensures !(w <= s[j..]) {
      if w <= s[j..] { EarlierMarker(w, y, f, j); }
    }
    Pieces(x, w, y);
    CopyThenMatch(s, w, f);
    TooShort(y, w);
    Unmatched(y, w);
    Around(w, f, MARKER);
    ContainsItself(w);
  }

  lemma Pieces(x: string, w: string, y: string)
    ensures w <= (x + w + y)[|x|..] && (x + w + y)[|x| + |w|..] == y && (x + w + y)[..|x|] == x
  {
  }

  lemma Around(w: string, f: nat, m: string)
    requires f <= |w| && m <= w[f..]
    ensures w[..f] + (m + w[f + |m|..]) == w
  {
    assert w[f..] == m + w[f..][|m|..];
  }

  /** If the word began earlier, so would its first marker. */
  lemma EarlierMarker(w: string, y: string, f: nat, j: nat)
    requires j < f && f + |MARKER| <= |w| && MARKER <= w[f..] && w <= (w[..f] + w + y)[j..]
    ensures MARKER <= w[j..]
  {
    var s := w[..f] + w + y;
    forall t | 0 <= t < |MARKER| ensures w[j + t] == MARKER[t] {
      assert w[f..][t] == MARKER[t];
      assert w[f + t] == s[j..][f + t] == s[j + f + t] == w[j + t];
    }
  }

  lemma ComesBackBefore(w: string, p: nat) returns (s: string)
    requires p < |w| && w[p..] <= MARKER && !Overtaken(w, p)
    ensures Contains(Replace(s, w), w)
  {
    s := w[..p] + w;
    assert s[p..] == w;
    CopyThenMatch(s, w, p);
    assert s[p + |w|..] == "" && s[..p] == w[..p];
    var rest := MARKER[|w| - p..];
    assert MARKER == w[p..] + rest && w == w[..p] + w[p..];
    assert Replace(s, w) == "" + w + rest;
    ContainsSplit("", w, rest);
  }

  lemma ComesBack(w: string) returns (s: string)
    requires w != "" && !StaysAway(w)
    ensures Contains(Replace(s, w), w)
  {
    if Inside(w) {
      s := w;
      ContainsItself(w);
      ReplaceShows(w, w, w);
    } else if AfterMarker(w) {
      s := ComesBackBehind(w);
    } else if Contains(w, MARKER) {
      s := ComesBackAround(w);
    } else {
      var p :| 0 <= p < |w| && w[p..] <= MARKER && !Overtaken(w, p);
      s := ComesBackBefore(w, p);
    }
  }

  // --- The theorems ---

  lemma ScrubOne(s: string, w: string)
    requires w != ""
    ensures Scrub(s, [w]) == Replace(s, w)
  {
    assert [w][1..] == [];
  }

  lemma StaysAwayIsGone(w: string)
    requires w != "" && StaysAway(w)
    ensures Gone([w], 0)
  {
    forall s ensures !Contains(Scrub(s, [w]), w) {
      ScrubOne(s, w);
      StaysAwayFrom(s, w);
    }
  }

  /** Redaction of one secret is sound exactly when the secret stays away. */
  lemma OneSecretIsRemovedIff(w: string)
    requires w != ""
    ensures Sound([w]) <==> StaysAway(w)
  {
    var secrets := [w];
    if StaysAway(w) {
      StaysAwayIsGone(w);
      forall v, k | 0 <= k < |secrets| && secrets[k] != "" ensures Free(Sanitize(v, secrets), secrets[k]) {
        GoneFromValue(v, secrets, k);
      }
    } else {
      var s := ComesBack(w);
      ScrubOne(s, w);
      assert !Free(Sanitize(Str(s), secrets), secrets[0]);
    }
  }

  /** How one replacement changes the length. */
  lemma {:induction false} ReplaceLength(s: string, v: string)
    requires v != ""
    ensures |v| <= |MARKER| ==> |Replace(s, v)| >= |s|
    ensures |v| >= |MARKER| ==> |Replace(s, v)| <= |s|
  {
    if s != "" {
      if v <= s { ReplaceLength(s[|v|..], v); } else { ReplaceLength(s[1..], v); }
    }
  }

  lemma ReplaceChanges(s: string, v: string)
    requires v != "" && v != MARKER && Contains(s, v)
    ensures Replace(s, v) != s
  {
    var f := FirstAt(s, v);
    CopyThenMatch(s, v, f);
    ReplaceLength(s[f + |v|..], v);
    SameEndsSame(s, f, v, MARKER, Replace(s[f + |v|..], v));
  }

  /** Putting another word in place of `v` changes the text, when a longer word is not made up for
      by a shorter rest. */
  lemma SameEndsSame(s: string, f: nat, v: string, m: string, rest: string)
    requires f + |v| <= |s| && v <= s[f..] && v != m
    requires |v| <= |m| ==> |rest| >= |s| - f - |v|
    requires |v| >= |m| ==> |rest| <= |s| - f - |v|
    ensures s[..f] + (m + rest) != s
  {
    var t := s[..f] + (m + rest);
    assert t[f..] == m + rest;
    assert t[f..][..|m|] == m && s[f..][..|v|] == v;
  }

  lemma {:induction false} MarkerForMarker(s: string)
    ensures Replace(s, MARKER) == s
  {
    if s == "" {
    } else if MARKER <= s {
      MarkerForMarker(s[|MARKER|..]);
      assert s == MARKER + s[|MARKER|..];
    } else {
      MarkerForMarker(s[1..]);
      assert s == s[..1] + s[1..];
    }
  }

  lemma MarkerIsSettled()
    ensures Settled([MARKER])
  {
    forall s ensures Scrub(s, [MARKER]) == s {
      ScrubOne(s, MARKER);
      MarkerForMarker(s);
    }
  }

  /** Sanitizing twice with one secret is sanitizing once exactly when the secret stays away, or is
      the marker itself. */
  lemma OneSecretIsIdempotentIff(w: string)
    requires w != ""
    ensures Idempotent([w]) <==> StaysAway(w) || w == MARKER
  {
    var secrets := [w];
    if StaysAway(w) || w == MARKER {
      if w == MARKER {
        MarkerIsSettled();
      } else {
        StaysAwayIsGone(w);
        GoneIsSettled(secrets);
      }
      forall v ensures Sanitize(Sanitize(v, secrets), secrets) == Sanitize(v, secrets) {
        SanitizeIsStable(v, secrets);
        StableIsFixed(Sanitize(v, secrets), secrets);
      }
    } else {
      var s := ComesBack(w);
      ScrubOne(s, w);
      ScrubOne(Replace(s, w), w);
      ReplaceChanges(Replace(s, w), w);
      assert Sanitize(Sanitize(Str(s), secrets), secrets) != Sanitize(Str(s), secrets);
    }
  }

  // --- In company the condition is another ---

  /** Alone "]x" comes back; after "xx" it stays away, although neither word contains the other. */
  lemma {:induction false} CompanyDecides(s: string)
    ensures !StaysAway("]x")
    ensures !Contains(Scrub(s, ["xx", "]x"]), "]x")
  {
    assert MARKER[9..] <= "]x";
    var secrets := ["xx", "]x"];
    var y := Replace(s, "xx");
    assert secrets[1..] == ["]x"];
    ScrubOne(y, "]x");
    XIsSafe();
    ReplaceCreatesNothing(s, "xx", "xx");
    BehindMarker(y);
  }

  lemma XIsSafe()
    ensures Safe("xx")
  {
    assert 'x' in "xx" by { assert "xx"[0] == 'x'; }
    NotIn(MARKER, "xx", 'x');
    BracketFreeMeans("xx");
  }

  lemma {:induction false} BehindMarker(y: string)
    requires !Contains(y, "xx")
    ensures !Contains(Replace(y, "]x"), "]x")
    ensures Replace(y, "]x") != "" && Replace(y, "]x")[0] == 'x' ==> y != "" && y[0] == 'x'
  {
    var w := "]x";
    var out := Replace(y, w);
    if y == "" {
    } else if w <= y {
      var rest, tail := y[2..], Replace(y[2..], w);
      DropKeepsFree(y, 2, "xx");
      BehindMarker(rest);
      assert y[1..][0] == 'x' && y[1..][1..] == rest;
      TwoX(y);
      NoXAfterMarker(0, tail);
      assert MARKER[0..] == MARKER;
    } else {
      BehindMarker(y[1..]);
      assert out[1..] == Replace(y[1..], w);
      assert y[0] == ']' && |y| > 1 && y[1] == 'x' ==> w <= y;
    }
  }

  lemma TwoX(y: string)
    ensures |y| > 2 && y[1] == 'x' && y[2] == 'x' ==> Contains(y, "xx")
  {
    if |y| > 2 && y[1] == 'x' && y[2] == 'x' {
      assert "xx" <= y[1..];
      ContainsFrom(y, 1, "xx");
    }
  }

  lemma {:induction false} NoXAfterMarker(i: nat, rest: string)
    requires i <= |MARKER| && !Contains(rest, "]x") && (rest != "" ==> rest[0] != 'x')
    ensures !Contains(MARKER[i..] + rest, "]x")
    decreases |MARKER| - i
  {
    if i == |MARKER| {
      assert MARKER[i..] + rest == rest;
    } else {
      NoXAfterMarker(i + 1, rest);
      assert i < 9 ==> MARKER[i] != ']';
      SplitFirst(MARKER, i, rest);
      OneMore(MARKER[i], MARKER[i + 1..] + rest);
    }
  }

  lemma SplitFirst(m: string, i: nat, rest: string)
    requires i < |m|
    ensures m[i..] + rest == [m[i]] + (m[i + 1..] + rest)
  {
  }

  lemma OneMore(c: char, s: string)
    requires !Contains(s, "]x") && (c != ']' || s == "" || s[0] != 'x')
    ensures !Contains([c] + s, "]x")
  {
    assert ([c] + s)[1..] == s;
    assert ([c] + s)[0] == c && (s != "" ==> ([c] + s)[1] == s[0]);
  }
}
