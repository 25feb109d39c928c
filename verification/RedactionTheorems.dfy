/** When redaction is sound and idempotent, and what it does with credential fields. */
module RedactionTheorems {
  import opened Redaction

  predicate BracketFree(v: string) {
    '[' !in v && ']' !in v
  }

  /** The marker shows the word. */
  predicate Inside(w: string) {
    Contains(MARKER, w)
  }

  /** The word can begin in a marker and go on behind it. */
  predicate AfterMarker(w: string) {
    exists i :: 0 <= i < |MARKER| && MARKER[i..] <= w
  }

  /** The word can be spelled partly by a marker and partly by what stands next to it. */
  predicate Straddles(w: string) {
    (exists p :: 0 <= p < |w| && (w[p..] <= MARKER || MARKER <= w[p..])) || AfterMarker(w)
  }

  predicate Safe(w: string) {
    w != "" && !Inside(w) && !Straddles(w)
  }

  /** The secret, or a part of it, is a safe secret on the list. */
  predicate Covered(secrets: seq<string>, k: nat)
    requires k < |secrets|
  {
    secrets[k] != "" && exists j :: 0 <= j < |secrets| && Safe(secrets[j]) && Contains(secrets[k], secrets[j])
  }

  /** No secret straddles the marker, but for those that are covered or shown by it anyway. */
  predicate Clear(secrets: seq<string>) {
    forall k :: 0 <= k < |secrets| && secrets[k] != "" && Straddles(secrets[k]) ==>
      Inside(secrets[k]) || Covered(secrets, k)
  }

  /** No secret is part of the marker. */
  predicate Hidden(secrets: seq<string>) {
    forall k :: 0 <= k < |secrets| && secrets[k] != "" ==> !Inside(secrets[k])
  }

  predicate AllCovered(secrets: seq<string>) {
    forall k :: 0 <= k < |secrets| && secrets[k] != "" ==> Covered(secrets, k)
  }

  // --- Containment ---

  lemma {:induction false} ContainsSplit(a: string, v: string, b: string)
    ensures Contains(a + v + b, v)
  {
    if a == "" {
      assert a + v + b == v + b;
    } else {
      ContainsSplit(a[1..], v, b);
      assert (a + v + b)[1..] == a[1..] + v + b;
    }
  }

  /** Containment is occurrence at some position. */
  lemma {:induction false} ContainsAt(s: string, v: string) returns (i: nat)
    requires Contains(s, v)
    ensures i <= |s| && v <= s[i..]
  {
    if v <= s {
      i := 0;
    } else {
      var j := ContainsAt(s[1..], v);
      i := j + 1;
      assert s[1..][j..] == s[i..];
    }
  }

  lemma {:induction false} ContainsFrom(s: string, i: nat, v: string)
    requires i <= |s| && Contains(s[i..], v)
    ensures Contains(s, v)
  {
    if i > 0 {
      assert s[1..][i - 1..] == s[i..];
      ContainsFrom(s[1..], i - 1, v);
    }
  }

  lemma {:induction false} Unmatched(s: string, v: string)
    requires v != "" && !Contains(s, v)
    ensures Replace(s, v) == s
  {
    if s != "" {
      Unmatched(s[1..], v);
      assert s == s[..1] + s[1..];
    }
  }

  // --- Replacement creates no safe word ---

  /** No marker begins inside the word or where it ends. */
  predicate Unbroken(w: string) {
    forall p :: 0 <= p < |w| ==> !(w[p..] <= MARKER) && !(MARKER <= w[p..])
  }

  lemma UnbrokenTail(w: string)
    requires w != "" && Unbroken(w)
    ensures Unbroken(w[1..])
  {
    forall p | 0 <= p < |w| - 1 ensures !(w[1..][p..] <= MARKER) && !(MARKER <= w[1..][p..]) {
      assert w[1..][p..] == w[p + 1..];
    }
  }

  /** Two beginnings of one string: one begins the other. */
  lemma PrefixesNest(a: string, b: string, s: string)
    requires a <= s && b <= s
    ensures a <= b || b <= a
  {
  }

  /** An unbroken beginning of the output was copied from the input. */
  lemma {:induction false} CopiedPrefix(s: string, v: string, w: string)
    requires v != "" && Unbroken(w) && w <= Replace(s, v)
    ensures w <= s
  {
    if s != "" && w != "" {
      var out := Replace(s, v);
      assert w[0..] == w;
      if v <= s {
        PrefixesNest(w, MARKER, out);
      } else {
        assert out[0] == s[0] && out[1..] == Replace(s[1..], v);
        assert w[0] == s[0] && w[1..] <= out[1..];
        UnbrokenTail(w);
        CopiedPrefix(s[1..], v, w[1..]);
      }
    }
  }

  lemma SafeIsUnbroken(w: string)
    requires Safe(w)
    ensures Unbroken(w)
  {
  }

  /** A word that the marker neither shows nor begins does not start in it. */
  lemma {:induction false} MarkerShields(i: nat, rest: string, w: string)
    requires i <= |MARKER| && !Inside(w) && !AfterMarker(w) && !Contains(rest, w)
    ensures !Contains(MARKER[i..] + rest, w)
    decreases |MARKER| - i
  {
    var s := MARKER[i..] + rest;
    if i == |MARKER| {
      assert s == rest;
    } else {
      MarkerShields(i + 1, rest, w);
      assert s[1..] == MARKER[i + 1..] + rest;
      if w <= s {
        PrefixesNest(w, MARKER[i..], s);
        if w <= MARKER[i..] { ContainsFrom(MARKER, i, w); }
      }
    }
  }

  /** Replacing one secret neither leaves it nor makes another. */
  lemma {:induction false} ReplaceCreatesNothing(s: string, v: string, w: string)
    requires v != "" && Safe(w) && (w == v || !Contains(s, w))
    ensures !Contains(Replace(s, v), w)
  {
    var out := Replace(s, v);
    if s == "" {
    } else if v <= s {
      if w != v && Contains(s[|v|..], w) { ContainsFrom(s, |v|, w); }
      ReplaceCreatesNothing(s[|v|..], v, w);
      MarkerShields(0, Replace(s[|v|..], v), w);
      assert MARKER[0..] == MARKER;
    } else {
      ReplaceCreatesNothing(s[1..], v, w);
      assert out[1..] == Replace(s[1..], v);
      if w <= out {
        SafeIsUnbroken(w);
        CopiedPrefix(s, v, w);
      }
    }
  }

  lemma {:induction false} ScrubCreatesNothing(s: string, secrets: seq<string>, w: string)
    requires Safe(w) && !Contains(s, w)
    ensures !Contains(Scrub(s, secrets), w)
    decreases |secrets|
  {
    if secrets != [] {
      if secrets[0] == "" {
        ScrubCreatesNothing(s, secrets[1..], w);
      } else {
        ReplaceCreatesNothing(s, secrets[0], w);
        ScrubCreatesNothing(Replace(s, secrets[0]), secrets[1..], w);
      }
    }
  }

  /** A safe secret on the list is gone from the output, whatever else is on the list. */
  lemma {:induction false} ScrubRemoves(s: string, secrets: seq<string>, i: nat)
    requires i < |secrets| && Safe(secrets[i])
    ensures !Contains(Scrub(s, secrets), secrets[i])
    decreases |secrets|
  {
    var s1 := if secrets[0] == "" then s else Replace(s, secrets[0]);
    if i == 0 {
      ReplaceCreatesNothing(s, secrets[0], secrets[0]);
      ScrubCreatesNothing(s1, secrets[1..], secrets[0]);
    } else {
      ScrubRemoves(s1, secrets[1..], i - 1);
    }
  }

  lemma {:induction false} ScrubUnmatched(s: string, secrets: seq<string>)
    requires forall i :: 0 <= i < |secrets| && secrets[i] != "" ==> !Contains(s, secrets[i])
    ensures Scrub(s, secrets) == s
    decreases |secrets|
  {
    if secrets != [] {
      if secrets[0] != "" { Unmatched(s, secrets[0]); }
      ScrubUnmatched(s, secrets[1..]);
    }
  }

  /** A covered secret is gone with the part that covers it. */
  lemma CoveredIsRemoved(s: string, secrets: seq<string>, k: nat)
    requires k < |secrets| && Covered(secrets, k)
    ensures !Contains(Scrub(s, secrets), secrets[k])
  {
    var j :| 0 <= j < |secrets| && Safe(secrets[j]) && Contains(secrets[k], secrets[j]);
    ScrubRemoves(s, secrets, j);
    if Contains(Scrub(s, secrets), secrets[k]) {
      ContainsTransitive(Scrub(s, secrets), secrets[k], secrets[j]);
    }
  }

  // --- The other direction: a secret that occurs in the marker ---

  lemma {:induction false} ReplaceShows(s: string, v: string, w: string)
    requires v != "" && Contains(s, w) && Contains(MARKER, w)
    ensures Contains(Replace(s, v), w)
  {
    if Contains(s, v) {
      ReplaceMarks(s, v);
      ContainsTransitive(Replace(s, v), MARKER, w);
    } else {
      Unmatched(s, v);
    }
  }

  lemma {:induction false} ReplaceMarks(s: string, v: string)
    requires v != "" && Contains(s, v)
    ensures Contains(Replace(s, v), MARKER)
  {
    if v <= s {
    } else {
      ReplaceMarks(s[1..], v);
      assert Replace(s, v)[1..] == Replace(s[1..], v);
    }
  }

  lemma {:induction false} ContainsTransitive(s: string, t: string, w: string)
    requires Contains(s, t) && Contains(t, w)
    ensures Contains(s, w)
  {
    var i := ContainsAt(s, t);
    var j := ContainsAt(t, w);
    assert s[i..][..|t|] == t;
    assert w <= s[i + j..];
    ContainsFrom(s, i + j, w);
  }

  lemma {:induction false} ScrubShows(s: string, secrets: seq<string>, w: string)
    requires Contains(s, w) && Contains(MARKER, w)
    ensures Contains(Scrub(s, secrets), w)
    decreases |secrets|
  {
    if secrets != [] {
      if secrets[0] == "" {
        ScrubShows(s, secrets[1..], w);
      } else {
        ReplaceShows(s, secrets[0], w);
        ScrubShows(Replace(s, secrets[0]), secrets[1..], w);
      }
    }
  }

  lemma InMarker(w: string)
    requires Contains("redacted", w)
    ensures Inside(w)
  {
    assert MARKER == "[" + "redacted" + "]";
    ContainsSplit("[", "redacted", "]");
    ContainsTransitive(MARKER, "redacted", w);
  }

  /** A word without brackets straddles nothing, and is inside the marker exactly when it is part
      of the word "redacted". */
  lemma BracketFreeMeans(w: string)
    requires w != "" && BracketFree(w)
    ensures !Straddles(w) && (Inside(w) <==> Contains("redacted", w))
  {
    forall p | 0 <= p < |w| ensures !(w[p..] <= MARKER) && !(MARKER <= w[p..]) {
      assert w[p..][0] == w[p] && w[p] in w;
    }
    forall i | 0 <= i < |MARKER| ensures !(MARKER[i..] <= w) {
      assert MARKER[i..][9 - i] == ']';
      assert 9 - i < |w| ==> w[9 - i] in w;
    }
    if Contains("redacted", w) { InMarker(w); }
    assert MARKER == ['['] + ("redacted" + [']']);
    if Inside(w) {
      DropFirst('[', "redacted" + [']'], w);
      DropLast("redacted", ']', w);
    }
  }

  /** A word without the character `c` is not helped by `c` at either end. */
  lemma DropFirst(c: char, s: string, w: string)
    requires w != "" && c !in w && Contains([c] + s, w)
    ensures Contains(s, w)
  {
    assert ([c] + s)[1..] == s;
    assert w[0] in w;
  }

  lemma {:induction false} DropLast(s: string, c: char, w: string)
    requires w != "" && c !in w && Contains(s + [c], w)
    ensures Contains(s, w)
  {
    PrefixWithout(s, c, w);
    assert (s + [c])[1..] == if s == "" then "" else s[1..] + [c];
    if s != "" && !(w <= s + [c]) { DropLast(s[1..], c, w); }
  }

  lemma PrefixWithout(s: string, c: char, w: string)
    requires c !in w
    ensures w <= s + [c] ==> w <= s
  {
    assert |w| > |s| ==> w[|s|] in w;
  }

  lemma ContainsItself(w: string)
    ensures Contains(w, w)
  {
  }

  /** Opening brackets, to see that a replacement happened. */
  function Brackets(s: string): nat {
    if s == "" then 0 else (if s[0] == '[' then 1 else 0) + Brackets(s[1..])
  }

  lemma {:induction false} BracketsSum(a: string, b: string)
    ensures Brackets(a + b) == Brackets(a) + Brackets(b)
  {
    if a == "" {
      assert a + b == b;
    } else {
      BracketsSum(a[1..], b);
      assert (a + b)[1..] == a[1..] + b;
    }
  }

  lemma {:induction false} NoBrackets(s: string)
    requires '[' !in s
    ensures Brackets(s) == 0
  {
    if s != "" { NoBrackets(s[1..]); }
  }

  lemma {:induction false} ReplaceCounts(s: string, v: string)
    requires v != "" && BracketFree(v)
    ensures Brackets(Replace(s, v)) >= Brackets(s)
    ensures Contains(s, v) ==> Brackets(Replace(s, v)) > Brackets(s)
  {
    if s == "" {
    } else if v <= s {
      var rest := s[|v|..];
      assert s == v + rest;
      ReplaceCounts(rest, v);
      BracketsSum(v, rest);
      NoBrackets(v);
      BracketsSum(MARKER, Replace(rest, v));
      assert MARKER == ['['] + "redacted]";
      BracketsSum(['['], "redacted]");
    } else {
      ReplaceCounts(s[1..], v);
      assert Replace(s, v)[1..] == Replace(s[1..], v);
    }
  }

  /** Every secret is bracket-free or contains a safe word of `words`. */
  predicate Tame(secrets: seq<string>, words: seq<string>) {
    forall i :: 0 <= i < |secrets| && secrets[i] != "" ==>
                  BracketFree(secrets[i]) || exists j ::
                    0 <= j < |words| && Safe(words[j]) && Contains(secrets[i], words[j])
  }

  /** The string contains no safe word of `words`. */
  predicate Avoids(s: string, words: seq<string>) {
    forall j :: 0 <= j < |words| && Safe(words[j]) ==> !Contains(s, words[j])
  }

  lemma ReplaceAvoids(s: string, v: string, words: seq<string>)
    requires v != "" && Avoids(s, words)
    ensures Avoids(Replace(s, v), words)
  {
    forall j | 0 <= j < |words| && Safe(words[j]) ensures !Contains(Replace(s, v), words[j]) {
      ReplaceCreatesNothing(s, v, words[j]);
    }
  }

  /** In a string that avoids the safe words only bracket-free secrets match, so opening brackets
      never become fewer. */
  lemma TameCounts(s: string, secrets: seq<string>, words: seq<string>)
    requires Tame(secrets, words) && Avoids(s, words) && secrets != [] && secrets[0] != ""
    ensures Brackets(Replace(s, secrets[0])) >= Brackets(s)
    ensures Contains(s, secrets[0]) ==> Brackets(Replace(s, secrets[0])) > Brackets(s)
  {
    if BracketFree(secrets[0]) {
      ReplaceCounts(s, secrets[0]);
    } else {
      var j :| 0 <= j < |words| && Safe(words[j]) && Contains(secrets[0], words[j]);
      if Contains(s, secrets[0]) { ContainsTransitive(s, secrets[0], words[j]); }
      Unmatched(s, secrets[0]);
    }
  }

  lemma {:induction false} ScrubCounts(s: string, secrets: seq<string>, words: seq<string>, i: nat)
    requires Tame(secrets, words) && Avoids(s, words) && i < |secrets| && secrets[i] != "" && Contains(s, secrets[i]) &&
      Inside(secrets[i])
    ensures Brackets(Scrub(s, secrets)) > Brackets(s)
    decreases |secrets|
  {
    var s1 := if secrets[0] == "" then s else Replace(s, secrets[0]);
    if secrets[0] != "" {
      TameCounts(s, secrets, words);
      ReplaceAvoids(s, secrets[0], words);
    }
    if i == 0 {
      ScrubNeverLoses(s1, secrets[1..], words);
    } else {
      if secrets[0] != "" { ReplaceShows(s, secrets[0], secrets[i]); }
      ScrubCounts(s1, secrets[1..], words, i - 1);
    }
  }

  lemma {:induction false} ScrubNeverLoses(s: string, secrets: seq<string>, words: seq<string>)
    requires Tame(secrets, words) && Avoids(s, words)
    ensures Brackets(Scrub(s, secrets)) >= Brackets(s)
    decreases |secrets|
  {
    if secrets != [] {
      if secrets[0] != "" {
        TameCounts(s, secrets, words);
        ReplaceAvoids(s, secrets[0], words);
      }
      ScrubNeverLoses(if secrets[0] == "" then s else Replace(s, secrets[0]), secrets[1..], words);
    }
  }

  // --- Whole results ---

  /** No string and no string key in the value contains `w`. */
  predicate Free(v: Value, w: string)
    decreases v, 0
  {
    match v
    case Str(s) => !Contains(s, w)
    case List(items) => ItemsFree(items, w)
    case Dict(entries) => EntriesFree(entries, w)
    case Opaque(_) => true
  }

  predicate ItemsFree(items: seq<Value>, w: string)
    decreases items, 1
  {
    forall i :: 0 <= i < |items| ==> Free(items[i], w)
  }

  predicate EntriesFree(entries: seq<Entry>, w: string)
    decreases entries, 2
  {
    forall i :: 0 <= i < |entries| ==> EntryFree(entries[i], w)
  }

  predicate EntryFree(entry: Entry, w: string)
    decreases entry, 1
  {
    (entry.key.Name? ==> !Contains(entry.key.s, w)) && Free(entry.value, w)
  }

  lemma {:induction false} PutKeepsFree(entries: seq<Entry>, key: Key, value: Value, w: string)
    requires EntriesFree(entries, w) && EntryFree(Entry(key, value), w)
    ensures EntriesFree(Put(entries, key, value), w)
  {
    hide EntryFree;
    if entries != [] && entries[0].key != key {
      PutKeepsFree(entries[1..], key, value, w);
    }
  }

  /** The secret occurs in no scrubbed string. */
  ghost predicate Gone(secrets: seq<string>, k: nat)
    requires k < |secrets|
  {
    forall s :: !Contains(Scrub(s, secrets), secrets[k])
  }

  lemma CoveredIsGone(secrets: seq<string>, k: nat)
    requires k < |secrets| && Covered(secrets, k)
    ensures Gone(secrets, k)
  {
    forall s ensures !Contains(Scrub(s, secrets), secrets[k]) { CoveredIsRemoved(s, secrets, k); }
  }

  lemma MarkerIsFree(secrets: seq<string>, k: nat)
    requires k < |secrets| && Gone(secrets, k)
    ensures !Inside(secrets[k])
  {
    if Inside(secrets[k]) {
      ContainsItself(secrets[k]);
      ScrubShows(secrets[k], secrets, secrets[k]);
    }
  }

  lemma {:induction false} GoneFromValue(v: Value, secrets: seq<string>, k: nat)
    requires k < |secrets| && Gone(secrets, k)
    ensures Free(Sanitize(v, secrets), secrets[k])
    decreases v, 0
  {
    match v
    case Str(_) =>
    case List(items) => GoneFromItems(items, secrets, k);
    case Dict(entries) => GoneFromEntries(entries, secrets, k);
    case Opaque(_) =>
  }

  lemma {:induction false} GoneFromItems(items: seq<Value>, secrets: seq<string>, k: nat)
    requires k < |secrets| && Gone(secrets, k)
    ensures ItemsFree(SanitizeItems(items, secrets), secrets[k])
    decreases items, 1
  {
    if items != [] {
      var last := |items| - 1;
      GoneFromItems(items[..last], secrets, k);
      GoneFromValue(items[last], secrets, k);
    }
  }

  lemma {:induction false} GoneFromEntries(entries: seq<Entry>, secrets: seq<string>, k: nat)
    requires k < |secrets| && Gone(secrets, k)
    ensures EntriesFree(SanitizeEntries(entries, secrets), secrets[k])
    decreases entries, 1
  {
    if entries != [] {
      var last := |entries| - 1;
      GoneFromEntries(entries[..last], secrets, k);
      SafeEntryIsFree(entries[last], secrets, k);
      PutKeepsFree(SanitizeEntries(entries[..last], secrets), SafeKey(entries[last].key, secrets),
        SafeValue(entries[last], secrets), secrets[k]);
    }
  }

  lemma {:induction false} SafeEntryIsFree(entry: Entry, secrets: seq<string>, k: nat)
    requires k < |secrets| && Gone(secrets, k)
    ensures EntryFree(Entry(SafeKey(entry.key, secrets), SafeValue(entry, secrets)), secrets[k])
    decreases entry, 0
  {
    assert entry.key.Name? ==> !Contains(Scrub(entry.key.s, secrets), secrets[k]);
    MarkerIsFree(secrets, k);
    GoneFromValue(entry.value, secrets, k);
  }

  lemma SanitizeRemoves(v: Value, secrets: seq<string>, k: nat)
    requires k < |secrets| && Covered(secrets, k)
    ensures Free(Sanitize(v, secrets), secrets[k])
  {
    CoveredIsGone(secrets, k);
    GoneFromValue(v, secrets, k);
  }

  ghost predicate Sound(secrets: seq<string>) {
    forall v, k {:trigger Free(Sanitize(v, secrets), secrets[k])} :: 0 <= k < |secrets| && secrets[k] != "" ==>
      Free(Sanitize(v, secrets), secrets[k])
  }

  lemma MarkerWordSurvives(secrets: seq<string>, k: nat)
    requires k < |secrets| && Inside(secrets[k])
    ensures !Free(Sanitize(Str(secrets[k]), secrets), secrets[k])
  {
    ContainsItself(secrets[k]);
    ScrubShows(secrets[k], secrets, secrets[k]);
    hide Scrub, Contains;
  }

  lemma ClearAndHidden(secrets: seq<string>)
    requires Clear(secrets) && Hidden(secrets)
    ensures AllCovered(secrets)
  {
    forall k | 0 <= k < |secrets| && secrets[k] != "" ensures Covered(secrets, k) {
      ContainsItself(secrets[k]);
      assert Straddles(secrets[k]) || Safe(secrets[k]);
    }
  }

  /** Redaction is sound only when no secret is part of the marker, and then it is, unless a
      secret straddles the marker and nothing covers it. */
  lemma RedactionIsSoundIff(secrets: seq<string>)
    ensures Sound(secrets) ==> Hidden(secrets)
    ensures Clear(secrets) ==> (Sound(secrets) <==> Hidden(secrets))
  {
    hide Sanitize, Free, Contains, Straddles;
    if !Hidden(secrets) {
      var k :| 0 <= k < |secrets| && secrets[k] != "" && Inside(secrets[k]);
      MarkerWordSurvives(secrets, k);
    } else if Clear(secrets) {
      ClearAndHidden(secrets);
      forall v, k | 0 <= k < |secrets| && secrets[k] != "" ensures Free(Sanitize(v, secrets), secrets[k]) {
        SanitizeRemoves(v, secrets, k);
      }
    }
  }

  /** Without brackets the condition reads: no secret is part of the word "redacted". */
  lemma BracketFreeSecrets(secrets: seq<string>)
    requires forall k :: 0 <= k < |secrets| ==> BracketFree(secrets[k])
    ensures Clear(secrets)
    ensures Hidden(secrets) <==>
      forall k :: 0 <= k < |secrets| && secrets[k] != "" ==> !Contains("redacted", secrets[k])
  {
    forall k | 0 <= k < |secrets| && secrets[k] != ""
      ensures !Straddles(secrets[k]) && (Inside(secrets[k]) <==> Contains("redacted", secrets[k]))
    {
      BracketFreeMeans(secrets[k]);
    }
    hide Straddles, Inside, Contains;
  }

  /** Of one bracket-free secret, in any company: it is removed from every output exactly when it
      is not part of the word "redacted". */
  lemma SecretIsRemovedIff(secrets: seq<string>, k: nat)
    requires k < |secrets| && secrets[k] != "" && BracketFree(secrets[k])
    ensures (forall v :: Free(Sanitize(v, secrets), secrets[k])) <==> !Contains("redacted", secrets[k])
  {
    BracketFreeMeans(secrets[k]);
    ContainsItself(secrets[k]);
    hide Sanitize, Free, Contains, Straddles;
    if Inside(secrets[k]) {
      MarkerWordSurvives(secrets, k);
    } else {
      assert Safe(secrets[k]) && Covered(secrets, k);
      forall v ensures Free(Sanitize(v, secrets), secrets[k]) { SanitizeRemoves(v, secrets, k); }
    }
  }

  /** Of a secret that straddles the marker neither can be said: "]x" comes back, "[[" does not. */
  lemma StraddlingSecretComesBack()
    ensures Straddles("]x") && !Inside("]x") && Contains(Scrub("]xx", ["]x"]), "]x")
  {
    hide *;
    EndOfMarkerStraddles();
    ScrubsToMarker();
    ContainsSplit("[redacted", "]x", "");
  }

  lemma EndOfMarkerStraddles()
    ensures Straddles("]x") && !Inside("]x")
  {
    hide Contains;
    assert MARKER[9..] <= "]x";
    assert 'x' in "]x" by { assert "]x"[1] == 'x'; }
    NotIn(MARKER, "]x", 'x');
  }

  lemma ScrubsToMarker()
    ensures Scrub("]xx", ["]x"]) == "[redacted" + "]x" + ""
  {
    assert MARKER + "x" == "[redacted" + "]x" + "";
    var w := "]x";
    assert "]xx"[2..] == "x" && "x"[1..] == "" && "x"[..1] == "x";
    assert Replace("x", w) == "x";
    assert Replace("]xx", w) == MARKER + Replace("x", w);
  }

  lemma {:induction false} NotIn(s: string, w: string, c: char)
    requires c in w && c !in s
    ensures !Contains(s, w)
  {
    if s != "" { NotIn(s[1..], w, c); }
  }

  lemma {:induction false} StraddlingSecretStaysAway(s: string)
    ensures Straddles("[[") && !Contains(Replace(s, "[["), "[[")
  {
    var w := "[[";
    assert w[1..] == "[" <= MARKER;
    var out := Replace(s, w);
    if s == "" {
    } else if w <= s {
      var rest := Replace(s[2..], w);
      StraddlingSecretStaysAway(s[2..]);
      MarkerThenNoDouble(0, rest);
      assert MARKER[0..] == MARKER;
    } else {
      StraddlingSecretStaysAway(s[1..]);
      assert out[1..] == Replace(s[1..], w);
      OpensAlike(s[1..], w);
      assert s[0] == '[' && |s| > 1 && s[1] == '[' ==> w <= s;
    }
  }

  /** A replacement that begins with an opening bracket keeps or makes one at the front. */
  lemma OpensAlike(s: string, v: string)
    requires v == "[["
    ensures Replace(s, v) != "" && Replace(s, v)[0] == '[' ==> s != "" && s[0] == '['
  {
  }

  lemma {:induction false} MarkerThenNoDouble(i: nat, rest: string)
    requires i <= |MARKER| && !Contains(rest, "[[")
    ensures !Contains(MARKER[i..] + rest, "[[")
    decreases |MARKER| - i
  {
    var s := MARKER[i..] + rest;
    if i == |MARKER| {
      assert s == rest;
    } else {
      MarkerThenNoDouble(i + 1, rest);
      assert s[1..] == MARKER[i + 1..] + rest;
      assert s[0] == MARKER[i] && (i < 9 ==> s[1] == MARKER[i + 1]);
    }
  }

  /** For instance a secret "red": it survives its own redaction. */
  lemma ShortSecretSurvives()
    ensures Scrub("red", ["red"]) == MARKER && Contains(MARKER, "red")
  {
    assert "red" <= "redacted";
    InMarker("red");
    assert "red"[3..] == "";
    assert Replace("red", "red") == MARKER + Replace("", "red");
  }

  // --- Idempotence ---

  predicate DistinctKeys(entries: seq<Entry>) {
    forall i, j :: 0 <= i < j < |entries| ==> entries[i].key != entries[j].key
  }

  /** What sanitizing leaves alone. */
  predicate Stable(v: Value, secrets: seq<string>)
    decreases v, 0
  {
    match v
    case Str(s) => Scrub(s, secrets) == s
    case List(items) => ItemsStable(items, secrets)
    case Dict(entries) => EntriesStable(entries, secrets)
    case Opaque(_) => true
  }

  predicate ItemsStable(items: seq<Value>, secrets: seq<string>)
    decreases items, 1
  {
    forall i :: 0 <= i < |items| ==> Stable(items[i], secrets)
  }

  predicate EntriesStable(entries: seq<Entry>, secrets: seq<string>)
    decreases entries, 2
  {
    DistinctKeys(entries) && forall i :: 0 <= i < |entries| ==> EntryStable(entries[i], secrets)
  }

  predicate EntryStable(entry: Entry, secrets: seq<string>)
    decreases entry, 1
  {
    SafeKey(entry.key, secrets) == entry.key &&
    if IsCredential(entry.key) then entry.value == Str(MARKER) else Stable(entry.value, secrets)
  }

  lemma {:induction false} PutNew(entries: seq<Entry>, key: Key, value: Value)
    requires forall i :: 0 <= i < |entries| ==> entries[i].key != key
    ensures Put(entries, key, value) == entries + [Entry(key, value)]
  {
    if entries != [] {
      PutNew(entries[1..], key, value);
      assert entries == entries[..1] + entries[1..];
    }
  }

  lemma {:induction false} StableIsFixed(v: Value, secrets: seq<string>)
    requires Stable(v, secrets)
    ensures Sanitize(v, secrets) == v
    decreases v, 0
  {
    match v
    case Str(_) =>
    case List(items) => StableItemsAreFixed(items, secrets);
    case Dict(entries) => StableEntriesAreFixed(entries, secrets);
    case Opaque(_) =>
  }

  lemma {:induction false} StableItemsAreFixed(items: seq<Value>, secrets: seq<string>)
    requires ItemsStable(items, secrets)
    ensures SanitizeItems(items, secrets) == items
    decreases items, 1
  {
    if items != [] {
      var last := |items| - 1;
      StableItemsAreFixed(items[..last], secrets);
      StableIsFixed(items[last], secrets);
      assert items == items[..last] + [items[last]];
    }
  }

  lemma {:induction false} StableEntriesAreFixed(entries: seq<Entry>, secrets: seq<string>)
    requires EntriesStable(entries, secrets)
    ensures SanitizeEntries(entries, secrets) == entries
    decreases entries, 1
  {
    if entries != [] {
      var last := |entries| - 1;
      StableEntriesAreFixed(entries[..last], secrets);
      StableEntryIsFixed(entries[last], secrets);
      PutNew(entries[..last], entries[last].key, entries[last].value);
      assert entries == entries[..last] + [entries[last]];
    }
  }

  lemma {:induction false} StableEntryIsFixed(entry: Entry, secrets: seq<string>)
    requires EntryStable(entry, secrets)
    ensures SafeKey(entry.key, secrets) == entry.key && SafeValue(entry, secrets) == entry.value
    decreases entry, 0
  {
    if !IsCredential(entry.key) { StableIsFixed(entry.value, secrets); }
  }

  lemma {:induction false} PutKeepsStable(entries: seq<Entry>, key: Key, value: Value, secrets: seq<string>)
    requires EntriesStable(entries, secrets)
    requires EntryStable(Entry(key, value), secrets)
    ensures EntriesStable(Put(entries, key, value), secrets)
    ensures forall i :: 0 <= i < |Put(entries, key, value)| ==> Put(entries, key, value)[i].key == key || exists j ::
      0 <= j < |entries| && entries[j].key == Put(entries, key, value)[i].key
  {
    hide EntryStable;
    if entries != [] && entries[0].key != key {
      PutKeepsStable(entries[1..], key, value, secrets);
      var r := Put(entries, key, value);
      assert r[0] == entries[0] && r[1..] == Put(entries[1..], key, value);
      forall i | 0 < i < |r|
        ensures r[i].key != r[0].key && (r[i].key == key || exists j ::
        0 <= j < |entries| && entries[j].key == r[i].key) {
        assert r[i] == r[1..][i - 1];
        if r[i].key != key {
          var j :| 0 <= j < |entries[1..]| && entries[1..][j].key == r[1..][i - 1].key;
          assert entries[j + 1] == entries[1..][j];
        }
      }
    }
  }

  /** A key that redaction changed is no credential field any more, and one it did not change is
      what it was. */
  lemma ScrubbedKey(key: Key, secrets: seq<string>)
    ensures SafeKey(key, secrets) == key || !IsCredential(SafeKey(key, secrets))
  {
    if key.Name? {
      ScrubMarksOrKeeps(key.s, secrets);
      if Scrub(key.s, secrets) != key.s { BracketIsNoField(Scrub(key.s, secrets)); }
    }
  }

  lemma {:induction false} ReplaceMarksOrKeeps(s: string, v: string)
    requires v != ""
    ensures Replace(s, v) == s || '[' in Replace(s, v)
  {
    if s == "" {
    } else if v <= s {
      assert Replace(s, v)[0] == '[';
    } else {
      ReplaceMarksOrKeeps(s[1..], v);
      assert Replace(s, v) == s[..1] + Replace(s[1..], v);
      assert s == s[..1] + s[1..];
    }
  }

  /** Replacing can remove brackets only by putting others in. */
  lemma {:induction false} BracketStays(s: string, v: string)
    requires v != "" && '[' in s
    ensures '[' in Replace(s, v)
  {
    ReplaceMarksOrKeeps(s, v);
  }

  lemma {:induction false} ScrubMarksOrKeeps(s: string, secrets: seq<string>)
    ensures Scrub(s, secrets) == s || '[' in Scrub(s, secrets)
    ensures '[' in s ==> '[' in Scrub(s, secrets)
    decreases |secrets|
  {
    if secrets != [] {
      var s1 := if secrets[0] == "" then s else Replace(s, secrets[0]);
      if secrets[0] != "" {
        ReplaceMarksOrKeeps(s, secrets[0]);
        if '[' in s { BracketStays(s, secrets[0]); }
      }
      ScrubMarksOrKeeps(s1, secrets[1..]);
    }
  }

  lemma {:induction false} LowerKeepsBracket(s: string)
    ensures '[' in s ==> '[' in Lower(s)
  {
    if s != "" { LowerKeepsBracket(s[1..]); }
  }

  lemma BracketIsNoField(s: string)
    requires '[' in s
    ensures !IsCredential(Name(s))
  {
    LowerKeepsBracket(s);
    assert forall field :: field in CREDENTIAL_FIELDS ==> '[' !in field;
  }

  /** Scrubbing a second time changes nothing, and the marker is left alone. */
  ghost predicate Settled(secrets: seq<string>) {
    (forall s :: Scrub(Scrub(s, secrets), secrets) == Scrub(s, secrets)) && Scrub(MARKER, secrets) == MARKER
  }

  /** A list whose secrets are all gone after scrubbing is settled. */
  lemma GoneIsSettled(secrets: seq<string>)
    requires forall k {:trigger Gone(secrets, k)} :: 0 <= k < |secrets| && secrets[k] != "" ==> Gone(secrets, k)
    ensures Settled(secrets)
  {
    forall s ensures Scrub(Scrub(s, secrets), secrets) == Scrub(s, secrets) {
      forall k | 0 <= k < |secrets| && secrets[k] != "" ensures !Contains(Scrub(s, secrets), secrets[k]) {
        assert Gone(secrets, k);
      }
      ScrubUnmatched(Scrub(s, secrets), secrets);
    }
    forall k | 0 <= k < |secrets| && secrets[k] != "" ensures !Contains(MARKER, secrets[k]) {
      MarkerIsFree(secrets, k);
    }
    ScrubUnmatched(MARKER, secrets);
  }

  lemma {:induction false} SanitizeIsStable(v: Value, secrets: seq<string>)
    requires Settled(secrets)
    ensures Stable(Sanitize(v, secrets), secrets)
    decreases v, 0
  {
    match v
    case Str(s) => assert Scrub(Scrub(s, secrets), secrets) == Scrub(s, secrets);
    case List(items) => SanitizedItemsAreStable(items, secrets);
    case Dict(entries) => SanitizedEntriesAreStable(entries, secrets);
    case Opaque(_) =>
  }

  lemma {:induction false} SanitizedItemsAreStable(items: seq<Value>, secrets: seq<string>)
    requires Settled(secrets)
    ensures ItemsStable(SanitizeItems(items, secrets), secrets)
    decreases items, 1
  {
    if items != [] {
      var last := |items| - 1;
      SanitizedItemsAreStable(items[..last], secrets);
      SanitizeIsStable(items[last], secrets);
    }
  }

  lemma {:induction false} SanitizedEntriesAreStable(entries: seq<Entry>, secrets: seq<string>)
    requires Settled(secrets)
    ensures EntriesStable(SanitizeEntries(entries, secrets), secrets)
    decreases entries, 1
  {
    if entries != [] {
      var last := |entries| - 1;
      SanitizedEntriesAreStable(entries[..last], secrets);
      SafeEntryIsStable(entries[last], secrets);
      PutKeepsStable(SanitizeEntries(entries[..last], secrets), SafeKey(entries[last].key, secrets),
        SafeValue(entries[last], secrets), secrets);
    }
  }

  lemma {:induction false} SafeEntryIsStable(entry: Entry, secrets: seq<string>)
    requires Settled(secrets)
    ensures EntryStable(Entry(SafeKey(entry.key, secrets), SafeValue(entry, secrets)), secrets)
    decreases entry, 0
  {
    assert entry.key.Name? ==> Scrub(Scrub(entry.key.s, secrets), secrets) == Scrub(entry.key.s, secrets);
    ScrubbedKey(entry.key, secrets);
    SanitizeIsStable(entry.value, secrets);
  }

  ghost predicate Idempotent(secrets: seq<string>) {
    forall v :: Sanitize(Sanitize(v, secrets), secrets) == Sanitize(v, secrets)
  }

  lemma MarkerWordGrows(secrets: seq<string>, k: nat)
    requires k < |secrets| && secrets[k] != "" && Inside(secrets[k]) && Tame(secrets, secrets)
    ensures Sanitize(Sanitize(Str(secrets[k]), secrets), secrets) != Sanitize(Str(secrets[k]), secrets)
  {
    var w := secrets[k];
    ContainsItself(w);
    ScrubShows(w, secrets, w);
    forall j | 0 <= j < |secrets| && Safe(secrets[j]) ensures !Contains(Scrub(w, secrets), secrets[j]) {
      ScrubRemoves(w, secrets, j);
    }
    ScrubCounts(Scrub(w, secrets), secrets, secrets, k);
  }

  /** Sanitizing twice is sanitizing once when every secret is covered; and exactly when no secret
      is part of the marker, if the secrets that hold a bracket are covered. */
  lemma RedactionIsIdempotentIff(secrets: seq<string>)
    ensures AllCovered(secrets) ==> Idempotent(secrets)
    ensures Tame(secrets, secrets) ==> (Idempotent(secrets) <==> Hidden(secrets))
  {
    hide Contains, Straddles;
    if Tame(secrets, secrets) && Hidden(secrets) {
      TameIsClear(secrets);
      ClearAndHidden(secrets);
    }
    if AllCovered(secrets) {
      forall k | 0 <= k < |secrets| && secrets[k] != "" ensures Gone(secrets, k) { CoveredIsGone(secrets, k); }
      GoneIsSettled(secrets);
      forall v ensures Sanitize(Sanitize(v, secrets), secrets) == Sanitize(v, secrets) {
        SanitizeIsStable(v, secrets);
        StableIsFixed(Sanitize(v, secrets), secrets);
      }
    }
    if !Hidden(secrets) && Tame(secrets, secrets) {
      var k :| 0 <= k < |secrets| && secrets[k] != "" && Inside(secrets[k]);
      MarkerWordGrows(secrets, k);
    }
  }

  lemma TameIsClear(secrets: seq<string>)
    requires Tame(secrets, secrets)
    ensures Clear(secrets)
  {
    forall k | 0 <= k < |secrets| && secrets[k] != "" && Straddles(secrets[k]) ensures Covered(secrets, k) {
      if BracketFree(secrets[k]) { BracketFreeMeans(secrets[k]); }
    }
  }

  // --- Credential fields ---

  predicate FieldsMarked(entries: seq<Entry>) {
    forall i :: 0 <= i < |entries| && IsCredential(entries[i].key) ==> entries[i].value == Str(MARKER)
  }

  lemma {:induction false} PutKeepsFields(entries: seq<Entry>, key: Key, value: Value)
    requires FieldsMarked(entries) && (IsCredential(key) ==> value == Str(MARKER))
    ensures FieldsMarked(Put(entries, key, value))
  {
    hide IsCredential;
    if entries != [] && entries[0].key != key {
      PutKeepsFields(entries[1..], key, value);
    }
  }

  /** In a sanitized dictionary a credential field holds the marker, whatever the secrets. */
  lemma {:induction false} CredentialFieldsAreRedacted(entries: seq<Entry>, secrets: seq<string>)
    ensures FieldsMarked(SanitizeEntries(entries, secrets))
    decreases entries
  {
    if entries != [] {
      var last := |entries| - 1;
      CredentialFieldsAreRedacted(entries[..last], secrets);
      ScrubbedKey(entries[last].key, secrets);
      hide IsCredential, FieldsMarked;
      PutKeepsFields(SanitizeEntries(entries[..last], secrets), SafeKey(entries[last].key, secrets),
        SafeValue(entries[last], secrets));
    }
  }

  // --- Nothing else is lost ---

  /** Every element of a list is sanitized in its place. */
  lemma {:induction false} ListKeepsPlaces(items: seq<Value>, secrets: seq<string>, i: nat)
    requires i < |items|
    ensures SanitizeItems(items, secrets)[i] == Sanitize(items[i], secrets)
    decreases items
  {
    var last := |items| - 1;
    if i < last { ListKeepsPlaces(items[..last], secrets, i); }
  }

  /** The value of a key, if it is there. */
  function Find(entries: seq<Entry>, key: Key): seq<Value> {
    if entries == [] then []
    else if entries[0].key == key then [entries[0].value]
    else Find(entries[1..], key)
  }

  lemma {:induction false} PutFinds(entries: seq<Entry>, key: Key, value: Value, k: Key)
    ensures Find(Put(entries, key, value), k) == if k == key then [value] else Find(entries, k)
  {
    if entries != [] && entries[0].key != key {
      PutFinds(entries[1..], key, value, k);
      assert Put(entries, key, value)[1..] == Put(entries[1..], key, value);
    }
  }

  /** Every entry is found under its safe key, unless a later key became the same. */
  lemma {:induction false} DictionaryKeepsEntries(entries: seq<Entry>, secrets: seq<string>, i: nat)
    requires i < |entries| && forall j :: i < j < |entries| ==>
      SafeKey(entries[j].key, secrets) != SafeKey(entries[i].key, secrets)
    ensures Find(SanitizeEntries(entries, secrets), SafeKey(entries[i].key, secrets)) ==
      [SafeValue(entries[i], secrets)]
    decreases entries
  {
    var last := |entries| - 1;
    PutFinds(SanitizeEntries(entries[..last], secrets), SafeKey(entries[last].key, secrets),
      SafeValue(entries[last], secrets), SafeKey(entries[i].key, secrets));
    if i < last { DictionaryKeepsEntries(entries[..last], secrets, i); }
  }
}
