/** What the redactor does to a result, said without its own functions: which keys are masked, which
    stretches of a text are rewritten, and where everything else stays. */
module RedactionMeaning {
  import opened Redaction
  import opened RedactionTheorems

  // --- Credential fields ---

  /** The fields whose values never leave. */
  predicate Listed(field: string) {
    field == "access_token" || field == "refresh_token" || field == "password" || field == "authorization" ||
    field == "cookie" || field == "set-cookie" || field == "client_secret" || field == "relay_access_token" ||
    field == "relay_refresh_token"
  }

  /** The same letter but for its case; the Kelvin sign counts as a capital K. */
  predicate SameLetter(c: char, small: char) {
    c == small || ('A' <= c <= 'Z' && c as int + 32 == small as int) || (c == '\U{212A}' && small == 'k')
  }

  predicate Spells(key: string, field: string) {
    |key| == |field| && forall i :: 0 <= i < |key| ==> SameLetter(key[i], field[i])
  }

  predicate NoCapitals(field: string) {
    forall i :: 0 <= i < |field| ==> !('A' <= field[i] <= 'Z') && field[i] != '\U{212A}'
  }

  lemma {:induction false} LowerSpells(key: string)
    ensures |Lower(key)| == |key| && NoCapitals(Lower(key)) && Spells(key, Lower(key))
  {
    if key != "" { LowerSpells(key[1..]); }
  }

  /** A word has one spelling in small letters. */
  lemma SpellsOne(key: string, a: string, b: string)
    requires Spells(key, a) && Spells(key, b) && NoCapitals(a) && NoCapitals(b)
    ensures a == b
  {
    forall i | 0 <= i < |key| ensures a[i] == b[i] {
      assert SameLetter(key[i], a[i]) && SameLetter(key[i], b[i]);
    }
  }

  lemma ListedHasNoCapitals(field: string)
    requires Listed(field)
    ensures NoCapitals(field)
  {
    LongNames();
    RelayNames();
    ShortNames();
    hide NoCapitals;
  }

  lemma LongNames()
    ensures NoCapitals("access_token") && NoCapitals("refresh_token") && NoCapitals("client_secret")
  {
  }

  lemma RelayNames()
    ensures NoCapitals("relay_access_token") && NoCapitals("relay_refresh_token")
  {
  }

  lemma ShortNames()
    ensures NoCapitals("password") && NoCapitals("authorization") && NoCapitals("cookie") && NoCapitals("set-cookie")
  {
  }

  lemma CredentialIff(key: Key)
    ensures IsCredential(key) <==>
      exists field :: Listed(field) && Spells(if key.Name? then key.s else key.display, field)
  {
    var word := if key.Name? then key.s else key.display;
    LowerSpells(word);
    assert Listed(Lower(word)) <==> Lower(word) in CREDENTIAL_FIELDS;
    hide Lower, Spells, NoCapitals;
    if field :| Listed(field) && Spells(word, field) {
      ListedHasNoCapitals(field);
      SpellsOne(word, field, Lower(word));
    }
    hide Listed;
  }

  /** In a sanitized dictionary the value under a key is masked exactly when the key, or its display
      form, spells a listed field in any mixture of cases; otherwise it is the sanitized value. */
  lemma MaskedIff(entries: seq<Entry>, secrets: seq<string>, i: nat)
    requires i < |entries| && forall j :: i < j < |entries| ==>
      SafeKey(entries[j].key, secrets) != SafeKey(entries[i].key, secrets)
    ensures
      var key := entries[i].key;
      Find(SanitizeEntries(entries, secrets), SafeKey(key, secrets)) ==
      [if exists field :: Listed(field) && Spells(if key.Name? then key.s else key.display, field)
       then Str("[redacted]") else Sanitize(entries[i].value, secrets)]
  {
    DictionaryKeepsEntries(entries, secrets, i);
    CredentialIff(entries[i].key);
    hide IsCredential, Listed, Spells, Find, SafeKey;
  }

  // --- Replacement ---

  /** The pieces with the separator between them. */
  function Joined(pieces: seq<string>, separator: string): string
    requires pieces != []
  {
    if |pieces| == 1 then pieces[0] else pieces[0] + separator + Joined(pieces[1..], separator)
  }

  /** Cutting at the pieces takes the leftmost match each time and leaves none. */
  predicate LeftmostCuts(pieces: seq<string>, v: string) {
    pieces != [] && !Contains(pieces[|pieces| - 1], v) &&
    forall i, j :: 0 <= i < |pieces| - 1 && 0 <= j < |pieces[i]| ==> !(v <= (pieces[i] + v)[j..])
  }

  /** A text is cut at the leftmost matches, one after the other, and put together again with the
      marker in their place; nothing else of it changes. */
  lemma {:induction false} ReplaceRewritesMatches(s: string, v: string) returns (pieces: seq<string>)
    requires v != ""
    ensures LeftmostCuts(pieces, v)
    ensures Joined(pieces, v) == s && Replace(s, v) == Joined(pieces, "[redacted]")
  {
    if s == "" {
      pieces := [""];
    } else if v <= s {
      var rest := ReplaceRewritesMatches(s[|v|..], v);
      pieces := [""] + rest;
      CutsCons("", rest, v);
      assert s == v + s[|v|..];
    } else {
      var rest := ReplaceRewritesMatches(s[1..], v);
      pieces := [s[..1] + rest[0]] + rest[1..];
      Lengthened(s, rest, v);
    }
  }

  lemma CutsCons(piece: string, rest: seq<string>, v: string)
    requires LeftmostCuts(rest, v) && forall j :: 0 <= j < |piece| ==> !(v <= (piece + v)[j..])
    ensures
      var pieces := [piece] + rest;
      LeftmostCuts(pieces, v) && forall separator ::
        Joined(pieces, separator) == piece + separator + Joined(rest, separator)
  {
    var pieces := [piece] + rest;
    assert pieces[1..] == rest && pieces[|pieces| - 1] == rest[|rest| - 1];
    forall i, j | 0 <= i < |pieces| - 1 && 0 <= j < |pieces[i]| ensures !(v <= (pieces[i] + v)[j..]) {
      if i > 0 { assert pieces[i] == rest[i - 1]; }
    }
  }

  /** One more character before the first piece, where no match begins. */
  lemma Lengthened(s: string, rest: seq<string>, v: string)
    requires s != "" && v != "" && !(v <= s) && LeftmostCuts(rest, v) && Joined(rest, v) == s[1..]
    ensures
      var pieces := [s[..1] + rest[0]] + rest[1..];
      LeftmostCuts(pieces, v) && Joined(pieces, v) == s &&
      forall separator :: Joined(pieces, separator) == s[..1] + Joined(rest, separator)
  {
    var first := s[..1] + rest[0];
    var pieces := [first] + rest[1..];
    assert s == s[..1] + s[1..];
    if |rest| == 1 {
      assert rest == [rest[0]] && pieces == [first] && first == s;
      assert s[1..] == rest[0];
    } else {
      assert pieces[1..] == rest[1..];
      forall j | 0 <= j < |first| ensures !(v <= (first + v)[j..]) {
        if j == 0 {
          assert first + v + Joined(rest[1..], v) == s;
          assert v <= first + v ==> v <= s;
        } else {
          assert (first + v)[j..] == (rest[0] + v)[j - 1..];
        }
      }
      forall separator ensures Joined(pieces, separator) == s[..1] + Joined(rest, separator) {
        assert s[..1] + rest[0] + separator + Joined(rest[1..], separator) ==
          s[..1] + (rest[0] + separator + Joined(rest[1..], separator));
      }
      forall i, j | 0 <= i < |pieces| - 1 && 0 <= j < |pieces[i]| ensures !(v <= (pieces[i] + v)[j..]) {
        if i > 0 { assert pieces[i] == rest[i]; }
      }
    }
  }

  // --- Secret after secret ---

  /** A list of secrets works like its first part and then its second; empty secrets do nothing. */
  lemma {:induction false} ScrubInOrder(s: string, secrets: seq<string>, more: seq<string>)
    ensures Scrub(s, secrets + more) == Scrub(Scrub(s, secrets), more)
    ensures forall w :: Scrub(s, [w]) == if w == "" then s else Replace(s, w)
    decreases |secrets|
  {
    forall w ensures Scrub(s, [w]) == if w == "" then s else Replace(s, w) { assert [w][1..] == []; }
    if secrets == [] {
      assert secrets + more == more;
    } else {
      assert (secrets + more)[1..] == secrets[1..] + more;
      ScrubInOrder(if secrets[0] == "" then s else Replace(s, secrets[0]), secrets[1..], more);
    }
  }

  /** A text, alone or as a key, is rewritten for one secret after the other. */
  lemma TextIsRewritten(s: string, secrets: seq<string>, w: string) returns (pieces: seq<string>)
    requires w != ""
    ensures LeftmostCuts(pieces, w)
    ensures Joined(pieces, w) == Scrub(s, secrets)
    ensures Sanitize(Str(s), secrets + [w]) == Str(Joined(pieces, "[redacted]"))
    ensures SafeKey(Name(s), secrets + [w]) == Name(Joined(pieces, "[redacted]"))
    ensures Sanitize(Str(s), []) == Str(s) && SafeKey(Name(s), []) == Name(s)
  {
    ScrubInOrder(s, secrets, [w]);
    ScrubInOrder(Scrub(s, secrets), [], []);
    pieces := ReplaceRewritesMatches(Scrub(s, secrets), w);
  }

  // --- Dictionaries ---

  function Keys(entries: seq<Entry>): (keys: seq<Key>)
    ensures |keys| == |entries| && forall i :: 0 <= i < |keys| ==> keys[i] == entries[i].key
  {
    seq(|entries|, i requires 0 <= i < |entries| => entries[i].key)
  }

  /** Without what occurs a second time. */
  function Firsts(keys: seq<Key>): seq<Key> {
    if keys == [] then []
    else
      var (before, last) := (Firsts(keys[..|keys| - 1]), keys[|keys| - 1]);
      if last in before then before else before + [last]
  }

  function SafeKeys(entries: seq<Entry>, secrets: seq<string>): (keys: seq<Key>)
    ensures |keys| == |entries| && forall i :: 0 <= i < |keys| ==> keys[i] == SafeKey(entries[i].key, secrets)
  {
    seq(|entries|, i requires 0 <= i < |entries| => SafeKey(entries[i].key, secrets))
  }

  lemma {:induction false} PutKeys(entries: seq<Entry>, key: Key, value: Value)
    ensures Keys(Put(entries, key, value)) == if key in Keys(entries) then Keys(entries) else Keys(entries) + [key]
  {
    if entries == [] {
    } else if entries[0].key == key {
      assert Keys(entries)[0] == key;
      assert forall i :: 0 < i < |entries| ==> Put(entries, key, value)[i] == entries[i];
    } else {
      PutKeys(entries[1..], key, value);
      assert Keys(entries) == [entries[0].key] + Keys(entries[1..]);
      assert Keys(Put(entries, key, value)) == [entries[0].key] + Keys(Put(entries[1..], key, value));
      assert key in Keys(entries) <==> key in Keys(entries[1..]);
    }
  }

  /** A sanitized dictionary has the sanitized keys, each where it first came up. */
  lemma {:induction false} DictionaryKeepsOrder(entries: seq<Entry>, secrets: seq<string>)
    ensures Keys(SanitizeEntries(entries, secrets)) == Firsts(SafeKeys(entries, secrets))
    decreases entries
  {
    var keys := SafeKeys(entries, secrets);
    if entries != [] {
      var last := |entries| - 1;
      DictionaryKeepsOrder(entries[..last], secrets);
      assert keys[..last] == SafeKeys(entries[..last], secrets);
      PutKeys(SanitizeEntries(entries[..last], secrets), keys[last], SafeValue(entries[last], secrets));
    }
  }
}
