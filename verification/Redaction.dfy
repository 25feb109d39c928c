/** `RemoteRelayClient.sanitize_result`: what a tool returns is stripped of every credential the
    call has handled. */
module Redaction {

  // --- Results: JSON-like values with ordered dictionaries ---

  /** Anything that is neither a dictionary, a list nor a string is returned as it is. */
  datatype Value = Str(s: string) | List(items: seq<Value>) | Dict(entries: seq<Entry>) | Opaque(id: nat)

  datatype Entry = Entry(key: Key, value: Value)

  /** A key that is not a string is tested by its display form and kept. */
  datatype Key = Name(s: string) | OpaqueKey(id: nat, display: string)

  const MARKER := "[redacted]"

  const CREDENTIAL_FIELDS: set<string> := {
    "access_token", "refresh_token", "password", "authorization", "cookie", "set-cookie",
    "client_secret", "relay_access_token", "relay_refresh_token"
  }

  /** `str.lower`, as far as it can produce an ASCII letter: the capitals and the Kelvin sign. */
  function LowerChar(c: char): char {
    if 'A' <= c <= 'Z' then c - 'A' + 'a' else if c == '\U{212A}' then 'k' else c
  }

  function Lower(s: string): string {
    if s == "" then "" else [LowerChar(s[0])] + Lower(s[1..])
  }

  predicate IsCredential(key: Key) {
    Lower(if key.Name? then key.s else key.display) in CREDENTIAL_FIELDS
  }

  // --- Strings ---

  predicate Contains(s: string, v: string) {
    v <= s || (s != "" && Contains(s[1..], v))
  }

  /** `s.replace(v, "[redacted]")`: leftmost occurrences, not overlapping. */
  function Replace(s: string, v: string): string
    requires v != ""
  {
    if s == "" then ""
    else if v <= s then MARKER + Replace(s[|v|..], v)
    else s[..1] + Replace(s[1..], v)
  }

  function Scrub(s: string, secrets: seq<string>): string
    decreases |secrets|
  {
    if secrets == [] then s
    else Scrub(if secrets[0] == "" then s else Replace(s, secrets[0]), secrets[1..])
  }

  // --- Values ---

  function SafeKey(key: Key, secrets: seq<string>): Key {
    if key.Name? then Name(Scrub(key.s, secrets)) else key
  }

  /** Assigning to a dictionary: a key keeps the place it was first given. */
  function Put(entries: seq<Entry>, key: Key, value: Value): (r: seq<Entry>)
    ensures |entries| <= |r| <= |entries| + 1
  {
    if entries == [] then [Entry(key, value)]
    else if entries[0].key == key then [Entry(key, value)] + entries[1..]
    else entries[..1] + Put(entries[1..], key, value)
  }

  function Sanitize(v: Value, secrets: seq<string>): Value
    decreases v, 0
  {
    match v
    case Str(s) => Str(Scrub(s, secrets))
    case List(items) => List(SanitizeItems(items, secrets))
    case Dict(entries) => Dict(SanitizeEntries(entries, secrets))
    case Opaque(_) => v
  }

  function SanitizeItems(items: seq<Value>, secrets: seq<string>): (r: seq<Value>)
    ensures |r| == |items|
    decreases items, 1
  {
    if items == [] then []
    else
      var last := |items| - 1;
      SanitizeItems(items[..last], secrets) + [Sanitize(items[last], secrets)]
  }

  function SafeValue(entry: Entry, secrets: seq<string>): Value
    decreases entry, 1
  {
    if IsCredential(entry.key) then Str(MARKER) else Sanitize(entry.value, secrets)
  }

  function SanitizeEntries(entries: seq<Entry>, secrets: seq<string>): seq<Entry>
    decreases entries, 1
  {
    if entries == [] then []
    else
      var last := |entries| - 1;
      Put(SanitizeEntries(entries[..last], secrets), SafeKey(entries[last].key, secrets),
        SafeValue(entries[last], secrets))
  }

  /** The client; `secrets` is the list the request session goes on extending. */
  class RemoteRelayClient {
    var secrets: seq<string>

    constructor (secrets: seq<string>)
      ensures this.secrets == secrets
    {
      this.secrets := secrets;
    }

    method SanitizeString(s: string) returns (result: string)
      ensures result == Scrub(s, secrets)
    {
      result := s;
      for i := 0 to |secrets|
        invariant Scrub(result, secrets[i..]) == Scrub(s, secrets)
      {
        var value := secrets[i];
        assert secrets[i..][1..] == secrets[i + 1..];
        if value != "" {
          result := Replace(result, value);
        }
      }
    }

    method SanitizeKey(key: Key) returns (safeKey: Key)
      ensures safeKey == SafeKey(key, secrets)
    {
      if key.Name? {
        var s := SanitizeString(key.s);
        return Name(s);
      }
      safeKey := key;
    }

    method SanitizeResult(result: Value) returns (sanitized: Value)
      ensures sanitized == Sanitize(result, secrets)
      decreases result
    {
      match result {
        case Dict(entries) =>
          var dict := [];
          for i := 0 to |entries|
            invariant dict == SanitizeEntries(entries[..i], secrets)
          {
            var key, value := entries[i].key, entries[i].value;
            assert entries[..i + 1][..i] == entries[..i];
            var safeKey := SanitizeKey(key);
            if IsCredential(key) {
              dict := Put(dict, safeKey, Str(MARKER));
            } else {
              var safeValue := SanitizeResult(value);
              dict := Put(dict, safeKey, safeValue);
            }
          }
          assert entries[..|entries|] == entries;
          sanitized := Dict(dict);
        case List(items) =>
          var list := [];
          for i := 0 to |items|
            invariant list == SanitizeItems(items[..i], secrets)
          {
            assert items[..i + 1][..i] == items[..i];
            var item := SanitizeResult(items[i]);
            list := list + [item];
          }
          assert items[..|items|] == items;
          sanitized := List(list);
        case Str(s) =>
          var safe := SanitizeString(s);
          sanitized := Str(safe);
        case Opaque(_) => sanitized := result;
      }
    }
  }
}
