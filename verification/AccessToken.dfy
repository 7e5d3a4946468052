/**
 Decoding of the access-token response: which of the accepted shapes, field names
 and time formats wins. JSON text is taken as decoded; the library's layout, float
 and duration parsers are parameters.
 */
module AccessToken {
  import opened Prelude

  datatype Json =
    | Null
    | Bool(value: bool)
    | Number(num: real)
    | Str(str: string)
    | Array(items: seq<Json>)
    | Object(fields: map<string, Json>)

  type Fields = map<string, Json>

  /** Decoding into a Go string, float or map: a null, or a failed decode, leaves the zero value. */
  function AsString(j: Json): string { if j.Str? then j.str else "" }

  function AsNumber(j: Json): real { if j.Number? then j.num else 0.0 }

  function AsFields(j: Json): Fields { if j.Object? then j.fields else map[] }

  /** The parsers of the standard library, and the clock (nanoseconds). */
  datatype Library = Library(
    layouts: string -> Option<int>, float: string -> Option<real>, duration: string -> Option<int>, now: int)

  // ---- Text ------------------------------------------------------------------------------

  /** `unicode.IsSpace`. */
  predicate IsSpace(c: char) {
    || '\t' <= c <= '\r' || c == ' ' || c == '\U{0085}' || c == '\U{00A0}' || c == '\U{1680}'
    || '\U{2000}' <= c <= '\U{200A}' || c == '\U{2028}' || c == '\U{2029}' || c == '\U{202F}'
    || c == '\U{205F}' || c == '\U{3000}'
  }

  function TrimSpace(s: string): string {
    if s == "" then s
    else if IsSpace(s[0]) then TrimSpace(s[1..])
    else if IsSpace(s[|s| - 1]) then TrimSpace(s[..|s| - 1])
    else s
  }

  function TrimQuotes(s: string): string {
    if s == "" then s
    else if s[0] == '"' then TrimQuotes(s[1..])
    else if s[|s| - 1] == '"' then TrimQuotes(s[..|s| - 1])
    else s
  }

  function Clean(s: string): string { TrimQuotes(TrimSpace(s)) }

  /** A field that holds some text besides white space. */
  predicate HasText(obj: Fields, key: string) { key in obj && TrimSpace(AsString(obj[key])) != "" }

  // ---- Field names, in order of precedence -----------------------------------------------

  const TOKEN_KEYS := ["token", "accessToken", "access_token", "mapToken", "map_token",
                       "x-bcrs-map-token", "x_bcrs_map_token", "jwt", "id_token"]
  const OUTER_TOKEN_KEYS := ["token", "accessToken", "access_token", "mapToken", "map_token",
                             "x-bcrs-map-token", "x_bcrs_map_token"]
  const WRAPPERS := ["data", "result", "response", "payload"]
  const EXPIRY_KEYS := ["expiresAt", "expires_at", "expireAt", "expire_at", "expiration", "exp",
                        "expiry", "expires_on", "not_after", "valid_to"]
  const LIFETIME_KEYS := ["expires_in", "expiresIn", "ttl", "max_age", "maxAge",
                          "expires_in_seconds", "expires_in_sec"]

  // ---- Specification ---------------------------------------------------------------------

  /** The object the fields are read from: the first wrapper present, if it holds a non-empty object. */
  function Target(raw: Fields): Fields {
    if "data" in raw then Unwrapped(raw, "data")
    else if "result" in raw then Unwrapped(raw, "result")
    else if "response" in raw then Unwrapped(raw, "response")
    else if "payload" in raw then Unwrapped(raw, "payload")
    else raw
  }

  function Unwrapped(raw: Fields, key: string): Fields
    requires key in raw
  {
    if AsFields(raw[key]) != map[] then AsFields(raw[key]) else raw
  }

  /** The cleaned text of the first of `keys` that has any; "" if none has. */
  function FirstText(keys: seq<string>, obj: Fields): string {
    if keys == [] then ""
    else if HasText(obj, keys[0]) then Clean(AsString(obj[keys[0]]))
    else FirstText(keys[1..], obj)
  }

  function TokenOf(target: Fields, raw: Fields): string {
    var inner := FirstText(TOKEN_KEYS, target);
    if inner != "" then inner
    else
      var outer := FirstText(OUTER_TOKEN_KEYS, raw);
      if outer != "" then outer else FirstText(WRAPPERS, raw)
  }

  function Lookup(target: Fields, raw: Fields, key: string): Option<Json> {
    if key in target then Some(target[key]) else if key in raw then Some(raw[key]) else None
  }

  const NANOS: int := 1_000_000_000

  /** A positive Unix time: milliseconds when it is too large to be seconds. */
  function FromUnix(f: real): int {
    if f > 100_000_000_000.0 then f.Floor * 1_000_000
    else f.Floor * NANOS + ((f - f.Floor as real) * (NANOS as real)).Floor
  }

  /** An absolute expiry: a text in a known layout, a number in text, or a number. */
  function InstantAt(v: Json, lib: Library): Option<int> {
    var text := TrimQuotes(TrimSpace(AsString(v)));
    if AsString(v) != "" && lib.layouts(text).Some? then lib.layouts(text)
    else if AsString(v) != "" && lib.float(text).Some? && lib.float(text).value > 0.0
    then Some(FromUnix(lib.float(text).value))
    else if AsNumber(v) > 0.0 then Some(FromUnix(AsNumber(v)))
    else None
  }

  /** A lifetime in seconds; one of 10^8 seconds or more is really a Unix time. */
  function Lifetime(seconds: real, now: int): int {
    if seconds >= 100_000_000.0 then FromUnix(seconds) else now + (seconds * (NANOS as real)).Floor
  }

  function LifetimeAt(v: Json, lib: Library): Option<int> {
    var text := TrimQuotes(TrimSpace(AsString(v)));
    if AsNumber(v) > 0.0 then Some(Lifetime(AsNumber(v), lib.now))
    else if AsString(v) != "" && lib.duration(text).Some? && lib.duration(text).value > 0
    then Some(lib.now + lib.duration(text).value)
    else if AsString(v) != "" && lib.float(text).Some? && lib.float(text).value > 0.0
    then Some(Lifetime(lib.float(text).value, lib.now))
    else None
  }

  function Instants(lib: Library): Json -> Option<int> { v => InstantAt(v, lib) }

  function Lifetimes(lib: Library): Json -> Option<int> { v => LifetimeAt(v, lib) }

  /** The first of `keys`, looked up in the target and then at the top level, that reads as a time. */
  function FirstTime(keys: seq<string>, target: Fields, raw: Fields, read: Json -> Option<int>): Option<int> {
    if keys == [] then None
    else
      var v := Lookup(target, raw, keys[0]);
      if v.Some? && read(v.value).Some? then read(v.value) else FirstTime(keys[1..], target, raw, read)
  }

  function ExpiryOf(target: Fields, raw: Fields, lib: Library): Option<int> {
    var instant := FirstTime(EXPIRY_KEYS, target, raw, Instants(lib));
    if instant.Some? then instant else FirstTime(LIFETIME_KEYS, target, raw, Lifetimes(lib))
  }

  /** The decoded token with its expiry, if any is given; None when decoding fails. */
  function Parse(data: Json, lib: Library): (r: Option<(string, Option<int>)>)
    ensures r.Some? ==> r.value.0 != ""
  {
    if !data.Object? && !data.Null? then None
    else
      var raw := AsFields(data);
      var token := TokenOf(Target(raw), raw);
      if token == "" then None else Some((token, ExpiryOf(Target(raw), raw, lib)))
  }

  predicate DecodesString(j: Json) { j.Str? || j.Null? }

  /** The status is read from the top level even when decoding then fails. */
  function StatusOf(data: Json, before: string): string {
    var raw := AsFields(data);
    if "status" in raw && DecodesString(raw["status"]) then AsString(raw["status"]) else before
  }

  // ---- The decoder -----------------------------------------------------------------------

  class AccessTokenResponse {
    var status: string
    var token: string
    var expiresAt: int

    constructor (zeroTime: int)
      ensures status == "" && token == "" && expiresAt == zeroTime
    {
      status, token, expiresAt := "", "", zeroTime;
    }

    static method SearchText(keys: seq<string>, obj: Fields) returns (text: string)
      ensures text == FirstText(keys, obj)
    {
      text := "";
      var i := 0;
      while i < |keys|
        invariant 0 <= i <= |keys|
        invariant FirstText(keys, obj) == FirstText(keys[i..], obj)
        invariant text == ""
      {
        var key := keys[i];
        if HasText(obj, key) {
          text := Clean(AsString(obj[key]));
          break;
        }
        i := i + 1;
      }
    }

    static method SearchTime(keys: seq<string>, target: Fields, raw: Fields, read: Json -> Option<int>)
      returns (t: Option<int>)
      ensures t == FirstTime(keys, target, raw, read)
    {
      var i := 0;
      while i < |keys|
        invariant 0 <= i <= |keys|
        invariant FirstTime(keys, target, raw, read) == FirstTime(keys[i..], target, raw, read)
      {
        var v := Lookup(target, raw, keys[i]);
        if v.Some? {
          t := read(v.value);
          if t.Some? { return; }
        }
        i := i + 1;
      }
      t := None;
    }

    static method SelectTarget(raw: Fields) returns (target: Fields)
      ensures target == Target(raw)
    {
      target := raw;
      if "data" in raw {
        if AsFields(raw["data"]) != map[] { target := AsFields(raw["data"]); }
      } else if "result" in raw {
        if AsFields(raw["result"]) != map[] { target := AsFields(raw["result"]); }
      } else if "response" in raw {
        if AsFields(raw["response"]) != map[] { target := AsFields(raw["response"]); }
      } else if "payload" in raw {
        if AsFields(raw["payload"]) != map[] { target := AsFields(raw["payload"]); }
      }
    }

    /** On failure `token` and `expiresAt` keep their old values. */
    method UnmarshalJSON(data: Json, lib: Library) returns (ok: bool)
      modifies this
      ensures ok == Parse(data, lib).Some?
      ensures ok ==> token == Parse(data, lib).value.0
      ensures ok ==> expiresAt == match Parse(data, lib).value.1 case Some(t) => t case None => old(expiresAt)
      ensures !ok ==> token == old(token) && expiresAt == old(expiresAt)
      ensures status == StatusOf(data, old(status))
    {
      if !data.Object? && !data.Null? { return false; }
      var raw := AsFields(data);
      var target := SelectTarget(raw);
      if "status" in raw && DecodesString(raw["status"]) { status := AsString(raw["status"]); }

      var found := SearchText(TOKEN_KEYS, target);
      if found == "" { found := SearchText(OUTER_TOKEN_KEYS, raw); }
      if found == "" { found := SearchText(WRAPPERS, raw); }
      if found == "" { return false; }
      token := found;

      var t := SearchTime(EXPIRY_KEYS, target, raw, Instants(lib));
      if t.None? { t := SearchTime(LIFETIME_KEYS, target, raw, Lifetimes(lib)); }
      if t.Some? { expiresAt := t.value; }
      return true;
    }
  }

  // ---- Properties ------------------------------------------------------------------------

  /** The first of `keys` under which the object has text is number `i`. */
  ghost predicate FirstWithText(keys: seq<string>, obj: Fields, i: int) {
    0 <= i < |keys| && HasText(obj, keys[i]) && forall j | 0 <= j < i :: !HasText(obj, keys[j])
  }

  /** The search stops at the first key that has text, and there only. */
  lemma {:induction false} FirstTextAt(keys: seq<string>, obj: Fields, i: nat)
    requires FirstWithText(keys, obj, i)
    ensures FirstText(keys, obj) == Clean(AsString(obj[keys[i]]))
    decreases i
  {
    if i > 0 { FirstTextAt(keys[1..], obj, i - 1); }
  }

  lemma {:induction false} FirstTextNone(keys: seq<string>, obj: Fields)
    requires forall j | 0 <= j < |keys| :: !HasText(obj, keys[j])
    ensures FirstText(keys, obj) == ""
    decreases |keys|
  {
    if keys != [] { FirstTextNone(keys[1..], obj); }
  }

  lemma {:induction false} FirstTimeNone(keys: seq<string>, obj: Fields, raw: Fields, read: Json -> Option<int>)
    requires forall j | 0 <= j < |keys| :: keys[j] !in raw
    ensures FirstTime(keys, obj, raw, read) == FirstTime(keys, obj, obj, read)
    decreases |keys|
  {
    if keys != [] { FirstTimeNone(keys[1..], obj, raw, read); }
  }

  /** Searching an object a second time, under fewer names, finds nothing new. */
  lemma OuterSearchRepeats(obj: Fields)
    requires FirstText(TOKEN_KEYS, obj) == ""
    ensures FirstText(OUTER_TOKEN_KEYS, obj) == ""
  {
    if i :| FirstWithText(OUTER_TOKEN_KEYS, obj, i) {
      assert forall j | 0 <= j < 7 :: TOKEN_KEYS[j] == OUTER_TOKEN_KEYS[j];
      FirstTextAt(TOKEN_KEYS, obj, i);
      FirstTextAt(OUTER_TOKEN_KEYS, obj, i);
    } else {
      NoFirstMeansNone(OUTER_TOKEN_KEYS, obj, 7);
      FirstTextNone(OUTER_TOKEN_KEYS, obj);
    }
  }

  lemma {:induction false} NoFirstMeansNone(keys: seq<string>, obj: Fields, n: nat)
    requires n <= |keys|
    requires forall i :: !FirstWithText(keys, obj, i)
    ensures forall j | 0 <= j < n :: !HasText(obj, keys[j])
    decreases n
  {
    if n > 0 {
      NoFirstMeansNone(keys, obj, n - 1);
      assert !FirstWithText(keys, obj, n - 1);
    }
  }

  /** Every name under which the decoder looks at the top level. */
  predicate Recognised(key: string) {
    key in TOKEN_KEYS || key in WRAPPERS || key in EXPIRY_KEYS || key in LIFETIME_KEYS
  }

  /** `outer` is a wrapper object: `key` holds `obj`, and its other fields mean nothing to the decoder. */
  ghost predicate Wraps(outer: Fields, key: string, obj: Fields) {
    && key in WRAPPERS && key in outer && outer[key] == Object(obj)
    && forall k | k in outer && k != key :: !Recognised(k)
  }

  /**
   Wrapper invariance: a non-empty object that does not itself contain a wrapper key
   decodes to the same token and expiry, or fails, whether it stands bare or under any
   wrapper, with whatever unrelated fields beside it.
   */
  lemma WrapperInvariance(obj: Fields, outer: Fields, key: string, lib: Library)
    requires obj != map[] && (forall w | w in WRAPPERS :: w !in obj) && Wraps(outer, key, obj)
    ensures Parse(Object(outer), lib) == Parse(Object(obj), lib)
  {
    WrapperTarget(obj, outer, key);
    assert Target(obj) == obj by { assert forall i | 0 <= i < 4 :: WRAPPERS[i] !in obj; }
    forall j | 0 <= j < |WRAPPERS| ensures !HasText(obj, WRAPPERS[j]) && !HasText(outer, WRAPPERS[j]) {
      assert WRAPPERS[j] in WRAPPERS;
    }
    FirstTextNone(WRAPPERS, obj);
    FirstTextNone(WRAPPERS, outer);
    WrapperKeysAreNoOthers(key);
    forall j | 0 <= j < |OUTER_TOKEN_KEYS| ensures !HasText(outer, OUTER_TOKEN_KEYS[j]) {
      assert OUTER_TOKEN_KEYS[j] == TOKEN_KEYS[j];
    }
    FirstTextNone(OUTER_TOKEN_KEYS, outer);
    if FirstText(TOKEN_KEYS, obj) == "" { OuterSearchRepeats(obj); }
    FirstTimeNone(EXPIRY_KEYS, obj, outer, Instants(lib));
    FirstTimeNone(LIFETIME_KEYS, obj, outer, Lifetimes(lib));
  }

  lemma WrapperKeysAreNoOthers(key: string)
    requires key in WRAPPERS
    ensures key !in TOKEN_KEYS && key !in EXPIRY_KEYS && key !in LIFETIME_KEYS
  {
  }

  /** `i` is the first wrapper key that the object has. */
  ghost predicate FirstWrapper(raw: Fields, i: nat) {
    i < |WRAPPERS| && WRAPPERS[i] in raw && forall j | 0 <= j < i :: WRAPPERS[j] !in raw
  }

  /** The target is a non-empty object under the first wrapper key, and the top level if there is no such object. */
  lemma TargetMeaning(raw: Fields)
    ensures forall i: nat | FirstWrapper(raw, i) && raw[WRAPPERS[i]].Object? && raw[WRAPPERS[i]].fields != map[] ::
              Target(raw) == raw[WRAPPERS[i]].fields
    ensures (forall i: nat | FirstWrapper(raw, i) :: !raw[WRAPPERS[i]].Object? || raw[WRAPPERS[i]].fields == map[]) ==>
              Target(raw) == raw
  {
    assert WRAPPERS[0] == "data" && WRAPPERS[1] == "result" && WRAPPERS[2] == "response" && WRAPPERS[3] == "payload";
    if "data" in raw { assert FirstWrapper(raw, 0); }
    else if "result" in raw { assert FirstWrapper(raw, 1); }
    else if "response" in raw { assert FirstWrapper(raw, 2); }
    else if "payload" in raw { assert FirstWrapper(raw, 3); }
  }

  lemma WrapperTarget(obj: Fields, outer: Fields, key: string)
    requires obj != map[] && Wraps(outer, key, obj)
    ensures Target(outer) == obj
  {
    forall i | 0 <= i < 4 && WRAPPERS[i] != key ensures WRAPPERS[i] !in outer {
      assert WRAPPERS[i] in WRAPPERS;
    }
    assert WRAPPERS[0] == "data" && WRAPPERS[1] == "result" && WRAPPERS[2] == "response" && WRAPPERS[3] == "payload";
  }

  /**
   A bare object yields a token exactly when the first of its token fields that has text
   keeps some after quotes are stripped; later fields do not matter.
   */
  lemma BareObjectSucceedsIff(obj: Fields, lib: Library)
    requires forall w | w in WRAPPERS :: w !in obj
    ensures Parse(Object(obj), lib).Some? <==>
            exists i :: FirstWithText(TOKEN_KEYS, obj, i) && Clean(AsString(obj[TOKEN_KEYS[i]])) != ""
  {
    assert Target(obj) == obj by { assert forall i | 0 <= i < 4 :: WRAPPERS[i] !in obj; }
    forall j | 0 <= j < |WRAPPERS| ensures !HasText(obj, WRAPPERS[j]) { assert WRAPPERS[j] in WRAPPERS; }
    FirstTextNone(WRAPPERS, obj);
    if FirstText(TOKEN_KEYS, obj) == "" { OuterSearchRepeats(obj); }
    if i :| FirstWithText(TOKEN_KEYS, obj, i) {
      FirstTextAt(TOKEN_KEYS, obj, i);
      forall k | FirstWithText(TOKEN_KEYS, obj, k) ensures k == i {}
    } else {
      NoFirstMeansNone(TOKEN_KEYS, obj, |TOKEN_KEYS|);
      FirstTextNone(TOKEN_KEYS, obj);
    }
  }

  /** So a token of nothing but quotes hides a good token under a later name. */
  lemma QuotesHideLaterToken(lib: Library)
    ensures Parse(Object(map["token" := Str("\"\""), "accessToken" := Str("abc")]), lib).None?
  {
    var obj := map["token" := Str("\"\""), "accessToken" := Str("abc")];
    assert TrimSpace("\"\"") == "\"\"" && TrimQuotes("\"\"") == "";
    assert TOKEN_KEYS[0] == "token" && HasText(obj, TOKEN_KEYS[0]);
    assert forall w | w in WRAPPERS :: w !in obj;
    BareObjectSucceedsIff(obj, lib);
  }
}
