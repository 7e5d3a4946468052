/**
 What the decoder of token responses does with names, texts and times, in figures: field
 names are written out, instants and lifetimes are nanoseconds.
 */
module TokenFormatLaws {
  import opened Prelude
  import opened AccessToken

  // ---- Text ------------------------------------------------------------------------------

  /** Trimming takes white space from both ends, and only that, until none is left there. */
  lemma {:induction false} TrimSpaceMeaning(s: string) returns (left: string, right: string)
    ensures s == left + TrimSpace(s) + right
    ensures (forall c | c in left :: IsSpace(c)) && (forall c | c in right :: IsSpace(c))
    ensures TrimSpace(s) != "" ==> !IsSpace(TrimSpace(s)[0]) && !IsSpace(TrimSpace(s)[|TrimSpace(s)| - 1])
    decreases |s|
  {
    if s == "" {
      left, right := "", "";
    } else if IsSpace(s[0]) {
      var rest;
      rest, right := TrimSpaceMeaning(s[1..]);
      left := [s[0]] + rest;
      assert s == [s[0]] + s[1..];
      assert left + TrimSpace(s) + right == [s[0]] + (rest + TrimSpace(s) + right);
    } else if IsSpace(s[|s| - 1]) {
      var rest;
      left, rest := TrimSpaceMeaning(s[..|s| - 1]);
      right := rest + [s[|s| - 1]];
      assert s == s[..|s| - 1] + [s[|s| - 1]];
      assert left + TrimSpace(s) + right == (left + TrimSpace(s) + rest) + [s[|s| - 1]];
    } else {
      left, right := "", "";
    }
  }

  lemma {:induction false} TrimQuotesMeaning(s: string) returns (left: string, right: string)
    ensures s == left + TrimQuotes(s) + right
    ensures (forall c | c in left :: c == '"') && (forall c | c in right :: c == '"')
    ensures TrimQuotes(s) != "" ==> TrimQuotes(s)[0] != '"' && TrimQuotes(s)[|TrimQuotes(s)| - 1] != '"'
    decreases |s|
  {
    if s == "" {
      left, right := "", "";
    } else if s[0] == '"' {
      var rest;
      rest, right := TrimQuotesMeaning(s[1..]);
      left := [s[0]] + rest;
      assert s == [s[0]] + s[1..];
      assert left + TrimQuotes(s) + right == [s[0]] + (rest + TrimQuotes(s) + right);
    } else if s[|s| - 1] == '"' {
      var rest;
      left, rest := TrimQuotesMeaning(s[..|s| - 1]);
      right := rest + [s[|s| - 1]];
      assert s == s[..|s| - 1] + [s[|s| - 1]];
      assert left + TrimQuotes(s) + right == (left + TrimQuotes(s) + rest) + [s[|s| - 1]];
    } else {
      left, right := "", "";
    }
  }

  /** White space among the ASCII characters: tab to carriage return, and the blank. */
  lemma AsciiSpace(c: char)
    requires c < 128 as char
    ensures IsSpace(c) <==> c in {'\t', '\n', '\U{000B}', '\U{000C}', '\r', ' '}
  {
  }

  // ---- Token names -----------------------------------------------------------------------

  predicate NoWrapper(obj: Fields) { "data" !in obj && "result" !in obj && "response" !in obj && "payload" !in obj }

  /** A text field that is not blank. */
  predicate Filled(obj: Fields, name: string) { name in obj && obj[name].Str? && TrimSpace(obj[name].str) != "" }

  lemma FilledIsText(obj: Fields, name: string)
    ensures Filled(obj, name) <==> HasText(obj, name)
  {
    assert TrimSpace("") == "";
  }

  lemma BareTarget(obj: Fields)
    requires NoWrapper(obj)
    ensures Target(obj) == obj && forall w | w in WRAPPERS :: w !in obj
  {
  }

  /**
   The names of the token, best first. The first that is filled gives the token: its text
   without surrounding white space and then quotes.
   */
  lemma TokenNames(obj: Fields, i: nat, lib: Library)
    requires NoWrapper(obj) && i < 9
    requires var names := ["token", "accessToken", "access_token", "mapToken", "map_token",
                           "x-bcrs-map-token", "x_bcrs_map_token", "jwt", "id_token"];
             Filled(obj, names[i]) && forall j | 0 <= j < i :: !Filled(obj, names[j])
    ensures var names := ["token", "accessToken", "access_token", "mapToken", "map_token",
                          "x-bcrs-map-token", "x_bcrs_map_token", "jwt", "id_token"];
            var text := TrimQuotes(TrimSpace(obj[names[i]].str));
            if text == "" then Parse(Object(obj), lib).None?
            else Parse(Object(obj), lib).Some? && Parse(Object(obj), lib).value.0 == text
  {
    BareTarget(obj);
    forall j | 0 <= j <= i ensures Filled(obj, TOKEN_KEYS[j]) <==> HasText(obj, TOKEN_KEYS[j]) {
      FilledIsText(obj, TOKEN_KEYS[j]);
    }
    FirstTextAt(TOKEN_KEYS, obj, i);
    forall j | 0 <= j < |WRAPPERS| ensures !HasText(obj, WRAPPERS[j]) { assert WRAPPERS[j] in WRAPPERS; }
    FirstTextNone(WRAPPERS, obj);
    if FirstText(TOKEN_KEYS, obj) == "" { OuterSearchRepeats(obj); }
  }

  /** An object without a filled token name, bare, holds no token. */
  lemma NoTokenName(obj: Fields, lib: Library)
    requires NoWrapper(obj)
    requires forall name | name in {"token", "accessToken", "access_token", "mapToken", "map_token",
                                    "x-bcrs-map-token", "x_bcrs_map_token", "jwt", "id_token"} :: !Filled(obj, name)
    ensures Parse(Object(obj), lib).None?
  {
    BareTarget(obj);
    forall j | 0 <= j < |TOKEN_KEYS| ensures !HasText(obj, TOKEN_KEYS[j]) { FilledIsText(obj, TOKEN_KEYS[j]); }
    FirstTextNone(TOKEN_KEYS, obj);
    OuterSearchRepeats(obj);
    forall j | 0 <= j < |WRAPPERS| ensures !HasText(obj, WRAPPERS[j]) { assert WRAPPERS[j] in WRAPPERS; }
    FirstTextNone(WRAPPERS, obj);
  }

  /** Wrapper number `w`, in the order in which they are tried, is the first that `outer` has, and holds `obj`. */
  ghost predicate Wrapped(outer: Fields, w: nat, obj: Fields) {
    var wrappers := ["data", "result", "response", "payload"];
    && w < 4 && wrappers[w] in outer && outer[wrappers[w]] == Object(obj) && obj != map[]
    && forall v | 0 <= v < w :: wrappers[v] !in outer
  }

  lemma WrappedTarget(outer: Fields, w: nat, obj: Fields)
    requires Wrapped(outer, w, obj)
    ensures Target(outer) == obj
  {
    var wrappers := ["data", "result", "response", "payload"];
    if w > 0 { assert wrappers[0] == "data"; }
    if w > 1 { assert wrappers[1] == "result"; }
    if w > 2 { assert wrappers[2] == "response"; }
  }

  /** The object under the first wrapper is searched first, by the same nine names. */
  lemma InnerTokenNames(outer: Fields, w: nat, obj: Fields, i: nat, lib: Library)
    requires Wrapped(outer, w, obj) && i < 9
    requires var names := ["token", "accessToken", "access_token", "mapToken", "map_token",
                           "x-bcrs-map-token", "x_bcrs_map_token", "jwt", "id_token"];
             Filled(obj, names[i]) && (forall j | 0 <= j < i :: !Filled(obj, names[j]))
             && TrimQuotes(TrimSpace(obj[names[i]].str)) != ""
    ensures var names := ["token", "accessToken", "access_token", "mapToken", "map_token",
                          "x-bcrs-map-token", "x_bcrs_map_token", "jwt", "id_token"];
            && Parse(Object(outer), lib).Some?
            && Parse(Object(outer), lib).value.0 == TrimQuotes(TrimSpace(obj[names[i]].str))
  {
    WrappedTarget(outer, w, obj);
    forall j | 0 <= j <= i ensures Filled(obj, TOKEN_KEYS[j]) <==> HasText(obj, TOKEN_KEYS[j]) {
      FilledIsText(obj, TOKEN_KEYS[j]);
    }
    FirstTextAt(TOKEN_KEYS, obj, i);
  }

  /**
   A wrapped object without a token: the first of seven names that is filled beside the
   wrapper gives it, before any text under another wrapper. `jwt` and `id_token` are not
   among them.
   */
  lemma OuterTokenNames(outer: Fields, w: nat, obj: Fields, i: nat, lib: Library)
    requires Wrapped(outer, w, obj) && FirstText(TOKEN_KEYS, obj) == "" && i < 7
    requires var names := ["token", "accessToken", "access_token", "mapToken", "map_token",
                           "x-bcrs-map-token", "x_bcrs_map_token"];
             Filled(outer, names[i]) && forall j | 0 <= j < i :: !Filled(outer, names[j])
    ensures var names := ["token", "accessToken", "access_token", "mapToken", "map_token",
                          "x-bcrs-map-token", "x_bcrs_map_token"];
            var text := TrimQuotes(TrimSpace(outer[names[i]].str));
            && (text != "" ==> Parse(Object(outer), lib).Some? && Parse(Object(outer), lib).value.0 == text)
            && (text == "" && (forall name | name in {"data", "result", "response", "payload"} :: !Filled(outer, name))
                ==> Parse(Object(outer), lib).None?)
  {
    WrappedTarget(outer, w, obj);
    forall j | 0 <= j <= i ensures Filled(outer, OUTER_TOKEN_KEYS[j]) <==> HasText(outer, OUTER_TOKEN_KEYS[j]) {
      FilledIsText(outer, OUTER_TOKEN_KEYS[j]);
    }
    FirstTextAt(OUTER_TOKEN_KEYS, outer, i);
    if forall name | name in {"data", "result", "response", "payload"} :: !Filled(outer, name) {
      forall j | 0 <= j < |WRAPPERS| ensures !HasText(outer, WRAPPERS[j]) { FilledIsText(outer, WRAPPERS[j]); }
      FirstTextNone(WRAPPERS, outer);
    }
  }

  /** Without a token name, the first wrapper that holds a text holds the token. */
  lemma WrapperText(outer: Fields, w: nat, lib: Library)
    requires forall name | name in {"token", "accessToken", "access_token", "mapToken", "map_token",
                                    "x-bcrs-map-token", "x_bcrs_map_token", "jwt", "id_token"} :: !Filled(outer, name)
    requires forall name | name in {"data", "result", "response", "payload"} && name in outer :: !outer[name].Object?
    requires var wrappers := ["data", "result", "response", "payload"];
             w < 4 && Filled(outer, wrappers[w]) && forall v | 0 <= v < w :: !Filled(outer, wrappers[v])
    ensures var wrappers := ["data", "result", "response", "payload"];
            var text := TrimQuotes(TrimSpace(outer[wrappers[w]].str));
            if text == "" then Parse(Object(outer), lib).None?
            else Parse(Object(outer), lib).Some? && Parse(Object(outer), lib).value.0 == text
  {
    assert Target(outer) == outer;
    forall j | 0 <= j < |TOKEN_KEYS| ensures !HasText(outer, TOKEN_KEYS[j]) { FilledIsText(outer, TOKEN_KEYS[j]); }
    FirstTextNone(TOKEN_KEYS, outer);
    OuterSearchRepeats(outer);
    forall v | 0 <= v <= w ensures Filled(outer, WRAPPERS[v]) <==> HasText(outer, WRAPPERS[v]) {
      FilledIsText(outer, WRAPPERS[v]);
    }
    FirstTextAt(WRAPPERS, outer, w);
  }

  /** The status is the top level's text, if that is a text. */
  lemma StatusIsRead(obj: Fields, before: string)
    ensures "status" in obj && obj["status"].Str? ==> StatusOf(Object(obj), before) == obj["status"].str
    ensures "status" in obj && obj["status"].Null? ==> StatusOf(Object(obj), before) == ""
    ensures "status" !in obj || (!obj["status"].Str? && !obj["status"].Null?) ==>
              StatusOf(Object(obj), before) == before
  {
  }

  // ---- Which time wins -------------------------------------------------------------------

  /** Where a name is looked up: in the target, else at the top level. */
  ghost predicate Holds(target: Fields, raw: Fields, name: string, v: Json) {
    (name in target && v == target[name]) || (name !in target && name in raw && v == raw[name])
  }

  /** Name number `i` is the first of `names` that reads as a time, and reads as `t`. */
  ghost predicate FirstReadable(names: seq<string>, target: Fields, raw: Fields, read: Json -> Option<int>,
                                i: nat, t: int)
  {
    && i < |names| && (exists v :: Holds(target, raw, names[i], v) && read(v) == Some(t))
    && forall j, v | 0 <= j < i && Holds(target, raw, names[j], v) :: read(v).None?
  }

  lemma {:induction false} FirstTimeMeaning(names: seq<string>, target: Fields, raw: Fields, read: Json -> Option<int>,
                                            i: nat, t: int)
    requires FirstReadable(names, target, raw, read, i, t)
    ensures FirstTime(names, target, raw, read) == Some(t)
    decreases i
  {
    var v :| Holds(target, raw, names[i], v) && read(v) == Some(t);
    if i > 0 {
      var w := Lookup(target, raw, names[0]);
      if w.Some? { assert Holds(target, raw, names[0], w.value); }
      assert names[1..][i - 1] == names[i];
      forall j, u | 0 <= j < i - 1 && Holds(target, raw, names[1..][j], u) ensures read(u).None? {
        assert names[1..][j] == names[j + 1];
      }
      FirstTimeMeaning(names[1..], target, raw, read, i - 1, t);
    }
  }

  lemma {:induction false} TimesAbsent(names: seq<string>, target: Fields, raw: Fields, read: Json -> Option<int>)
    requires forall j | 0 <= j < |names| :: names[j] !in target && names[j] !in raw
    ensures FirstTime(names, target, raw, read).None?
    decreases |names|
  {
    if names != [] { TimesAbsent(names[1..], target, raw, read); }
  }

  /** The names of an absolute expiry, and of a lifetime, best first. */
  function ExpiryNames(): seq<string> {
    ["expiresAt", "expires_at", "expireAt", "expire_at", "expiration", "exp", "expiry", "expires_on", "not_after",
     "valid_to"]
  }

  function LifetimeNames(): seq<string> {
    ["expires_in", "expiresIn", "ttl", "max_age", "maxAge", "expires_in_seconds", "expires_in_sec"]
  }

  /** The first absolute expiry that can be read wins, whatever lifetimes are given. */
  lemma ExpiryNamesWin(data: Fields, lib: Library, i: nat, t: int)
    requires Parse(Object(data), lib).Some?
    requires FirstReadable(ExpiryNames(), Target(data), data, Instants(lib), i, t)
    ensures Parse(Object(data), lib).value.1 == Some(t)
  {
    assert ExpiryNames() == EXPIRY_KEYS;
    FirstTimeMeaning(EXPIRY_KEYS, Target(data), data, Instants(lib), i, t);
  }

  ghost predicate Absent(names: seq<string>, target: Fields, raw: Fields) {
    forall j | 0 <= j < |names| :: names[j] !in target && names[j] !in raw
  }

  /** Without an expiry name the first lifetime that can be read counts. */
  lemma LifetimeNamesNext(data: Fields, lib: Library, i: nat, t: int)
    requires Parse(Object(data), lib).Some? && Absent(ExpiryNames(), Target(data), data)
    requires FirstReadable(LifetimeNames(), Target(data), data, Lifetimes(lib), i, t)
    ensures Parse(Object(data), lib).value.1 == Some(t)
  {
    assert ExpiryNames() == EXPIRY_KEYS && LifetimeNames() == LIFETIME_KEYS;
    TimesAbsent(EXPIRY_KEYS, Target(data), data, Instants(lib));
    FirstTimeMeaning(LIFETIME_KEYS, Target(data), data, Lifetimes(lib), i, t);
  }

  /** With neither there is no expiry. */
  lemma NoTimesNoExpiry(data: Fields, lib: Library)
    requires Parse(Object(data), lib).Some?
    requires Absent(ExpiryNames(), Target(data), data) && Absent(LifetimeNames(), Target(data), data)
    ensures Parse(Object(data), lib).value.1.None?
  {
    assert ExpiryNames() == EXPIRY_KEYS && LifetimeNames() == LIFETIME_KEYS;
    TimesAbsent(EXPIRY_KEYS, Target(data), data, Instants(lib));
    TimesAbsent(LIFETIME_KEYS, Target(data), data, Lifetimes(lib));
  }

  // ---- What a time is --------------------------------------------------------------------

  const BILLION: int := 1_000_000_000

  /** `ns` is `seconds` in nanoseconds, rounded down. */
  predicate RoundedDown(ns: int, seconds: real) {
    ns as real <= seconds * 1_000_000_000.0 < (ns + 1) as real
  }

  /** `ms` milliseconds are `ns` nanoseconds; a fraction of a millisecond is dropped. */
  predicate FromMillis(ns: int, ms: real) { ns % 1_000_000 == 0 && 0.0 <= ms - (ns / 1_000_000) as real < 1.0 }

  lemma UnixSeconds(f: real)
    requires 0.0 < f <= 100_000_000_000.0
    ensures RoundedDown(FromUnix(f), f)
  {
    var whole, part := f.Floor, (f - f.Floor as real) * 1_000_000_000.0;
    assert f * 1_000_000_000.0 == (whole * BILLION) as real + part;
    assert part.Floor as real <= part < (part.Floor + 1) as real;
  }

  lemma UnixMillis(f: real)
    requires f > 100_000_000_000.0
    ensures FromMillis(FromUnix(f), f)
  {
    assert FromUnix(f) == f.Floor * 1_000_000;
  }

  /** The time that a number gives: a Unix time in seconds or, above 10^11, in milliseconds. */
  ghost predicate NumberGivesInstant(n: real, t: int) {
    n > 0.0 && if n <= 100_000_000_000.0 then RoundedDown(t, n) else FromMillis(t, n)
  }

  /** A JSON number as an absolute expiry. */
  lemma NumberInstant(n: real, lib: Library)
    ensures n <= 0.0 ==> InstantAt(Number(n), lib).None?
    ensures n > 0.0 ==> InstantAt(Number(n), lib).Some? && NumberGivesInstant(n, InstantAt(Number(n), lib).value)
  {
    if n > 100_000_000_000.0 { UnixMillis(n); } else if n > 0.0 { UnixSeconds(n); }
  }

  /** A JSON number as a lifetime: seconds from now below 10^8, and a Unix time from there on. */
  ghost predicate NumberGivesLifetime(n: real, now: int, t: int) {
    n > 0.0 && if n < 100_000_000.0 then now <= t && RoundedDown(t - now, n) else NumberGivesInstant(n, t)
  }

  lemma NumberLifetime(n: real, lib: Library)
    ensures n <= 0.0 ==> LifetimeAt(Number(n), lib).None?
    ensures n > 0.0 ==>
              LifetimeAt(Number(n), lib).Some? && NumberGivesLifetime(n, lib.now, LifetimeAt(Number(n), lib).value)
  {
    if n > 100_000_000_000.0 { UnixMillis(n); } else if n >= 100_000_000.0 { UnixSeconds(n); }
  }

  /** A text as an absolute expiry, white space and quotes trimmed: a known layout first, then a positive number. */
  lemma TextInstant(raw: string, lib: Library)
    requires raw != ""
    ensures var s := TrimQuotes(TrimSpace(raw));
            && (lib.layouts(s).Some? ==> InstantAt(Str(raw), lib) == lib.layouts(s))
            && (lib.layouts(s).None? && lib.float(s).Some? && lib.float(s).value > 0.0 ==>
                  InstantAt(Str(raw), lib) == InstantAt(Number(lib.float(s).value), lib))
            && (lib.layouts(s).None? && (lib.float(s).None? || lib.float(s).value <= 0.0) ==>
                  InstantAt(Str(raw), lib).None?)
  {
  }

  /** A text as a lifetime, trimmed likewise: a positive duration first, then a positive number; else nothing. */
  lemma TextLifetime(raw: string, lib: Library)
    requires raw != ""
    ensures var s := TrimQuotes(TrimSpace(raw));
            var d, f := lib.duration(s), lib.float(s);
            LifetimeAt(Str(raw), lib) ==
            if d.Some? && d.value > 0 then Some(lib.now + d.value)
            else if f.Some? && f.value > 0.0 then LifetimeAt(Number(f.value), lib)
            else None
  {
  }

  // ---- The decoded expiry ----------------------------------------------------------------

  /** All names of a time, best first: ten of an absolute expiry, then seven of a lifetime. */
  function Names(): (names: seq<string>)
    ensures |names| == 17
    ensures forall i | 0 <= i < 10 :: names[i] == ExpiryNames()[i]
    ensures forall i | 0 <= i < 7 :: names[10 + i] == LifetimeNames()[i]
  {
    ExpiryNames() + LifetimeNames()
  }

  /** A bare object with a token, and a time under name number `i` but under no better name. */
  ghost predicate BestTime(obj: Fields, i: nat, v: Json, lib: Library) {
    && NoWrapper(obj) && i < 17 && Names()[i] in obj && obj[Names()[i]] == v
    && (forall j | 0 <= j < i :: Names()[j] !in obj)
    && Parse(Object(obj), lib).Some?
  }

  lemma BestExpiry(obj: Fields, i: nat, v: Json, lib: Library, t: int)
    requires i < 10 && BestTime(obj, i, v, lib) && InstantAt(v, lib) == Some(t)
    ensures Parse(Object(obj), lib).value.1 == Some(t)
  {
    var names := ExpiryNames();
    BareTarget(obj);
    assert Holds(obj, obj, names[i], v) && Instants(lib)(v) == Some(t);
    forall j | 0 <= j < i ensures names[j] !in obj { assert names[j] == Names()[j]; }
    ExpiryNamesWin(obj, lib, i, t);
  }

  lemma BestLifetime(obj: Fields, i: nat, v: Json, lib: Library, t: int)
    requires i < 7 && BestTime(obj, 10 + i, v, lib) && LifetimeAt(v, lib) == Some(t)
    ensures Parse(Object(obj), lib).value.1 == Some(t)
  {
    var names := LifetimeNames();
    BareTarget(obj);
    assert Holds(obj, obj, names[i], v) && Lifetimes(lib)(v) == Some(t);
    forall j | 0 <= j < i ensures names[j] !in obj { assert names[j] == Names()[10 + j]; }
    forall j | 0 <= j < 10 ensures ExpiryNames()[j] !in obj { assert ExpiryNames()[j] == Names()[j]; }
    LifetimeNamesNext(obj, lib, i, t);
  }

  /** A lifetime of n seconds, under any of its names: that many nanoseconds from now, rounded down. */
  lemma LifetimeFromNow(obj: Fields, i: nat, n: real, lib: Library)
    requires i < 7 && BestTime(obj, 10 + i, Number(n), lib) && 0.0 < n < 100_000_000.0
    ensures Parse(Object(obj), lib).value.1.Some?
    ensures var e := Parse(Object(obj), lib).value.1.value;
            lib.now <= e && (e - lib.now) as real <= n * 1_000_000_000.0 < (e - lib.now + 1) as real
  {
    NumberLifetime(n, lib);
    BestLifetime(obj, i, Number(n), lib, LifetimeAt(Number(n), lib).value);
  }

  /** An expiry of n, under any of its names: Unix seconds up to 10^11, and Unix milliseconds above. */
  lemma ExpiryIsUnixTime(obj: Fields, i: nat, n: real, lib: Library)
    requires i < 10 && BestTime(obj, i, Number(n), lib) && n > 0.0
    ensures Parse(Object(obj), lib).value.1.Some? && NumberGivesInstant(n, Parse(Object(obj), lib).value.1.value)
  {
    NumberInstant(n, lib);
    BestExpiry(obj, i, Number(n), lib, InstantAt(Number(n), lib).value);
  }

  lemma WholeSeconds(s: int)
    requires 0 < s <= 100_000_000_000
    ensures FromUnix(s as real) == s * 1_000_000_000
  {
    assert (s as real).Floor == s;
  }

  lemma WholeMillis(ms: int)
    requires ms > 100_000_000_000
    ensures FromUnix(ms as real) == ms * 1_000_000
  {
    assert (ms as real).Floor == ms;
  }

  /** A number from 10^8 on is a Unix time under every name. */
  lemma LargeNumber(obj: Fields, i: nat, n: real, lib: Library)
    requires BestTime(obj, i, Number(n), lib) && n >= 100_000_000.0
    ensures Parse(Object(obj), lib).value.1 == Some(FromUnix(n))
  {
    if i < 10 { BestExpiry(obj, i, Number(n), lib, FromUnix(n)); }
    else { BestLifetime(obj, i - 10, Number(n), lib, FromUnix(n)); }
  }

  /** A whole Unix time above 10^8, as seconds or as milliseconds, under any two names. */
  lemma SecondsAndMillisAgree(obj: Fields, other: Fields, i: nat, j: nat, s: int, lib: Library)
    requires 100_000_000 < s <= 100_000_000_000
    requires BestTime(obj, i, Number(s as real), lib) && BestTime(other, j, Number((1000 * s) as real), lib)
    ensures Parse(Object(obj), lib).value.1 == Some(s * 1_000_000_000) == Parse(Object(other), lib).value.1
  {
    LargeNumber(obj, i, s as real, lib);
    LargeNumber(other, j, (1000 * s) as real, lib);
    WholeSeconds(s);
    WholeMillis(1000 * s);
  }

  /** The same number, as a JSON number or as a text that is no date and no duration, gives the same expiry. */
  lemma NumberOrText(obj: Fields, other: Fields, i: nat, raw: string, lib: Library)
    requires var text := TrimQuotes(TrimSpace(raw));
             && raw != "" && lib.layouts(text).None? && lib.duration(text).None?
             && lib.float(text).Some? && lib.float(text).value > 0.0
             && BestTime(obj, i, Number(lib.float(text).value), lib)
    requires BestTime(other, i, Str(raw), lib)
    ensures Parse(Object(obj), lib).value.1.Some?
    ensures Parse(Object(obj), lib).value.1 == Parse(Object(other), lib).value.1
  {
    var n := Number(lib.float(TrimQuotes(TrimSpace(raw))).value);
    TextInstant(raw, lib);
    TextLifetime(raw, lib);
    NumberInstant(n.num, lib);
    NumberLifetime(n.num, lib);
    if i < 10 {
      BestExpiry(obj, i, n, lib, InstantAt(n, lib).value);
      BestExpiry(other, i, Str(raw), lib, InstantAt(n, lib).value);
    } else {
      BestLifetime(obj, i - 10, n, lib, LifetimeAt(n, lib).value);
      BestLifetime(other, i - 10, Str(raw), lib, LifetimeAt(n, lib).value);
    }
  }

  /** The same name in a wrapped object and beside it, both positive numbers: the inner one counts. */
  lemma InnerBeatsOuter(obj: Fields, outer: Fields, wrapper: string, i: nat, n: real, lib: Library)
    requires wrapper in {"data", "result", "response", "payload"}
    requires wrapper in outer && outer[wrapper] == Object(obj)
    requires forall w | w in {"data", "result", "response", "payload"} && w != wrapper :: w !in outer
    requires i < 10 && Parse(Object(outer), lib).Some? && n > 0.0
    requires ExpiryNames()[i] in obj && obj[ExpiryNames()[i]] == Number(n)
    requires forall j | 0 <= j < i :: ExpiryNames()[j] !in obj && ExpiryNames()[j] !in outer
    ensures Parse(Object(outer), lib).value.1.Some? && NumberGivesInstant(n, Parse(Object(outer), lib).value.1.value)
  {
    assert Target(outer) == obj;
    NumberInstant(n, lib);
    var t := InstantAt(Number(n), lib).value;
    assert Holds(obj, outer, ExpiryNames()[i], Number(n)) && Instants(lib)(Number(n)) == Some(t);
    ExpiryNamesWin(outer, lib, i, t);
  }
}
