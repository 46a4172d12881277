/** The placeholder substitution of ProvisionVPS in internal/service/provision.go:
    three calls of strings.ReplaceAll, one after the other, and when that is the
    same as filling in all three placeholders at once. */
module CloudInit {
  datatype Key = Host | Id | Token

  const API_HOST := "API_HOST"
  const INSTANCE_ID := "INSTANCE_ID"
  const API_TOKEN := "API_TOKEN"

  function Name(key: Key): string {
    match key
    case Host => API_HOST
    case Id => INSTANCE_ID
    case Token => API_TOKEN
  }

  /** The API URL, the VPS id in decimal and the callback token in hexadecimal. */
  datatype Values = Values(url: string, id: string, token: string) {
    function Of(key: Key): string {
      match key
      case Host => url
      case Id => id
      case Token => token
    }
  }

  predicate StartsWith(s: string, prefix: string) {
    |prefix| <= |s| && forall i :: 0 <= i < |prefix| ==> s[i] == prefix[i]
  }

  /** strings.ReplaceAll for a non-empty pattern: left to right, without looking
      again at what was put in. */
  function ReplaceAll(s: string, pattern: string, value: string): string
    requires pattern != ""
    decreases |s|
  {
    if s == "" then ""
    else if StartsWith(s, pattern) then value + ReplaceAll(s[|pattern|..], pattern, value)
    else [s[0]] + ReplaceAll(s[1..], pattern, value)
  }

  /** What the source computes. */
  function Sequential(template: string, vals: Values): string {
    var hosted := ReplaceAll(template, API_HOST, vals.url);
    var numbered := ReplaceAll(hosted, INSTANCE_ID, vals.id);
    ReplaceAll(numbered, API_TOKEN, vals.token)
  }

  predicate KeyAt(keys: set<Key>, s: string) {
    exists key :: key in keys && StartsWith(s, Name(key))
  }

  function TheKey(s: string): Key {
    if StartsWith(s, API_HOST) then Host else if StartsWith(s, INSTANCE_ID) then Id else Token
  }

  /** One left-to-right pass that fills in the given placeholders of the template
      and looks at nothing but the template. */
  function Substitute(keys: set<Key>, s: string, vals: Values): string
    decreases |s|
  {
    if s == "" then ""
    else if KeyAt(keys, s) then
      UniqueKey(keys, s);
      vals.Of(TheKey(s)) + Substitute(keys, s[|Name(TheKey(s))|..], vals)
    else [s[0]] + Substitute(keys, s[1..], vals)
  }

  const ALL_KEYS := {Host, Id, Token}

  function Simultaneous(template: string, vals: Values): string {
    Substitute(ALL_KEYS, template, vals)
  }

  // No placeholder is a prefix of another.
  lemma UniqueKey(keys: set<Key>, s: string)
    requires KeyAt(keys, s)
    ensures TheKey(s) in keys && StartsWith(s, Name(TheKey(s)))
    ensures forall key :: StartsWith(s, Name(key)) ==> key == TheKey(s)
  {
    forall key | StartsWith(s, Name(key)) ensures key == TheKey(s) {
      assert s[0] == Name(key)[0] && s[4] == Name(key)[4];
    }
  }

  // Every placeholder begins with AP or IN, and those pairs occur nowhere else in one.
  lemma KeyPairs(key: Key, other: Key, i: nat)
    requires 1 <= i < |Name(key)|
    ensures |Name(other)| >= 2
    ensures i + 1 < |Name(key)| ==> Name(key)[i] != Name(other)[0] || Name(key)[i + 1] != Name(other)[1]
    ensures i + 1 == |Name(key)| ==> Name(key)[i] != Name(other)[0]
  {
  }

  // No placeholder starts inside another one.
  lemma NoKeyInside(s: string, key: Key, other: Key, i: nat)
    requires StartsWith(s, Name(key)) && 1 <= i < |Name(key)|
    ensures !StartsWith(s[i..], Name(other))
  {
    KeyPairs(key, other, i);
    var rest := s[i..];
    assert rest[0] == Name(key)[i];
    assert i + 1 < |Name(key)| ==> rest[1] == Name(key)[i + 1];
  }

  /** The one pass, step by step: the three placeholders give way to the URL, the id
      and the token, everything else is copied, and what was put in is passed over. */
  lemma OnePass(s: string, vals: Values)
    ensures Simultaneous("", vals) == ""
    ensures "API_HOST" <= s ==> Simultaneous(s, vals) == vals.url + Simultaneous(s[8..], vals)
    ensures "INSTANCE_ID" <= s ==> Simultaneous(s, vals) == vals.id + Simultaneous(s[11..], vals)
    ensures "API_TOKEN" <= s ==> Simultaneous(s, vals) == vals.token + Simultaneous(s[9..], vals)
    ensures s != "" && !("API_HOST" <= s) && !("INSTANCE_ID" <= s) && !("API_TOKEN" <= s) ==>
      Simultaneous(s, vals) == [s[0]] + Simultaneous(s[1..], vals)
  {
    PrefixOf(API_HOST, s);
    PrefixOf(INSTANCE_ID, s);
    PrefixOf(API_TOKEN, s);
    hide StartsWith;
    forall key | StartsWith(s, Name(key))
      ensures Simultaneous(s, vals) == vals.Of(key) + Simultaneous(s[|Name(key)|..], vals)
    {
      KeyFirst(key, s, vals);
    }
    assert StartsWith(s, Name(Host)) || StartsWith(s, Name(Id)) || StartsWith(s, Name(Token)) || !KeyAt(ALL_KEYS, s);
    assert Name(Host) == "API_HOST" && Name(Id) == "INSTANCE_ID" && Name(Token) == "API_TOKEN";
  }

  lemma PrefixOf(prefix: string, s: string)
    ensures StartsWith(s, prefix) <==> prefix <= s
  {
  }

  // Text in which no placeholder starts is copied.
  lemma {:induction false} CopyPlain(keys: set<Key>, s: string, vals: Values, n: nat)
    requires n <= |s| && forall i :: 0 <= i < n ==> !KeyAt(keys, s[i..])
    ensures Substitute(keys, s, vals) == s[..n] + Substitute(keys, s[n..], vals)
    decreases n
  {
    if n > 0 {
      assert s[0..] == s;
      forall i | 0 <= i < n - 1 ensures !KeyAt(keys, s[1..][i..]) {
        assert s[1..][i..] == s[i + 1..];
      }
      CopyPlain(keys, s[1..], vals, n - 1);
      assert s[1..][n - 1..] == s[n..];
      assert [s[0]] + s[1..][..n - 1] == s[..n];
    } else {
      assert s[0..] == s;
    }
  }

  // ---- Values that cannot interfere ----

  /** The placeholder laid over the value at some offset agrees with it wherever they
      overlap, so text around the value can complete the placeholder. An empty value
      is straddled by everything: it joins the text on its two sides. */
  ghost predicate Straddles(name: string, value: string) {
    exists offset: int :: OverlapsAt(name, value, offset)
  }

  ghost predicate OverlapsAt(name: string, value: string, offset: int) {
    && -|name| < offset < |value|
    && forall j :: 0 <= j < |name| && 0 <= offset + j < |value| ==> name[j] == value[offset + j]
  }

  /** What an operator can check of the API URL before starting the service. */
  ghost predicate Harmless(url: string) {
    !Straddles("INSTANCE_ID", url) && !Straddles("API_TOKEN", url)
  }

  predicate KeyChar(c: char) {
    'A' <= c <= 'Z' || c == '_'
  }

  /** The decimal id and the lower-case hexadecimal token are of this kind. */
  predicate Clean(value: string) {
    value != "" && forall i :: 0 <= i < |value| ==> !KeyChar(value[i])
  }

  lemma NameChars(key: Key)
    ensures forall i :: 0 <= i < |Name(key)| ==> KeyChar(Name(key)[i])
  {
  }

  lemma CleanNeverStraddled(value: string, key: Key)
    requires Clean(value)
    ensures !Straddles(Name(key), value)
  {
    NameChars(key);
    forall offset: int | -|Name(key)| < offset < |value| ensures !OverlapsAt(Name(key), value, offset) {
      var j := if offset < 0 then -offset else 0;
      assert KeyChar(Name(key)[j]) && !KeyChar(value[offset + j]);
    }
  }

  // Replacing passes over a value that the pattern cannot reach into.
  lemma {:induction false} SkipValue(value: string, i: nat, rest: string, name: string, filler: string)
    requires name != "" && i <= |value| && !Straddles(name, value)
    ensures ReplaceAll(value[i..] + rest, name, filler) == value[i..] + ReplaceAll(rest, name, filler)
    decreases |value| - i
  {
    var s := value[i..] + rest;
    if i == |value| {
      assert s == rest;
    } else {
      assert !OverlapsAt(name, value, i);
      assert forall j :: 0 <= j < |value| - i ==> s[j] == value[i + j];
      assert !StartsWith(s, name);
      assert s[1..] == value[i + 1..] + rest;
      SkipValue(value, i + 1, rest, name, filler);
    }
  }

  // A value that is not straddled does not continue a placeholder begun before it.
  lemma ValueBlocks(name: string, value: string, rest: string, j: nat)
    requires 1 <= j < |name| && !Straddles(name, value)
    ensures !StartsWith(value + rest, name[j..])
  {
    assert !OverlapsAt(name, value, -1) && !OverlapsAt(name, value, 0 - j);
    var i :| 0 <= i < |name| && 0 <= i - j < |value| && name[i] != value[i - j];
    assert (value + rest)[i - j] == value[i - j] && name[j..][i - j] == name[i];
  }

  lemma StartsWithStep(s: string, prefix: string)
    requires s != "" && prefix != ""
    ensures StartsWith(s, prefix) <==> s[0] == prefix[0] && StartsWith(s[1..], prefix[1..])
  {
    assert forall i :: 0 <= i < |s| - 1 ==> s[1..][i] == s[i + 1];
    assert forall i :: 0 <= i < |prefix| - 1 ==> prefix[1..][i] == prefix[i + 1];
    if s[0] == prefix[0] && StartsWith(s[1..], prefix[1..]) {
      forall i | 1 <= i < |prefix| ensures s[i] == prefix[i] {
        assert s[1..][i - 1] == prefix[1..][i - 1];
      }
    }
  }

  // Substituting other placeholders never completes a placeholder begun in the text.
  lemma {:induction false} NothingCompleted(keys: set<Key>, s: string, vals: Values, key: Key, j: nat)
    requires 1 <= j <= |Name(key)|
    requires forall k :: k in keys ==> !Straddles(Name(key), vals.Of(k))
    requires StartsWith(Substitute(keys, s, vals), Name(key)[j..])
    ensures StartsWith(s, Name(key)[j..])
    decreases |s|
  {
    var tail := Name(key)[j..];
    if tail != "" {
      if KeyAt(keys, s) {
        UniqueKey(keys, s);
        ValueBlocks(Name(key), vals.Of(TheKey(s)), Substitute(keys, s[|Name(TheKey(s))|..], vals), j);
        assert false;
      } else {
        var rest := Substitute(keys, s[1..], vals);
        assert Substitute(keys, s, vals) == [s[0]] + rest;
        assert tail[1..] == Name(key)[j + 1..];
        StartsWithStep([s[0]] + rest, tail);
        assert ([s[0]] + rest)[1..] == rest;
        NothingCompleted(keys, s[1..], vals, key, j + 1);
        StartsWithStep(s, tail);
      }
    }
  }

  /** Replacing one more placeholder in a text in which others were filled in is the
      same as filling it in together with them. */
  lemma {:induction false} AddKey(keys: set<Key>, key: Key, s: string, vals: Values)
    requires key !in keys && forall k :: k in keys ==> !Straddles(Name(key), vals.Of(k))
    ensures ReplaceAll(Substitute(keys, s, vals), Name(key), vals.Of(key)) == Substitute(keys + {key}, s, vals)
    decreases |s|
  {
    if s == "" {
    } else if KeyAt(keys, s) {
      UniqueKey(keys, s);
      assert KeyAt(keys + {key}, s);
      var found := TheKey(s);
      var rest := s[|Name(found)|..];
      var value := vals.Of(found);
      AddKey(keys, key, rest, vals);
      SkipValue(value, 0, Substitute(keys, rest, vals), Name(key), vals.Of(key));
      assert value[0..] == value;
    } else if StartsWith(s, Name(key)) {
      AddKeyHere(keys, key, s, vals);
      AddKey(keys, key, s[|Name(key)|..], vals);
    } else {
      assert !KeyAt(keys + {key}, s);
      AddKey(keys, key, s[1..], vals);
      NotCompletedHere(keys, key, s, vals);
    }
  }

  lemma AddKeyHere(keys: set<Key>, key: Key, s: string, vals: Values)
    requires key !in keys && StartsWith(s, Name(key)) && !KeyAt(keys, s)
    ensures var rest := s[|Name(key)|..];
            && ReplaceAll(Substitute(keys, s, vals), Name(key), vals.Of(key))
               == vals.Of(key) + ReplaceAll(Substitute(keys, rest, vals), Name(key), vals.Of(key))
            && Substitute(keys + {key}, s, vals) == vals.Of(key) + Substitute(keys + {key}, rest, vals)
  {
    var n := |Name(key)|;
    forall i | 0 <= i < n ensures !KeyAt(keys, s[i..]) {
      if i == 0 {
        assert s[0..] == s;
      } else {
        forall other ensures !StartsWith(s[i..], Name(other)) {
          NoKeyInside(s, key, other, i);
        }
      }
    }
    CopyPlain(keys, s, vals, n);
    var out := Substitute(keys, s, vals);
    assert s[..n] == Name(key) && out[n..] == Substitute(keys, s[n..], vals);
    assert KeyAt(keys + {key}, s);
    UniqueKey(keys + {key}, s);
  }

  lemma NotCompletedHere(keys: set<Key>, key: Key, s: string, vals: Values)
    requires s != "" && !KeyAt(keys, s) && !StartsWith(s, Name(key))
    requires forall k :: k in keys ==> !Straddles(Name(key), vals.Of(k))
    ensures !StartsWith(Substitute(keys, s, vals), Name(key))
    ensures Substitute(keys, s, vals)[1..] == Substitute(keys, s[1..], vals)
  {
    var out, rest := Substitute(keys, s, vals), Substitute(keys, s[1..], vals);
    var name := Name(key);
    assert out == [s[0]] + rest;
    if s[0] == name[0] {
      assert !StartsWith(s[1..], name[1..]) by {
        assert forall i :: 1 <= i < |s| ==> s[i] == s[1..][i - 1];
      }
      if StartsWith(rest, name[1..]) {
        NothingCompleted(keys, s[1..], vals, key, 1);
        assert false;
      }
      assert forall i :: 1 <= i < |out| ==> out[i] == rest[i - 1];
    }
  }

  lemma {:induction false} NoKeys(s: string, vals: Values)
    ensures Substitute({}, s, vals) == s
    decreases |s|
  {
    if s != "" {
      NoKeys(s[1..], vals);
    }
  }

  lemma HarmlessSuffices(template: string, vals: Values)
    requires Harmless(vals.url) && Clean(vals.id)
    ensures Sequential(template, vals) == Simultaneous(template, vals)
  {
    NoKeys(template, vals);
    AddKey({}, Host, template, vals);
    assert {} + {Host} == {Host};
    AddKey({Host}, Id, template, vals);
    CleanNeverStraddled(vals.id, Token);
    AddKey({Host, Id}, Token, template, vals);
    assert {Host} + {Id} == {Host, Id} && {Host, Id} + {Token} == ALL_KEYS;
  }

  // ---- Values that do interfere ----

  function KeyChars(s: string): nat {
    if s == "" then 0 else (if KeyChar(s[0]) then 1 else 0) + KeyChars(s[1..])
  }

  lemma {:induction false} KeyCharsAppend(a: string, b: string)
    ensures KeyChars(a + b) == KeyChars(a) + KeyChars(b)
    decreases a
  {
    if a == "" {
      assert a + b == b;
    } else {
      assert (a + b)[1..] == a[1..] + b;
      KeyCharsAppend(a[1..], b);
    }
  }

  lemma {:induction false} CleanHasNone(s: string)
    requires forall i :: 0 <= i < |s| ==> !KeyChar(s[i])
    ensures KeyChars(s) == 0
    decreases s
  {
    if s != "" {
      CleanHasNone(s[1..]);
    }
  }

  ghost predicate Occurs(name: string, s: string) {
    exists i :: 0 <= i <= |s| && StartsWith(s[i..], name)
  }

  // Every replacement uses up the placeholder's own characters.
  lemma {:induction false} ReplacingShrinks(s: string, key: Key, value: string)
    requires Clean(value)
    ensures KeyChars(ReplaceAll(s, Name(key), value)) <= KeyChars(s)
    ensures Occurs(Name(key), s) ==> KeyChars(ReplaceAll(s, Name(key), value)) < KeyChars(s)
    ensures !Occurs(Name(key), s) ==> ReplaceAll(s, Name(key), value) == s
    decreases |s|
  {
    var name := Name(key);
    if s == "" {
    } else if StartsWith(s, name) {
      ReplacingShrinks(s[|name|..], key, value);
      ShrinksHere(s, key, value);
    } else {
      ReplacingShrinks(s[1..], key, value);
      var out := ReplaceAll(s[1..], name, value);
      assert ReplaceAll(s, name, value) == [s[0]] + out;
      KeyCharsAppend([s[0]], out);
      KeyCharsAppend([s[0]], s[1..]);
      assert s == [s[0]] + s[1..];
      OccursLater(name, s);
    }
  }

  lemma ShrinksHere(s: string, key: Key, value: string)
    requires Clean(value) && StartsWith(s, Name(key))
    ensures Occurs(Name(key), s)
    ensures var rest := s[|Name(key)|..];
            KeyChars(ReplaceAll(rest, Name(key), value)) <= KeyChars(rest) ==>
              KeyChars(ReplaceAll(s, Name(key), value)) < KeyChars(s)
  {
    hide ReplaceAll, KeyChars;
    var name := Name(key);
    var rest := s[|name|..];
    assert s[0..] == s;
    ReplacesHere(s, name, value);
    KeyCharsAppend(value, ReplaceAll(rest, name, value));
    CleanHasNone(value);
    assert s == name + rest;
    KeyCharsAppend(name, rest);
    NameHasKeyChars(key);
  }

  lemma NameHasKeyChars(key: Key)
    ensures KeyChars(Name(key)) > 0
  {
    NameChars(key);
  }

  lemma ReplacesHere(s: string, name: string, value: string)
    requires name != "" && StartsWith(s, name)
    ensures ReplaceAll(s, name, value) == value + ReplaceAll(s[|name|..], name, value)
  {
  }

  lemma OccursLater(name: string, s: string)
    requires s != "" && name != "" && !StartsWith(s, name)
    ensures Occurs(name, s) <==> Occurs(name, s[1..])
  {
    assert s[0..] == s;
    assert forall i :: 0 <= i <= |s| - 1 ==> s[1..][i..] == s[i + 1..];
    if Occurs(name, s) {
      var i :| 0 <= i <= |s| && StartsWith(s[i..], name);
      assert StartsWith(s[1..][i - 1..], name);
    }
    if Occurs(name, s[1..]) {
      var i :| 0 <= i <= |s[1..]| && StartsWith(s[1..][i..], name);
      assert StartsWith(s[i + 1..], name);
    }
  }

  /** The template that lets the text around the URL complete the placeholder. */
  function Witness(name: string, url: string, offset: int): string
    requires -|name| < offset < |url|
  {
    LeftPart(name, offset) + API_HOST + RightPart(name, url, offset)
  }

  function LeftPart(name: string, offset: int): string
    requires -|name| < offset
  {
    if offset < 0 then name[..-offset] else ""
  }

  function RightPart(name: string, url: string, offset: int): string
    requires -|name| < offset < |url|
  {
    if offset + |name| > |url| then name[|url| - offset..] else ""
  }

  // Before the placeholder of the URL the witness contains none.
  lemma LeftIsPlain(key: Key, n: nat, rest: string, i: nat, other: Key)
    requires key != Host && i < n < |Name(key)|
    ensures !StartsWith((Name(key)[..n] + API_HOST + rest)[i..], Name(other))
  {
    var s := Name(key)[..n] + API_HOST + rest;
    assert s[i..][0] == Name(key)[i] && s[i..][1] == s[i + 1];
    if i > 0 {
      KeyPairs(key, other, i);
      assert Name(other)[1] != 'A';
    } else {
      assert s[0..] == s && s[n] == 'A' && s[n + 1] == 'P';
      LeftAtStart(key, n, s, other);
    }
  }

  lemma LeftAtStart(key: Key, n: nat, s: string, other: Key)
    requires key != Host && 1 <= n < |Name(key)| && |s| >= n + 8
    requires s[..n] == Name(key)[..n] && s[n] == 'A' && s[n + 1] == 'P'
    ensures !StartsWith(s, Name(other))
  {
    assert s[0] == s[..n][0] == Name(key)[0];
    if n >= 5 {
      assert s[4] == s[..n][4] == Name(key)[4];
    }
    if n < |Name(other)| {
      KeyPairs(other, other, n);
    }
  }

  // After it, a proper suffix of a placeholder contains none.
  lemma RightIsPlain(key: Key, m: nat, i: nat, other: Key)
    requires 1 <= m <= i <= |Name(key)|
    ensures !StartsWith(Name(key)[i..], Name(other))
  {
    if i < |Name(key)| {
      NoKeyInside(Name(key), key, other, i);
    }
  }

  lemma LeftHasNoKeys(keys: set<Key>, key: Key, n: nat, rest: string)
    requires key != Host && n < |Name(key)|
    ensures var t := Name(key)[..n] + API_HOST + rest; forall i :: 0 <= i < n ==> !KeyAt(keys, t[i..])
  {
    hide Name, StartsWith;
    var t := Name(key)[..n] + API_HOST + rest;
    forall i | 0 <= i < n ensures !KeyAt(keys, t[i..]) {
      forall other ensures !StartsWith(t[i..], Name(other)) {
        LeftIsPlain(key, n, rest, i, other);
      }
    }
  }

  lemma HostFirst(keys: set<Key>, right: string, vals: Values)
    requires Host in keys
    ensures Substitute(keys, API_HOST + right, vals) == vals.url + Substitute(keys, right, vals)
  {
    var s := API_HOST + right;
    assert StartsWith(s, Name(Host)) && KeyAt(keys, s);
    UniqueKey(keys, s);
    assert s[8..] == right;
  }

  // Where no key starts before the host placeholder, that is the first to be replaced.
  lemma SkipLeft(keys: set<Key>, left: string, right: string, vals: Values)
    requires Host in keys && forall i :: 0 <= i < |left| ==> !KeyAt(keys, (left + API_HOST + right)[i..])
    ensures Substitute(keys, left + API_HOST + right, vals) == left + vals.url + Substitute(keys, right, vals)
  {
    hide Substitute, KeyAt;
    var t := left + API_HOST + right;
    CopyPlain(keys, t, vals, |left|);
    assert t[|left|..] == API_HOST + right && t[..|left|] == left;
    HostFirst(keys, right, vals);
  }

  // What both ways of substituting make of the witness in their first step.
  lemma WitnessFilled(keys: set<Key>, key: Key, vals: Values, offset: int)
    requires Host in keys && key != Host && -|Name(key)| < offset < |vals.url|
    ensures Substitute(keys, Witness(Name(key), vals.url, offset), vals)
         == LeftPart(Name(key), offset) + vals.url + RightPart(Name(key), vals.url, offset)
  {
    var left, right := LeftPart(Name(key), offset), RightPart(Name(key), vals.url, offset);
    assert left == Name(key)[..|left|];
    hide Substitute, KeyAt, Name;
    LeftHasNoKeys(keys, key, |left|, right);
    SkipLeft(keys, left, right, vals);
    RightCopied(keys, key, vals, offset);
  }

  lemma RightCopied(keys: set<Key>, key: Key, vals: Values, offset: int)
    requires -|Name(key)| < offset < |vals.url|
    ensures var right := RightPart(Name(key), vals.url, offset); Substitute(keys, right, vals) == right
  {
    var right := RightPart(Name(key), vals.url, offset);
    if right != "" {
      var m := |vals.url| - offset;
      forall i | 0 <= i < |right| ensures !KeyAt(keys, right[i..]) {
        assert right[i..] == Name(key)[m + i..];
        forall other ensures !StartsWith(right[i..], Name(other)) {
          RightIsPlain(key, m, m + i, other);
        }
      }
    }
    CopyPlain(keys, right, vals, |right|);
    assert right[|right|..] == "" && right[..|right|] == right;
  }

  lemma StraddledOccurs(name: string, url: string, offset: int)
    requires OverlapsAt(name, url, offset)
    ensures Occurs(name, LeftPart(name, offset) + url + RightPart(name, url, offset))
  {
    var left, right := LeftPart(name, offset), RightPart(name, url, offset);
    var w := left + url + right;
    var p := if offset < 0 then 0 else offset;
    forall j | 0 <= j < |name| ensures p + j < |w| && w[p..][j] == name[j] {
      var k := p + j - |left|;
      if k < 0 {
        assert w[p + j] == left[p + j];
      } else if k < |url| {
        assert w[p + j] == url[k] && offset + j == k;
      } else {
        assert w[p + j] == right[k - |url|];
      }
    }
    assert StartsWith(w[p..], name);
  }

  /** A straddled URL has a template on which the two ways differ: the source then
      fills in a placeholder that no template contained. */
  lemma WitnessDiffers(key: Key, vals: Values, offset: int)
    requires key != Host && OverlapsAt(Name(key), vals.url, offset)
    requires Clean(vals.id) && Clean(vals.token)
    ensures var t := Witness(Name(key), vals.url, offset); Sequential(t, vals) != Simultaneous(t, vals)
  {
    var t := Witness(Name(key), vals.url, offset);
    var filled := LeftPart(Name(key), offset) + vals.url + RightPart(Name(key), vals.url, offset);
    NoKeys(t, vals);
    AddKey({}, Host, t, vals);
    assert {} + {Host} == {Host};
    WitnessFilled({Host}, key, vals, offset);
    WitnessFilled(ALL_KEYS, key, vals, offset);
    StraddledOccurs(Name(key), vals.url, offset);
    ReplacingShrinks(filled, Id, vals.id);
    ReplacingShrinks(ReplaceAll(filled, INSTANCE_ID, vals.id), Token, vals.token);
  }

  /** The three replacements one after the other equal one simultaneous substitution
      on every template if and only if the URL is not straddled by one of the other
      two placeholders. */
  lemma SequentialIsSimultaneous(vals: Values)
    requires Clean(vals.id) && Clean(vals.token)
    ensures (forall template :: Sequential(template, vals) == Simultaneous(template, vals)) <==> Harmless(vals.url)
  {
    if Harmless(vals.url) {
      forall template ensures Sequential(template, vals) == Simultaneous(template, vals) {
        HarmlessSuffices(template, vals);
      }
    } else {
      var key := if Straddles(INSTANCE_ID, vals.url) then Id else Token;
      var offset: int :| OverlapsAt(Name(key), vals.url, offset);
      WitnessDiffers(key, vals, offset);
    }
  }

  /** In particular every non-empty URL without upper-case letters and underscores is
      harmless, and the empty one (an API_URL of slashes only) is not. */
  lemma LowerCaseUrlIsHarmless(url: string)
    ensures Clean(url) ==> Harmless(url)
    ensures !Harmless("")
  {
    if Clean(url) {
      CleanNeverStraddled(url, Id);
      CleanNeverStraddled(url, Token);
    }
    assert OverlapsAt(API_TOKEN, "", -1);
  }

  /** A value put in is never changed again: the result is the template's own text
      with each placeholder replaced by its value, and nothing else. */
  lemma HarmlessKeepsValues(before: string, key: Key, after: string, vals: Values)
    requires Harmless(vals.url) && Clean(vals.id) && Clean(vals.token)
    requires forall i :: 0 <= i < |before| ==> !KeyAt(ALL_KEYS, (before + Name(key) + after)[i..])
    ensures Sequential(before + Name(key) + after, vals) == before + vals.Of(key) + Sequential(after, vals)
  {
    var t := before + Name(key) + after;
    HarmlessSuffices(t, vals);
    HarmlessSuffices(after, vals);
    SimultaneousAtKey(before, key, after, vals);
  }

  lemma SimultaneousAtKey(before: string, key: Key, after: string, vals: Values)
    requires forall i :: 0 <= i < |before| ==> !KeyAt(ALL_KEYS, (before + Name(key) + after)[i..])
    ensures Simultaneous(before + Name(key) + after, vals) == before + vals.Of(key) + Simultaneous(after, vals)
  {
    hide Substitute, KeyAt, Name, StartsWith;
    var name, t := Name(key), before + Name(key) + after;
    CopyPlain(ALL_KEYS, t, vals, |before|);
    assert t[..|before|] == before && t[|before|..] == name + after;
    NameFirst(name, after);
    KeyFirst(key, name + after, vals);
    assert (name + after)[|name|..] == after;
  }

  lemma NameFirst(name: string, after: string)
    ensures StartsWith(name + after, name)
  {
  }

  lemma KeyFirst(key: Key, s: string, vals: Values)
    requires StartsWith(s, Name(key))
    ensures Simultaneous(s, vals) == vals.Of(key) + Simultaneous(s[|Name(key)|..], vals)
  {
    assert key in ALL_KEYS && KeyAt(ALL_KEYS, s);
    UniqueKey(ALL_KEYS, s);
  }
}
