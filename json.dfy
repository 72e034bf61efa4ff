/**
 * The JSON documents the encoder produces: a value tree whose objects keep
 * their members in the order the struct declares its fields, and the compact
 * text form of that tree.
 */
module Json {

  import opened Optional
  import Decimal

  datatype Json =
    | JNull
    | JBool(b: bool)
    | JNumber(n: int)
    | JString(s: string)
    | JArray(items: seq<Json>)
    | JObject(members: seq<Member>)

  datatype Member = Member(key: string, value: Json)

  /** A struct field on its way out: `None` when `skip_serializing_if = "Option::is_none"` drops it. */
  datatype Entry = Entry(key: string, value: Option<Json>)

  /** An optional text field as an entry value. */
  function OptString(o: Option<string>): Option<Json> {
    if o.Some? then Some(JString(o.value)) else None
  }

  function Keys(ms: seq<Member>): seq<string> {
    if ms == [] then [] else [ms[0].key] + Keys(ms[1..])
  }

  function EntryKeys(es: seq<Entry>): seq<string> {
    if es == [] then [] else [es[0].key] + EntryKeys(es[1..])
  }

  predicate Distinct(ks: seq<string>) {
    forall i, j :: 0 <= i < j < |ks| ==> ks[i] != ks[j]
  }

  /** The value under key `k` (the first member with it). */
  function Get(ms: seq<Member>, k: string): (r: Option<Json>)
    ensures r.Some? <==> k in Keys(ms)
    ensures r.Some? ==> Member(k, r.value) in ms
  {
    if ms == [] then None
    else if ms[0].key == k then Some(ms[0].value)
    else Get(ms[1..], k)
  }

  /** The members that are emitted: every present entry, in order; absent ones leave no trace. */
  function Present(es: seq<Entry>): (ms: seq<Member>)
    ensures |ms| <= |es|
  {
    if es == [] then []
    else (if es[0].value.Some? then [Member(es[0].key, es[0].value.value)] else []) + Present(es[1..])
  }

  lemma {:induction false} EntryKeysAt(es: seq<Entry>, i: nat)
    requires i < |es|
    ensures |EntryKeys(es)| == |es| && EntryKeys(es)[i] == es[i].key
  {
    if i > 0 { EntryKeysAt(es[1..], i - 1); } else if |es| > 1 { EntryKeysAt(es[1..], 0); }
  }

  /** A key is emitted exactly when some entry with that key is present. */
  lemma {:induction false} PresentKeys(es: seq<Entry>, k: string)
    ensures k in Keys(Present(es)) <==> exists i :: 0 <= i < |es| && es[i].key == k && es[i].value.Some?
  {
    if es != [] {
      PresentKeys(es[1..], k);
      var head: seq<Member> := if es[0].value.Some? then [Member(es[0].key, es[0].value.value)] else [];
      KeysAppend(head, Present(es[1..]));
      if exists i :: 0 <= i < |es| && es[i].key == k && es[i].value.Some? {
        var i :| 0 <= i < |es| && es[i].key == k && es[i].value.Some?;
        if i > 0 { assert es[1..][i - 1] == es[i]; }
      }
      if exists i :: 0 <= i < |es| - 1 && es[1..][i].key == k && es[1..][i].value.Some? {
        var i :| 0 <= i < |es| - 1 && es[1..][i].key == k && es[1..][i].value.Some?;
        assert es[i + 1] == es[1..][i];
      }
    }
  }

  lemma {:induction false} KeysAppend(a: seq<Member>, b: seq<Member>)
    ensures Keys(a + b) == Keys(a) + Keys(b)
  {
    if a == [] {
      assert a + b == b;
    } else {
      assert (a + b)[0] == a[0] && (a + b)[1..] == a[1..] + b;
      KeysAppend(a[1..], b);
    }
  }

  /** With distinct keys, looking a key up in the emitted members gives back exactly its entry. */
  lemma {:induction false} PresentGet(es: seq<Entry>, i: nat)
    requires i < |es| && Distinct(EntryKeys(es))
    ensures Get(Present(es), es[i].key) == es[i].value
  {
    var k := es[i].key;
    var rest := Present(es[1..]);
    var head: seq<Member> := if es[0].value.Some? then [Member(es[0].key, es[0].value.value)] else [];
    assert Present(es) == head + rest;
    assert Distinct(EntryKeys(es[1..])) by {
      forall a, b | 0 <= a < b < |EntryKeys(es[1..])| ensures EntryKeys(es[1..])[a] != EntryKeys(es[1..])[b] {
        assert EntryKeys(es)[a + 1] == EntryKeys(es[1..])[a];
        assert EntryKeys(es)[b + 1] == EntryKeys(es[1..])[b];
      }
    }
    if i == 0 {
      if es[0].value.None? {
        assert Present(es) == rest;
        PresentKeys(es[1..], k);
        forall j | 0 <= j < |es| - 1 ensures es[1..][j].key != k {
          EntryKeysAt(es, j + 1);
          EntryKeysAt(es, 0);
          assert es[1..][j] == es[j + 1];
        }
      }
    } else {
      EntryKeysAt(es, i);
      EntryKeysAt(es, 0);
      assert es[0].key != k;
      assert es[1..][i - 1] == es[i];
      PresentGet(es[1..], i - 1);
      if head != [] {
        assert (head + rest)[0].key == es[0].key && (head + rest)[1..] == rest;
      } else {
        assert head + rest == rest;
      }
    }
  }

  /** No `null` appears anywhere in the tree. */
  predicate NoNull(j: Json) {
    match j
    case JNull => false
    case JArray(items) => forall i :: 0 <= i < |items| ==> NoNull(items[i])
    case JObject(ms) => forall i :: 0 <= i < |ms| ==> NoNull(ms[i].value)
    case _ => true
  }

  /** Entries that are all absent emit nothing. */
  lemma {:induction false} PresentAllAbsent(es: seq<Entry>)
    requires forall i :: 0 <= i < |es| ==> es[i].value.None?
    ensures Present(es) == []
  {
    if es != [] {
      assert forall i :: 0 <= i < |es| - 1 ==> es[1..][i] == es[i + 1];
      PresentAllAbsent(es[1..]);
    }
  }

  /** Skipping absent entries emits no `null` of its own. */
  lemma {:induction false} PresentNoNull(es: seq<Entry>)
    requires forall i :: 0 <= i < |es| && es[i].value.Some? ==> NoNull(es[i].value.value)
    ensures NoNull(JObject(Present(es)))
  {
    if es != [] {
      PresentNoNull(es[1..]);
      var head: seq<Member> := if es[0].value.Some? then [Member(es[0].key, es[0].value.value)] else [];
      var ms := head + Present(es[1..]);
      assert Present(es) == ms;
      forall i | 0 <= i < |ms| ensures NoNull(ms[i].value) {
        if i >= |head| {
          assert ms[i] == Present(es[1..])[i - |head|];
        }
      }
    }
  }

  // ---- Text form -----------------------------------------------------------

  function HexDigit(d: nat): (c: char)
    requires d < 16
    ensures HexValue(c) == Some(d)
  {
    if d < 10 then ('0' as int + d) as char else ('a' as int + d - 10) as char
  }

  function HexValue(c: char): Option<nat> {
    if '0' <= c <= '9' then Some(c as int - '0' as int)
    else if 'a' <= c <= 'f' then Some(c as int - 'a' as int + 10)
    else if 'A' <= c <= 'F' then Some(c as int - 'A' as int + 10)
    else None
  }

  /**
   * How one character appears inside a JSON string literal: quote and
   * backslash are escaped, the control characters with a short escape get it,
   * the other control characters become `\u00XX` in lower-case hex, and
   * everything else is written as it is.
   */
  function EscapeChar(c: char): string {
    var code := c as int;
    if c == '"' then ['\\', '"']
    else if c == '\\' then ['\\', '\\']
    else if code == 0x08 then ['\\', 'b']
    else if code == 0x0C then ['\\', 'f']
    else if code == 0x0A then ['\\', 'n']
    else if code == 0x0D then ['\\', 'r']
    else if code == 0x09 then ['\\', 't']
    else if code < 0x20 then ['\\', 'u', '0', '0', HexDigit(code / 16), HexDigit(code % 16)]
    else [c]
  }

  function Escape(s: string): string {
    if s == [] then [] else EscapeChar(s[0]) + Escape(s[1..])
  }

  function Quote(s: string): string {
    "\"" + Escape(s) + "\""
  }

  function Prepend(c: char, r: Option<string>): Option<string> {
    match r
    case None => None
    case Some(t) => Some([c] + t)
  }

  /** The characters a JSON string body denotes, or None when it is not a valid body. */
  function Unescape(s: string): Option<string> {
    if s == [] then Some([])
    else if s[0] == '\\' then
      if |s| < 2 then None
      else if s[1] == '"' then Prepend('"', Unescape(s[2..]))
      else if s[1] == '\\' then Prepend('\\', Unescape(s[2..]))
      else if s[1] == '/' then Prepend('/', Unescape(s[2..]))
      else if s[1] == 'b' then Prepend(0x08 as char, Unescape(s[2..]))
      else if s[1] == 'f' then Prepend(0x0C as char, Unescape(s[2..]))
      else if s[1] == 'n' then Prepend(0x0A as char, Unescape(s[2..]))
      else if s[1] == 'r' then Prepend(0x0D as char, Unescape(s[2..]))
      else if s[1] == 't' then Prepend(0x09 as char, Unescape(s[2..]))
      else if s[1] == 'u' && |s| >= 6
              && HexValue(s[2]).Some? && HexValue(s[3]).Some? && HexValue(s[4]).Some? && HexValue(s[5]).Some? then
        var code := HexValue(s[2]).value * 0x1000 + HexValue(s[3]).value * 0x100
                    + HexValue(s[4]).value * 0x10 + HexValue(s[5]).value;
        if 0xD800 <= code < 0xE000 then None else Prepend(code as char, Unescape(s[6..]))
      else None
    else if s[0] == '"' || s[0] as int < 0x20 then None
    else Prepend(s[0], Unescape(s[1..]))
  }

  lemma UnescapeEscapeChar(c: char, rest: string)
    ensures Unescape(EscapeChar(c) + rest) == Prepend(c, Unescape(rest))
  {
  }

  /** Escaping loses nothing: the escaped text denotes exactly the original characters. */
  lemma {:induction false} UnescapeEscape(s: string)
    ensures Unescape(Escape(s)) == Some(s)
  {
    if s != [] {
      UnescapeEscape(s[1..]);
      UnescapeEscapeChar(s[0], Escape(s[1..]));
      assert [s[0]] + s[1..] == s;
    }
  }

  function Join(parts: seq<string>): string {
    if |parts| == 0 then ""
    else if |parts| == 1 then parts[0]
    else parts[0] + "," + Join(parts[1..])
  }

  /** Compact JSON text of a value, as `serde_json::to_string` writes it: no whitespace, members in order. */
  function Write(j: Json): string
    decreases j
  {
    match j
    case JNull => "null"
    case JBool(b) => if b then "true" else "false"
    case JNumber(n) => Decimal.FromInt(n)
    case JString(s) => Quote(s)
    case JArray(items) =>
      "[" + Join(seq(|items|, i requires 0 <= i < |items| => Write(items[i]))) + "]"
    case JObject(ms) =>
      "{" + Join(seq(|ms|, i requires 0 <= i < |ms| => Quote(ms[i].key) + ":" + Write(ms[i].value))) + "}"
  }

  /** An object with one member is written as `{"key":value}`. */
  lemma WriteSingleMember(key: string, value: Json)
    ensures Write(JObject([Member(key, value)])) == "{" + Quote(key) + ":" + Write(value) + "}"
  {
  }

  /** The text of an object is braced. */
  lemma WriteObjectBraced(ms: seq<Member>)
    ensures var s := Write(JObject(ms)); |s| >= 2 && s[0] == '{' && s[|s| - 1] == '}'
  {
  }
}
