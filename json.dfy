/** JSON values as Python holds them after `json.loads` or before
    `json.dumps`, and the text `json.dumps` produces with its default settings
    (separators ", " and ": ", non-ASCII characters escaped). */
module Json {
  import opened Wrappers
  import Strings

  /** An object keeps its members in insertion order, as a Python dict does. */
  datatype Value =
    | JNull
    | JBool(b: bool)
    | JInt(n: int)
    | JStr(s: string)
    | JArr(items: seq<Value>)
    | JObj(members: seq<(string, Value)>)

  function Keys(members: seq<(string, Value)>): (ks: seq<string>)
    ensures |ks| == |members|
    ensures forall i :: 0 <= i < |members| ==> ks[i] == members[i].0
  {
    if |members| == 0 then [] else Keys(members[..|members| - 1]) + [members[|members| - 1].0]
  }

  /** The value bound to `key`; a key bound twice reads as its last binding, as
      `json.loads` keeps it. */
  function Lookup(members: seq<(string, Value)>, key: string): (r: Option<Value>)
    ensures r.None? <==> key !in Keys(members)
    ensures r.Some? ==> exists i :: 0 <= i < |members| && members[i] == (key, r.value)
  {
    if |members| == 0 then None
    else if members[|members| - 1].0 == key then Some(members[|members| - 1].1)
    else
      var r := Lookup(members[..|members| - 1], key);
      assert Keys(members) == Keys(members[..|members| - 1]) + [members[|members| - 1].0];
      r
  }

  predicate DistinctKeys(members: seq<(string, Value)>)
  {
    forall i, j :: 0 <= i < j < |members| ==> members[i].0 != members[j].0
  }

  /** In an object whose keys are distinct, as in a dict literal, a member's
      key reads back that member's value. */
  lemma {:induction false} LookupDistinct(members: seq<(string, Value)>, i: nat)
    requires DistinctKeys(members) && i < |members|
    ensures Lookup(members, members[i].0) == Some(members[i].1)
  {
    if i < |members| - 1 {
      var init := members[..|members| - 1];
      assert init[i] == members[i];
      LookupDistinct(init, i);
    }
  }

  /** `d[key]` on a decoded value: a KeyError for an object without the key,
      a TypeError for anything that is not an object. */
  function Index(j: Value, key: string): (r: Result<Value, PyError>)
    ensures r.Ok? <==> j.JObj? && key in Keys(j.members)
    ensures r.Ok? ==> Lookup(j.members, key) == Some(r.value)
    ensures j.JObj? && key !in Keys(j.members) ==> r == Err(KeyError(key))
    ensures !j.JObj? ==> r == Err(TypeError)
  {
    if !j.JObj? then Err(TypeError)
    else match Lookup(j.members, key)
      case None => Err(KeyError(key))
      case Some(v) => Ok(v)
  }

  /** `d.get(key)` on a decoded value: None when the key is absent; an
      AttributeError for anything that is not an object. */
  function DictGet(j: Value, key: string): (r: Result<Option<Value>, PyError>)
    ensures r.Err? <==> !j.JObj?
    ensures r.Err? ==> r.error == AttributeError
    ensures j.JObj? ==> r == Ok(Lookup(j.members, key))
  {
    if j.JObj? then Ok(Lookup(j.members, key)) else Err(AttributeError)
  }

  /** `d[i]` on a decoded list. */
  function At(j: Value, i: nat): (r: Result<Value, PyError>)
    ensures r.Ok? <==> j.JArr? && i < |j.items|
    ensures r.Ok? ==> r.value == j.items[i]
  {
    if !j.JArr? then Err(TypeError)
    else if i < |j.items| then Ok(j.items[i])
    else Err(IndexError)
  }

  /** The value reached by following `keys` through nested objects. */
  function Path(j: Value, keys: seq<string>): Option<Value>
    decreases |keys|
  {
    if |keys| == 0 then Some(j)
    else if !j.JObj? then None
    else match Lookup(j.members, keys[0])
      case None => None
      case Some(v) => Path(v, keys[1..])
  }

  /** One step of a path reads the key in an object. */
  lemma PathOne(j: Value, k: string)
    ensures Path(j, [k]) == if j.JObj? then Lookup(j.members, k) else None
  {
    assert [k][1..] == [];
  }

  /** Two steps of a path read the keys in nested objects. */
  lemma PathTwo(j: Value, k1: string, k2: string)
    ensures Path(j, [k1, k2]) ==
      if j.JObj? && Lookup(j.members, k1).Some? && Lookup(j.members, k1).value.JObj?
      then Lookup(Lookup(j.members, k1).value.members, k2) else None
  {
    assert [k1, k2][1..] == [k2];
    if j.JObj? && Lookup(j.members, k1).Some? {
      PathOne(Lookup(j.members, k1).value, k2);
    }
  }

  /** `[f(x) for x in v]` on a decoded value: a list yields its items, a
      dict its keys and a string its characters, each key or character as a
      string; null, booleans and numbers cannot be iterated. */
  function MapIter<B>(f: Value -> Result<B, PyError>, v: Value): (r: Result<seq<B>, PyError>)
    ensures v.JArr? ==> r == MapAll(f, v.items)
    ensures v.JNull? || v.JBool? || v.JInt? ==> r == Err(TypeError)
    ensures (v.JObj? && |v.members| == 0) || (v.JStr? && |v.s| == 0) ==> r == Ok([])
  {
    match v
    case JArr(items) => MapAll(f, items)
    case JObj(members) => MapAll(f, seq(|members|, i requires 0 <= i < |members| => JStr(members[i].0)))
    case JStr(s) => MapAll(f, seq(|s|, i requires 0 <= i < |s| => JStr([s[i]])))
    case _ => Err(TypeError)
  }

  /** When `f` fails with a TypeError on every string, iterating a non-empty
      dict or string fails with it. */
  lemma MapIterOverStrings<B>(f: Value -> Result<B, PyError>, v: Value)
    requires forall s: string :: f(JStr(s)) == Err(TypeError)
    ensures (v.JObj? && |v.members| > 0) || (v.JStr? && |v.s| > 0) ==> MapIter(f, v) == Err(TypeError)
  {
    if v.JObj? && |v.members| > 0 {
      assert f(JStr(v.members[0].0)) == Err(TypeError);
    } else if v.JStr? && |v.s| > 0 {
      assert f(JStr([v.s[0]])) == Err(TypeError);
    }
  }

  /** A character `json.dumps` may emit: printable ASCII. */
  predicate Printable(c: char)
  {
    ' ' <= c <= '~'
  }

  function HexDigit(d: nat): (c: char)
    requires d < 16
    ensures Printable(c)
  {
    if d < 10 then ('0' as int + d) as char else ('a' as int + d - 10) as char
  }

  /** Four lower-case hex digits, as `'{0:04x}'.format(n)`. */
  function Hex4(n: nat): (r: string)
    requires n < 0x10000
    ensures |r| == 4
    ensures forall i :: 0 <= i < 4 ==> Printable(r[i])
  {
    [HexDigit(n / 0x1000), HexDigit(n / 0x100 % 16), HexDigit(n / 16 % 16), HexDigit(n % 16)]
  }

  /** How `json.dumps` writes one character inside a string literal: the
      quote, the backslash and five control characters have short escapes,
      printable ASCII stands as itself, and every other character becomes a
      `\u` escape (a surrogate pair above U+FFFF). */
  function EscapeChar(c: char): (r: string)
    ensures forall i :: 0 <= i < |r| ==> Printable(r[i])
    ensures Printable(c) && c != '"' && c != '\\' ==> r == [c]
  {
    var n := c as int;
    if c == '"' then "\\\""
    else if c == '\\' then "\\\\"
    else if c == '\n' then "\\n"
    else if c == '\r' then "\\r"
    else if c == '\t' then "\\t"
    else if n == 8 then "\\b"
    else if n == 12 then "\\f"
    else if Printable(c) then [c]
    else if n < 0x10000 then "\\u" + Hex4(n)
    else
      var m := n - 0x10000;
      "\\u" + Hex4(0xD800 + m / 0x400) + "\\u" + Hex4(0xDC00 + m % 0x400)
  }

  function Escape(s: string): (r: string)
    ensures forall i :: 0 <= i < |r| ==> Printable(r[i])
  {
    if |s| == 0 then "" else
      var e, rest := EscapeChar(s[0]), Escape(s[1..]);
      assert forall i :: 0 <= i < |e + rest| ==>
        (e + rest)[i] == if i < |e| then e[i] else rest[i - |e|];
      e + rest
  }

  function Quote(s: string): string
  {
    "\"" + Escape(s) + "\""
  }

  /** The text of `json.dumps(j)`. */
  function Dumps(j: Value): string
  {
    match j
    case JNull => "null"
    case JBool(b) => if b then "true" else "false"
    case JInt(n) => Strings.IntToString(n)
    case JStr(s) => Quote(s)
    case JArr(items) =>
      "[" + Strings.Join(", ", seq(|items|, i requires 0 <= i < |items| => Dumps(items[i]))) + "]"
    case JObj(members) =>
      "{" + Strings.Join(", ", seq(|members|, i requires 0 <= i < |members| =>
        Quote(members[i].0) + ": " + Dumps(members[i].1))) + "}"
  }

  lemma ConcatPrintable(a: string, b: string)
    requires forall i :: 0 <= i < |a| ==> Printable(a[i])
    requires forall i :: 0 <= i < |b| ==> Printable(b[i])
    ensures forall i :: 0 <= i < |a + b| ==> Printable((a + b)[i])
  {
    assert forall i :: 0 <= i < |a + b| ==> (a + b)[i] == if i < |a| then a[i] else b[i - |a|];
  }

  lemma QuotePrintable(s: string)
    ensures forall i :: 0 <= i < |Quote(s)| ==> Printable(Quote(s)[i])
  {
    ConcatPrintable("\"", Escape(s));
    ConcatPrintable("\"" + Escape(s), "\"");
  }

  /** `json.dumps` writes printable ASCII only. */
  lemma {:induction false} DumpsPrintable(j: Value)
    ensures forall i :: 0 <= i < |Dumps(j)| ==> Printable(Dumps(j)[i])
  {
    match j
    case JNull =>
    case JBool(b) =>
    case JInt(n) =>
    case JStr(s) => QuotePrintable(s);
    case JArr(items) =>
      var parts := seq(|items|, i requires 0 <= i < |items| => Dumps(items[i]));
      forall k | 0 <= k < |items| ensures forall i :: 0 <= i < |parts[k]| ==> Printable(parts[k][i]) {
        DumpsPrintable(items[k]);
      }
      Strings.JoinChars(", ", parts, Printable);
      ConcatPrintable("[", Strings.Join(", ", parts));
      ConcatPrintable("[" + Strings.Join(", ", parts), "]");
    case JObj(members) =>
      var parts := seq(|members|, i requires 0 <= i < |members| =>
        Quote(members[i].0) + ": " + Dumps(members[i].1));
      forall k | 0 <= k < |members| ensures forall i :: 0 <= i < |parts[k]| ==> Printable(parts[k][i]) {
        DumpsPrintable(members[k].1);
        QuotePrintable(members[k].0);
        ConcatPrintable(Quote(members[k].0), ": ");
        ConcatPrintable(Quote(members[k].0) + ": ", Dumps(members[k].1));
      }
      Strings.JoinChars(", ", parts, Printable);
      ConcatPrintable("{", Strings.Join(", ", parts));
      ConcatPrintable("{" + Strings.Join(", ", parts), "}");
  }

  /** So the text of `json.dumps` never holds a line break, and one value fits
      on one line of a newline-delimited payload. */
  lemma DumpsHasNoNewline(j: Value)
    ensures '\n' !in Dumps(j)
  {
    DumpsPrintable(j);
  }
}
