/** The Python values `json.loads` returns, and the few operations the
    pipelines apply to them: `dict.get`, truthiness, iteration,
    `", ".join(...)`, `str(...)` inside an f-string, and
    `json.dumps({"error": message})`. */
module JsonValues {
  import opened PyStrings

  /** The text Python's `repr` gives a float: never empty. */
  type FloatText = t: string | |t| > 0 witness "0.0"

  /** A decoded JSON value.  A float keeps its value and the text Python's
      `repr` gives it; an object keeps its members in insertion order. */
  datatype Json =
    | JNull
    | JBool(b: bool)
    | JInt(i: int)
    | JFloat(value: real, text: FloatText)
    | JStr(s: string)
    | JArr(items: seq<Json>)
    | JObj(members: seq<Member>)

  /** One `key: value` member of an object. */
  datatype Member = Member(key: string, value: Json)

  /** `type(v).__name__`. */
  function TypeName(j: Json): string {
    match j
    case JNull => "NoneType"
    case JBool(_) => "bool"
    case JInt(_) => "int"
    case JFloat(_, _) => "float"
    case JStr(_) => "str"
    case JArr(_) => "list"
    case JObj(_) => "dict"
  }

  /** The `AttributeError` text for `v.attr` on a value without it. */
  function NoAttribute(j: Json, attr: string): string {
    "'" + TypeName(j) + "' object has no attribute '" + attr + "'"
  }

  // ------------------------------------------------------------ dict.get

  /** Position of the member that holds `key`: the last one, as a dict built
      from duplicate keys keeps the last value. */
  function KeyIndex(members: seq<Member>, key: string): (r: Option<nat>)
    ensures r.None? <==> forall k :: 0 <= k < |members| ==> members[k].key != key
    ensures r.Some? ==> r.value < |members| && members[r.value].key == key
    ensures r.Some? ==> forall k :: r.value < k < |members| ==> members[k].key != key
  {
    if members == [] then None
    else if members[|members| - 1].key == key then Some(|members| - 1)
    else KeyIndex(members[..|members| - 1], key)
  }

  /** `v.get(key, default)`: only a dict has `get`. */
  function Get(j: Json, key: string, default: Json): (r: Outcome<Json>)
    ensures r.Err? <==> !j.JObj?
    ensures r.Err? ==> r.message == NoAttribute(j, "get")
    ensures j.JObj? && KeyIndex(j.members, key).None? ==> r == Ok(default)
    ensures j.JObj? && KeyIndex(j.members, key).Some? ==> r == Ok(j.members[KeyIndex(j.members, key).value].value)
  {
    match j
    case JObj(members) =>
      (match KeyIndex(members, key)
       case None => Ok(default)
       case Some(k) => Ok(members[k].value))
    case _ => Err(NoAttribute(j, "get"))
  }

  /** The value under `key`, or `default` when the key is absent. */
  function Field(members: seq<Member>, key: string, default: Json): Json {
    match KeyIndex(members, key)
    case None => default
    case Some(k) => members[k].value
  }

  // ------------------------------------------------------- dict building

  /** The members of the dict `json.loads` builds from an object's members,
      read in order: one member per key, at the place where the key first
      appears, holding the key's last value. */
  function Dedup(members: seq<Member>): (r: seq<Member>)
    ensures forall x :: x in r ==> x in members
  {
    if members == [] then []
    else
      var init := members[..|members| - 1];
      var prev := Dedup(init);
      var m := members[|members| - 1];
      assert members == init + [m];
      match KeyIndex(prev, m.key)
      case None => prev + [m]
      case Some(k) =>
        assert forall i :: 0 <= i < |prev| ==> prev[k := m][i] == m || prev[k := m][i] == prev[i];
        prev[k := m]
  }

  function KeySet(members: seq<Member>): set<string> {
    set m | m in members :: m.key
  }

  predicate DistinctKeys(members: seq<Member>) {
    forall i, k :: 0 <= i < k < |members| ==> members[i].key != members[k].key
  }

  /** The dict holds every key of the object and no other. */
  lemma {:induction false} DedupKeys(members: seq<Member>)
    ensures KeySet(Dedup(members)) == KeySet(members)
    ensures Dedup(members) == [] <==> members == []
  {
    if members != [] {
      var init := members[..|members| - 1];
      var prev := Dedup(init);
      var m := members[|members| - 1];
      var r := Dedup(members);
      DedupKeys(init);
      assert members == init + [m];
      assert KeySet(members) == KeySet(init) + {m.key};
      match KeyIndex(prev, m.key)
      case None =>
        assert r == prev + [m];
        assert KeySet(r) == KeySet(prev) + {m.key};
      case Some(i) =>
        KeySetUpdate(prev, i, m);
    }
  }

  /** Replacing a member by one with the same key keeps the key set. */
  lemma KeySetUpdate(prev: seq<Member>, i: nat, m: Member)
    requires i < |prev| && prev[i].key == m.key
    ensures KeySet(prev[i := m]) == KeySet(prev)
  {
    var r := prev[i := m];
    forall x | x in KeySet(r) ensures x in KeySet(prev) {
      var y :| y in r && y.key == x;
      var k :| 0 <= k < |r| && r[k] == y;
      assert prev[k] in prev;
    }
    forall x | x in KeySet(prev) ensures x in KeySet(r) {
      var y :| y in prev && y.key == x;
      var k :| 0 <= k < |prev| && prev[k] == y;
      assert r[k] in r;
    }
  }

  /** The dict holds each key once. */
  lemma {:induction false} DedupDistinct(members: seq<Member>)
    ensures DistinctKeys(Dedup(members))
  {
    if members != [] {
      var init := members[..|members| - 1];
      var prev := Dedup(init);
      var m := members[|members| - 1];
      DedupDistinct(init);
      match KeyIndex(prev, m.key)
      case None =>
        assert Dedup(members) == prev + [m];
      case Some(i) =>
        assert Dedup(members) == prev[i := m];
    }
  }

  /** Under each key the dict holds the value `get` finds in the object:
      the key's last value. */
  lemma {:induction false} DedupValues(members: seq<Member>)
    ensures forall k :: 0 <= k < |Dedup(members)| ==>
      Dedup(members)[k].value == Field(members, Dedup(members)[k].key, JNull)
  {
    if members != [] {
      var init := members[..|members| - 1];
      var prev := Dedup(init);
      var m := members[|members| - 1];
      var r := Dedup(members);
      DedupValues(init);
      DedupDistinct(init);
      forall k | 0 <= k < |r| ensures r[k].value == Field(members, r[k].key, JNull) {
        if r[k].key != m.key {
          assert k < |prev| && r[k] == prev[k];
        }
      }
    }
  }

  /** Python truthiness: `None`, `False`, zero, and empty strings, lists and
      dicts are false. */
  predicate Truthy(j: Json) {
    match j
    case JNull => false
    case JBool(b) => b
    case JInt(i) => i != 0
    case JFloat(v, _) => v != 0.0
    case JStr(s) => s != ""
    case JArr(items) => items != []
    case JObj(members) => members != []
  }

  /** `a or b`. */
  function Or(a: Json, b: Json): (r: Json)
    ensures Truthy(a) ==> r == a
    ensures !Truthy(a) ==> r == b
  {
    if Truthy(a) then a else b
  }

  // ----------------------------------------------------------- iteration

  /** `for x in v`: a list yields its items, a string its characters, a dict
      its keys; anything else is not iterable. */
  function Iterate(j: Json): (r: Outcome<seq<Json>>)
    ensures r.Ok? <==> j.JArr? || j.JStr? || j.JObj?
    ensures j.JArr? ==> r == Ok(j.items)
    ensures j.JStr? ==> |r.value| == |j.s| && forall k :: 0 <= k < |j.s| ==> r.value[k] == JStr([j.s[k]])
    ensures j.JObj? ==>
      var d := Dedup(j.members);
      |r.value| == |d| && forall k :: 0 <= k < |d| ==> r.value[k] == JStr(d[k].key)
    ensures r.Err? ==> r.message == "'" + TypeName(j) + "' object is not iterable"
  {
    match j
    case JArr(items) => Ok(items)
    case JStr(s) => Ok(seq(|s|, k requires 0 <= k < |s| => JStr([s[k]])))
    case JObj(members) =>
      var d := Dedup(members);
      Ok(seq(|d|, k requires 0 <= k < |d| => JStr(d[k].key)))
    case _ => Err("'" + TypeName(j) + "' object is not iterable")
  }

  /** Iterating a dict yields each of its keys once, and exactly the keys
      the decoded object has. */
  lemma IterateObjectKeys(members: seq<Member>)
    ensures var keys := Iterate(JObj(members)).value;
      && (forall k :: 0 <= k < |keys| ==> keys[k].JStr?)
      && (forall i, k :: 0 <= i < k < |keys| ==> keys[i] != keys[k])
      && (forall m :: m in members ==> JStr(m.key) in keys)
      && (forall x :: x in keys ==> exists m :: m in members && x == JStr(m.key))
  {
    var d := Dedup(members);
    DedupKeys(members);
    DedupDistinct(members);
    var keys := Iterate(JObj(members)).value;
    forall m | m in members ensures JStr(m.key) in keys {
      assert m.key in KeySet(members);
      var k :| 0 <= k < |d| && d[k].key == m.key;
      assert keys[k] == JStr(m.key);
    }
    forall x | x in keys ensures exists m :: m in members && x == JStr(m.key) {
      var k :| 0 <= k < |keys| && keys[k] == x;
      assert d[k] in d;
      assert d[k].key in KeySet(d);
      var m :| m in members && m.key == d[k].key;
    }
  }

  // ---------------------------------------------------------------- join

  /** Index of the first item that is not a string. */
  function FirstNonStr(items: seq<Json>): (r: Option<nat>)
    ensures r.None? <==> forall k :: 0 <= k < |items| ==> items[k].JStr?
    ensures r.Some? ==> r.value < |items| && !items[r.value].JStr?
    ensures r.Some? ==> forall k :: 0 <= k < r.value ==> items[k].JStr?
  {
    if items == [] then None
    else if !items[0].JStr? then Some(0)
    else match FirstNonStr(items[1..])
      case None => None
      case Some(k) => Some(k + 1)
  }

  function Strings(items: seq<Json>): (r: seq<string>)
    requires forall k :: 0 <= k < |items| ==> items[k].JStr?
    ensures |r| == |items|
    ensures forall k :: 0 <= k < |items| ==> items[k] == JStr(r[k])
  {
    if items == [] then [] else [items[0].s] + Strings(items[1..])
  }

  /** `sep.join(items)` over an already iterated sequence: the first
      non-string item raises `TypeError`. */
  function JoinItems(sep: string, items: seq<Json>): (r: Outcome<string>)
    ensures r.Ok? <==> forall k :: 0 <= k < |items| ==> items[k].JStr?
    ensures r.Ok? ==> r.value == Join(sep, Strings(items))
  {
    match FirstNonStr(items)
    case None => Ok(Join(sep, Strings(items)))
    case Some(k) =>
      Err("sequence item " + NatToString(k) + ": expected str instance, " + TypeName(items[k]) + " found")
  }

  /** `sep.join(v)` for a decoded value `v`. */
  function JoinStrs(sep: string, j: Json): (r: Outcome<string>)
    ensures (j.JNull? || j.JBool? || j.JInt? || j.JFloat?) ==> r == Err("can only join an iterable")
    ensures j.JArr? ==> r == JoinItems(sep, j.items)
    ensures j.JStr? || j.JObj? ==> r.Ok?
  {
    match Iterate(j)
    case Err(_) => Err("can only join an iterable")
    case Ok(items) => JoinItems(sep, items)
  }

  /** A list of strings joins to the plain join. */
  lemma JoinStrsOfStrings(sep: string, parts: seq<string>)
    ensures JoinStrs(sep, JArr(seq(|parts|, k requires 0 <= k < |parts| => JStr(parts[k])))) == Ok(Join(sep, parts))
  {
    var items := seq(|parts|, k requires 0 <= k < |parts| => JStr(parts[k]));
    assert Strings(items) == parts;
  }

  /** A string joins its own characters. */
  lemma JoinStrsOfString(sep: string, s: string)
    ensures JoinStrs(sep, JStr(s)) == Ok(Join(sep, seq(|s|, k requires 0 <= k < |s| => [s[k]])))
  {
    var items := Iterate(JStr(s)).value;
    assert Strings(items) == seq(|s|, k requires 0 <= k < |s| => [s[k]]);
  }

  /** A dict joins its keys, each once, in the order they first appear. */
  lemma JoinStrsOfObject(sep: string, members: seq<Member>)
    ensures var d := Dedup(members);
      JoinStrs(sep, JObj(members)) == Ok(Join(sep, seq(|d|, k requires 0 <= k < |d| => d[k].key)))
  {
    var d := Dedup(members);
    var items := Iterate(JObj(members)).value;
    assert Strings(items) == seq(|d|, k requires 0 <= k < |d| => d[k].key);
  }

  // ----------------------------------------------------------- str / repr

  /** `str(v)`, which an f-string applies to a replacement field. */
  function PyStr(j: Json): (r: string)
    ensures j.JStr? ==> r == j.s
    ensures !j.JStr? ==> r == Repr(j)
  {
    match j
    case JStr(s) => s
    case _ => Repr(j)
  }

  /** `repr(v)` of a decoded value. */
  function Repr(j: Json): (r: string)
    ensures |r| > 0
    decreases j, 1
  {
    match j
    case JNull => "None"
    case JBool(b) => if b then "True" else "False"
    case JInt(i) => IntToString(i)
    case JFloat(_, text) => text
    case JStr(s) => StrRepr(s)
    case JArr(items) => "[" + ReprItems(items) + "]"
    case JObj(members) => "{" + ReprMembers(members, Dedup(members)) + "}"
  }

  function ReprItems(items: seq<Json>): string
    decreases items, 0
  {
    if items == [] then ""
    else if |items| == 1 then Repr(items[0])
    else Repr(items[0]) + ", " + ReprItems(items[1..])
  }

  /** The dict members `shown`, all taken from the object's `members`. */
  function ReprMembers(members: seq<Member>, shown: seq<Member>): string
    requires forall x :: x in shown ==> x in members
    decreases members, 0, |shown|
  {
    if shown == [] then ""
    else
      assert shown[0] in members;
      var first := StrRepr(shown[0].key) + ": " + Repr(shown[0].value);
      if |shown| == 1 then first else first + ", " + ReprMembers(members, shown[1..])
  }

  function ItemReprs(items: seq<Json>): seq<string> {
    seq(|items|, k requires 0 <= k < |items| => Repr(items[k]))
  }

  function MemberReprs(members: seq<Member>): seq<string> {
    seq(|members|, k requires 0 <= k < |members| => StrRepr(members[k].key) + ": " + Repr(members[k].value))
  }

  /** `None`, `True` and `False` print as themselves; a list prints as its
      items' `repr`s joined by commas between square brackets; a dict as
      `key: value` for each member of the dict (each key once) between
      braces. */
  lemma ReprCases(j: Json)
    ensures j.JNull? ==> Repr(j) == "None"
    ensures j.JBool? ==> Repr(j) == if j.b then "True" else "False"
    ensures j.JArr? ==> Repr(j) == "[" + Join(", ", ItemReprs(j.items)) + "]"
    ensures j.JObj? ==> Repr(j) == "{" + Join(", ", MemberReprs(Dedup(j.members))) + "}"
  {
    match j
    case JArr(items) => ReprItemsJoin(items);
    case JObj(members) => ReprMembersJoin(members, Dedup(members));
    case _ =>
  }

  lemma {:induction false} ReprItemsJoin(items: seq<Json>)
    ensures ReprItems(items) == Join(", ", ItemReprs(items))
  {
    if |items| > 1 {
      ReprItemsJoin(items[1..]);
      assert ItemReprs(items)[1..] == ItemReprs(items[1..]);
    }
  }

  lemma {:induction false} ReprMembersJoin(members: seq<Member>, shown: seq<Member>)
    requires forall x :: x in shown ==> x in members
    ensures ReprMembers(members, shown) == Join(", ", MemberReprs(shown))
  {
    if |shown| > 1 {
      ReprMembersJoin(members, shown[1..]);
      assert MemberReprs(shown)[1..] == MemberReprs(shown[1..]);
    }
  }

  /** `repr(s)`: single quotes unless `s` holds a single quote and no double
      quote; the backslash, the chosen quote and `\n`, `\r`, `\t` are
      escaped. */
  function StrRepr(s: string): (r: string)
    ensures |r| >= 2 && r[0] == r[|r| - 1]
    ensures r[0] == if '\'' in s && '"' !in s then '"' else '\''
  {
    var quote := if '\'' in s && '"' !in s then '"' else '\'';
    [quote] + ReprBody(s, quote) + [quote]
  }

  /** Reading a `repr` body back: a backslash and the character after it
      stand for that character, `n`, `r` and `t` for the control characters. */
  function Unescape(t: string): string {
    if t == [] then ""
    else if t[0] == '\\' && |t| >= 2 then
      var c := t[1];
      [if c == 'n' then '\n' else if c == 'r' then '\r' else if c == 't' then '\t' else c] + Unescape(t[2..])
    else [t[0]] + Unescape(t[1..])
  }

  /** Inside the quotes, a string `repr` reads back as the string itself. */
  lemma StrReprRoundTrip(s: string)
    ensures var r := StrRepr(s); Unescape(r[1..|r| - 1]) == s
  {
    var quote := if '\'' in s && '"' !in s then '"' else '\'';
    var r := StrRepr(s);
    assert r[1..|r| - 1] == ReprBody(s, quote);
    ReprBodyRoundTrip(s, quote);
  }

  lemma {:induction false} ReprBodyRoundTrip(s: string, quote: char)
    requires quote == '\'' || quote == '"'
    ensures Unescape(ReprBody(s, quote)) == s
  {
    if s != [] {
      var c := s[0];
      var e := if c == '\\' then "\\\\" else if c == quote then ['\\', quote]
               else if c == '\n' then "\\n" else if c == '\r' then "\\r"
               else if c == '\t' then "\\t" else [c];
      var rest := ReprBody(s[1..], quote);
      assert ReprBody(s, quote) == e + rest;
      ReprBodyRoundTrip(s[1..], quote);
      if |e| == 2 {
        assert (e + rest)[2..] == rest;
      } else {
        assert (e + rest)[1..] == rest;
      }
      assert s == [c] + s[1..];
    }
  }

  function ReprBody(s: string, quote: char): string {
    if s == [] then ""
    else
      var c := s[0];
      var e := if c == '\\' then "\\\\" else if c == quote then ['\\', quote]
               else if c == '\n' then "\\n" else if c == '\r' then "\\r"
               else if c == '\t' then "\\t" else [c];
      e + ReprBody(s[1..], quote)
  }

  // ------------------------------------------------------- json.dumps

  predicate PrintableAscii(c: char) {
    ' ' <= c <= '~'
  }

  function HexDigit(d: nat): (c: char)
    requires d < 16
    ensures PrintableAscii(c)
  {
    "0123456789abcdef"[d]
  }

  /** `\uXXXX` for a code unit below 0x10000. */
  function Hex4(n: nat): (r: string)
    requires n < 0x10000
    ensures |r| == 6 && forall k :: 0 <= k < 6 ==> PrintableAscii(r[k])
  {
    ['\\', 'u', HexDigit(n / 0x1000), HexDigit(n / 0x100 % 16), HexDigit(n / 0x10 % 16), HexDigit(n % 16)]
  }

  /** One character as `json.dumps` writes it with `ensure_ascii=True`:
      printable ASCII stays, the quote and backslash are escaped, control
      characters get their short escape or `\u00XX`, and everything beyond
      ASCII becomes `\uXXXX` or a surrogate pair. */
  function EscapeChar(c: char): (r: string)
    ensures forall k :: 0 <= k < |r| ==> PrintableAscii(r[k])
    ensures PrintableAscii(c) && c != '"' && c != '\\' <==> r == [c]
  {
    if c == '"' then "\\\""
    else if c == '\\' then "\\\\"
    else if c == '\n' then "\\n"
    else if c == '\r' then "\\r"
    else if c == '\t' then "\\t"
    else if c == 8 as char then "\\b"
    else if c == 12 as char then "\\f"
    else if PrintableAscii(c) then [c]
    else if (c as int) < 0x10000 then Hex4(c as int)
    else
      var v := c as int - 0x10000;
      Hex4(0xD800 + v / 0x400) + Hex4(0xDC00 + v % 0x400)
  }

  function EscapeAll(s: string): (r: string)
    ensures forall k :: 0 <= k < |r| ==> PrintableAscii(r[k])
  {
    if s == [] then "" else EscapeChar(s[0]) + EscapeAll(s[1..])
  }

  /** `json.dumps(s)` for a string. */
  function JsonQuote(s: string): (r: string)
    ensures |r| >= 2 && r[0] == '"' && r[|r| - 1] == '"'
    ensures forall k :: 0 <= k < |r| ==> PrintableAscii(r[k])
  {
    "\"" + EscapeAll(s) + "\""
  }

  /** A string of printable ASCII without quote or backslash is written
      unchanged between the quotes. */
  lemma {:induction false} EscapeAllPlain(s: string)
    requires forall k :: 0 <= k < |s| ==> PrintableAscii(s[k]) && s[k] != '"' && s[k] != '\\'
    ensures EscapeAll(s) == s
  {
    if s != [] {
      EscapeAllPlain(s[1..]);
    }
  }

  /** `json.dumps({"error": message})`. */
  function ErrorObject(message: string): (r: string)
    ensures StartsWith(r, "{\"error\": \"")
    ensures forall k :: 0 <= k < |r| ==> PrintableAscii(r[k])
  {
    var q := JsonQuote(message);
    assert q[0] == '"';
    var r := "{\"error\": " + q + "}";
    assert r[..11] == "{\"error\": " + [q[0]];
    r
  }
}
