/**
 * A decoded JSON document as the CLI sees it in Python, and the built-in
 * Python operations the CLI applies to such values: truthiness, `dict.get`,
 * `in`, iteration, `str()`, `repr()`, `str.join` and `str.strip`.
 */
module PyJson {
  import opened Wrappers

  /** The value `json.loads` returns. Objects are Python dicts, which keep
      their members in document order; a decoded dict holds each key once.
      JSON numbers are integers here (floats are not modelled). */
  datatype Json =
    | JNull
    | JBool(b: bool)
    | JInt(i: int)
    | JStr(s: string)
    | JArr(items: seq<Json>)
    | JObj(members: seq<Member>)

  datatype Member = Member(key: string, value: Json)

  /** The exceptions Python raises while the CLI reads a decoded value:
      `.get` on something that is not a dict, and joining or iterating
      something that is not an iterable of strings. */
  datatype Fault = AttributeError | TypeError

  /** `key in d` */
  predicate HasKey(d: seq<Member>, key: string)
  {
    exists i :: 0 <= i < |d| && d[i].key == key
  }

  /** The keys of a dict, in order. */
  function Keys(d: seq<Member>): seq<string>
  {
    seq(|d|, i requires 0 <= i < |d| => d[i].key)
  }

  /** `d.get(key)`, with absence as None: the value of the member that
      carries `key`. */
  function Lookup(d: seq<Member>, key: string): (r: Option<Json>)
    ensures r.None? <==> !HasKey(d, key)
    ensures r.Some? ==> exists i :: 0 <= i < |d| && d[i] == Member(key, r.value)
  {
    if d == [] then None
    else if d[0].key == key then Some(d[0].value)
    else
      var r := Lookup(d[1..], key);
      assert HasKey(d, key) ==> HasKey(d[1..], key) by {
        if HasKey(d, key) {
          var i :| 0 <= i < |d| && d[i].key == key;
          assert i != 0 && d[1..][i - 1].key == key;
        }
      }
      assert r.Some? ==> exists i :: 0 <= i < |d| && d[i] == Member(key, r.value) by {
        if r.Some? {
          var i :| 0 <= i < |d[1..]| && d[1..][i] == Member(key, r.value);
          assert d[i + 1] == Member(key, r.value);
        }
      }
      r
  }

  /** `d.get(key, default)` */
  function Get(d: seq<Member>, key: string, default: Json): Json
  {
    Lookup(d, key).GetOr(default)
  }

  /** Python truthiness (`if v:`, `v or default`). */
  predicate Truthy(v: Json)
  {
    match v
    case JNull => false
    case JBool(b) => b
    case JInt(n) => n != 0
    case JStr(s) => s != ""
    case JArr(items) => items != []
    case JObj(members) => members != []
  }

  /** `for x in v`: a list yields its items, a string its characters, a
      dict its keys; anything else is not iterable. */
  function Iterate(v: Json): (r: Result<seq<Json>, Fault>)
    ensures r.Ok? <==> v.JArr? || v.JStr? || v.JObj?
    ensures r.Err? ==> r.error == TypeError
    ensures v.JArr? ==> r == Ok(v.items)
    ensures v.JStr? ==> |r.value| == |v.s| && forall i :: 0 <= i < |v.s| ==> r.value[i] == JStr([v.s[i]])
    ensures v.JObj? ==> |r.value| == |v.members| && forall i :: 0 <= i < |v.members| ==> r.value[i] == JStr(v.members[i].key)
  {
    match v
    case JArr(items) => Ok(items)
    case JStr(s) => Ok(seq(|s|, i requires 0 <= i < |s| => JStr([s[i]])))
    case JObj(members) => Ok(seq(|members|, i requires 0 <= i < |members| => JStr(members[i].key)))
    case _ => Err(TypeError)
  }

  /** `sep.join(parts)` over plain strings. */
  function JoinWith(sep: string, parts: seq<string>): string
  {
    if parts == [] then ""
    else if |parts| == 1 then parts[0]
    else parts[0] + sep + JoinWith(sep, parts[1..])
  }

  /** `sep.join(xs)` over already iterated values: a TypeError at the first
      item that is not a string. */
  function JoinItems(sep: string, xs: seq<Json>): (r: Result<string, Fault>)
    ensures r.Err? ==> r.error == TypeError
  {
    if xs == [] then Ok("")
    else if !xs[0].JStr? then Err(TypeError)
    else if |xs| == 1 then Ok(xs[0].s)
    else
      match JoinItems(sep, xs[1..])
      case Err(f) => Err(f)
      case Ok(rest) => Ok(xs[0].s + sep + rest)
  }

  /** `sep.join(v)` for any decoded value. */
  function Join(sep: string, v: Json): (r: Result<string, Fault>)
    ensures r.Err? ==> r.error == TypeError
  {
    match Iterate(v)
    case Err(f) => Err(f)
    case Ok(xs) => JoinItems(sep, xs)
  }

  /** Joining succeeds exactly when every item is a string, and then it is
      the plain join of those strings. */
  lemma {:induction false} JoinItemsOk(sep: string, xs: seq<Json>)
    ensures JoinItems(sep, xs).Ok? <==> forall i :: 0 <= i < |xs| ==> xs[i].JStr?
    ensures JoinItems(sep, xs).Ok? ==>
      JoinItems(sep, xs).value == JoinWith(sep, seq(|xs|, i requires 0 <= i < |xs| && xs[i].JStr? => xs[i].s))
  {
    if xs != [] && xs[0].JStr? && |xs| > 1 {
      JoinItemsOk(sep, xs[1..]);
      if JoinItems(sep, xs).Ok? {
        var strs := seq(|xs|, i requires 0 <= i < |xs| && xs[i].JStr? => xs[i].s);
        var tail := seq(|xs[1..]|, i requires 0 <= i < |xs[1..]| && xs[1..][i].JStr? => xs[1..][i].s);
        assert strs[1..] == tail;
      }
    }
  }

  /** The decimal digits of `str(n)` for an int. */
  function Decimal(n: int): string
  {
    if n < 0 then "-" + NatDecimal(-n) else NatDecimal(n)
  }

  function NatDecimal(n: nat): string
  {
    if n < 10 then [Digit(n)] else NatDecimal(n / 10) + [Digit(n % 10)]
  }

  function Digit(d: nat): char
    requires d < 10
  {
    "0123456789"[d]
  }

  function HexDigit(d: nat): char
    requires d < 16
  {
    "0123456789abcdef"[d]
  }

  /** `str(v)`: a string prints as itself, everything else as its repr. */
  function Display(v: Json): string
  {
    if v.JStr? then v.s else Repr(v)
  }

  /** `repr(v)` of a decoded value. */
  function Repr(v: Json): string
    decreases v
  {
    match v
    case JNull => "None"
    case JBool(b) => if b then "True" else "False"
    case JInt(n) => Decimal(n)
    case JStr(s) => Quote(s)
    case JArr(items) =>
      "[" + JoinWith(", ", seq(|items|, i requires 0 <= i < |items| => Repr(items[i]))) + "]"
    case JObj(members) =>
      "{" + JoinWith(", ", seq(|members|, i requires 0 <= i < |members| =>
        Quote(members[i].key) + ": " + Repr(members[i].value))) + "}"
  }

  /** `repr(s)` of a string: double quotes when the text holds a single
      quote and no double quote, single quotes otherwise. */
  function Quote(s: string): string
  {
    var q := if '\'' in s && '"' !in s then '"' else '\'';
    [q] + Escape(s, q) + [q]
  }

  function Escape(s: string, q: char): string
  {
    if s == [] then "" else EscapeChar(s[0], q) + Escape(s[1..], q)
  }

  /** The escapes `repr` writes for the chosen quote, backslash, the three
      named control characters and the other non-printable Latin-1 ones. */
  function EscapeChar(c: char, q: char): string
  {
    if c == q || c == '\\' then ['\\', c]
    else if c == '\n' then "\\n"
    else if c == '\r' then "\\r"
    else if c == '\t' then "\\t"
    else if c as int < 0x20 || 0x7f <= c as int <= 0xa0 || c as int == 0xad then
      "\\x" + [HexDigit(c as int / 16), HexDigit(c as int % 16)]
    else [c]
  }

  /** `c.isspace()` */
  predicate IsSpace(c: char)
  {
    var n := c as int;
    (0x09 <= n <= 0x0d) || (0x1c <= n <= 0x20) || n == 0x85 || n == 0xa0 ||
    n == 0x1680 || (0x2000 <= n <= 0x200a) || n == 0x2028 || n == 0x2029 ||
    n == 0x202f || n == 0x205f || n == 0x3000
  }

  /** `s.lstrip()`: the text from the first non-whitespace character on. */
  function LStrip(s: string): (r: string)
    ensures |r| <= |s| && r == s[|s| - |r|..]
    ensures forall i :: 0 <= i < |s| - |r| ==> IsSpace(s[i])
    ensures r != [] ==> !IsSpace(r[0])
  {
    if s != [] && IsSpace(s[0]) then
      var r := LStrip(s[1..]);
      assert forall i :: 1 <= i < |s| - |r| ==> s[i] == s[1..][i - 1];
      r
    else s
  }

  /** `s.rstrip()`: the text up to the last non-whitespace character. */
  function RStrip(s: string): (r: string)
    ensures |r| <= |s| && r == s[..|r|]
    ensures forall i :: |r| <= i < |s| ==> IsSpace(s[i])
    ensures r != [] ==> !IsSpace(r[|r| - 1])
  {
    if s != [] && IsSpace(s[|s| - 1]) then
      var r := RStrip(s[..|s| - 1]);
      assert forall i :: |r| <= i < |s| - 1 ==> s[i] == s[..|s| - 1][i];
      r
    else s
  }

  /** `s.strip()`: leading and trailing whitespace removed. */
  function Strip(s: string): string
  {
    RStrip(LStrip(s))
  }

  /** Stripping leaves nothing exactly when every character is whitespace. */
  lemma {:induction false} StripEmptyIffAllSpace(s: string)
    ensures Strip(s) == [] <==> forall i :: 0 <= i < |s| ==> IsSpace(s[i])
  {
    var l := LStrip(s);
    assert l != [] ==> l[0] == s[|s| - |l|];
  }

  /** The empty-query test `not s or not s.strip()`: the query is empty
      or whitespace only. */
  function Blank(s: string): (b: bool)
    ensures b <==> forall i :: 0 <= i < |s| ==> IsSpace(s[i])
  {
    StripEmptyIffAllSpace(s);
    s == [] || Strip(s) == []
  }
}
