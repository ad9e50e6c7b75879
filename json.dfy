/**
 * JSON values as Python holds them after `json.loads` or `yaml.safe_load`
 * (None, bool, int, float, str, list and insertion-ordered dict), and a model of
 * `json.dumps` with its default options: `ensure_ascii=True`, item separator ", "
 * and key separator ": ".
 */
module Json {
  import opened Wrappers

  /** A float is carried as the text `repr` gives it ("0.7", "1e-05", "NaN", "-Infinity"):
      nothing in the model does arithmetic on floats. */
  type FloatText = s: string | |s| > 0 && forall i | 0 <= i < |s| :: s[i] in "0123456789.+-eINafinty"
    witness "0.0"

  datatype Value =
    | Null
    | Bool(b: bool)
    | Int(i: int)
    | Float(text: FloatText)
    | Str(s: string)
    | List(items: seq<Value>)
    | Dict(members: seq<Member>)

  /** One key/value pair of a dict. A dict keeps its members in insertion order. */
  datatype Member = Member(key: string, value: Value)

  /** A Python dict never holds the same key twice. */
  predicate UniqueKeys(ms: seq<Member>) {
    forall i, j :: 0 <= i < j < |ms| ==> ms[i].key != ms[j].key
  }

  /** `d.get(k)`: the value stored under `k`, or None when `k` is not a key. */
  function Get(ms: seq<Member>, k: string): (r: Option<Value>)
    ensures r.None? <==> forall i :: 0 <= i < |ms| ==> ms[i].key != k
  {
    if ms == [] then None
    else if ms[0].key == k then Some(ms[0].value)
    else Get(ms[1..], k)
  }

  /** In a dict whose keys are distinct, looking up a member's key finds that member's value. */
  lemma {:induction false} GetUnique(ms: seq<Member>, i: int)
    requires UniqueKeys(ms) && 0 <= i < |ms|
    ensures Get(ms, ms[i].key) == Some(ms[i].value)
  {
    if i > 0 {
      var rest := ms[1..];
      assert ms[0].key != ms[i].key && rest[i - 1] == ms[i];
      assert UniqueKeys(rest) by {
        forall a, b | 0 <= a < b < |rest| ensures rest[a].key != rest[b].key {
          assert rest[a] == ms[a + 1] && rest[b] == ms[b + 1];
        }
      }
      GetUnique(rest, i - 1);
    }
  }

  /** What `d.get(k)` finds is a member of the dict stored under `k`. */
  lemma {:induction false} GetFound(ms: seq<Member>, k: string)
    requires Get(ms, k).Some?
    ensures exists i :: 0 <= i < |ms| && ms[i] == Member(k, Get(ms, k).value)
  {
    if ms[0].key != k {
      GetFound(ms[1..], k);
      var i :| 0 <= i < |ms[1..]| && ms[1..][i] == Member(k, Get(ms, k).value);
      assert ms[i + 1] == ms[1..][i];
    } else {
      assert ms[0] == Member(k, Get(ms, k).value);
    }
  }

  /** `k in v` and `v[k]` for a value that is a dict; any other value holds no key. */
  function Field(v: Value, k: string): (r: Option<Value>)
    ensures r.Some? ==> v.Dict? && Get(v.members, k) == r
  {
    if v.Dict? then Get(v.members, k) else None
  }

  /** Every character is printable ASCII, from ' ' to '~'. */
  predicate Printable(s: string) {
    forall i :: 0 <= i < |s| ==> ' ' <= s[i] <= '~'
  }

  /** A float's text is printable. */
  lemma FloatTextPrintable(t: FloatText)
    ensures Printable(t)
  {
    forall i | 0 <= i < |t| ensures ' ' <= t[i] <= '~' {
      assert t[i] in "0123456789.+-eINafinty";
    }
  }

  function HexDigit(d: int): (c: char)
    requires 0 <= d < 16
    ensures ('0' <= c <= '9') || ('a' <= c <= 'f')
  {
    "0123456789abcdef"[d]
  }

  /** `"\\u{0:04x}".format(n)`: a backslash, 'u' and four lower-case hex digits. */
  function UnicodeEscape(n: int): (r: string)
    requires 0 <= n < 0x1_0000
    ensures |r| == 6 && Printable(r)
  {
    "\\u" + [HexDigit(n / 0x1000), HexDigit(n / 0x100 % 16), HexDigit(n / 0x10 % 16), HexDigit(n % 16)]
  }

  /** How `json.dumps` writes one character of a string: the two-character escapes for the
      quote, the backslash and five control characters, every other character outside
      ' '..'~' as `\uXXXX` (a surrogate pair above U+FFFF), and the rest unchanged. */
  function EscapeChar(c: char): (r: string)
    ensures |r| > 0 && Printable(r)
    ensures ' ' <= c <= '~' && c != '"' && c != '\\' ==> r == [c]
  {
    if c == '"' then "\\\""
    else if c == '\\' then "\\\\"
    else if c == '\n' then "\\n"
    else if c == '\r' then "\\r"
    else if c == '\t' then "\\t"
    else if c as int == 8 then "\\b"
    else if c as int == 12 then "\\f"
    else if ' ' <= c <= '~' then [c]
    else if c as int < 0x1_0000 then UnicodeEscape(c as int)
    else
      var n := c as int - 0x1_0000;
      UnicodeEscape(0xD800 + n / 0x400) + UnicodeEscape(0xDC00 + n % 0x400)
  }

  function EscapeString(s: string): (r: string)
    ensures Printable(r)
    ensures |r| >= |s|
  {
    if s == [] then "" else EscapeChar(s[0]) + EscapeString(s[1..])
  }

  /** A string literal: the escaped text between double quotes. */
  function Quote(s: string): (r: string)
    ensures Printable(r) && |r| >= 2 && r[0] == '"' && r[|r| - 1] == '"'
  {
    "\"" + EscapeString(s) + "\""
  }

  function Digit(d: int): (c: char)
    requires 0 <= d < 10
    ensures '0' <= c <= '9'
  {
    "0123456789"[d]
  }

  function NatText(n: nat): (r: string)
    ensures |r| > 0 && forall i :: 0 <= i < |r| ==> '0' <= r[i] <= '9'
  {
    if n < 10 then [Digit(n)] else NatText(n / 10) + [Digit(n % 10)]
  }

  /** `str(i)` for an int: decimal digits with a leading '-' when negative. */
  function IntText(i: int): (r: string)
    ensures Printable(r) && |r| > 0
  {
    if i < 0 then "-" + NatText(-i) else NatText(i)
  }

  /** `json.dumps(v)`. The text is printable ASCII, so in particular it never holds a line
      break: a dumped value always fits on one line. */
  function Dumps(v: Value): (r: string)
    ensures Printable(r) && |r| > 0
  {
    match v
    case Null => "null"
    case Bool(b) => if b then "true" else "false"
    case Int(i) => IntText(i)
    case Float(t) => FloatTextPrintable(t); t
    case Str(s) => Quote(s)
    case List(items) => "[" + DumpItems(items) + "]"
    case Dict(ms) => "{" + DumpMembers(ms) + "}"
  }

  /** The elements of a list, separated by ", ". */
  function DumpItems(items: seq<Value>): (r: string)
    ensures Printable(r)
  {
    if items == [] then ""
    else if |items| == 1 then Dumps(items[0])
    else Dumps(items[0]) + ", " + DumpItems(items[1..])
  }

  /** The members of a dict as `"key": value`, separated by ", ". */
  function DumpMembers(ms: seq<Member>): (r: string)
    ensures Printable(r)
  {
    if ms == [] then ""
    else if |ms| == 1 then Quote(ms[0].key) + ": " + Dumps(ms[0].value)
    else Quote(ms[0].key) + ": " + Dumps(ms[0].value) + ", " + DumpMembers(ms[1..])
  }

  // ===== Compact serialisation =====

  /** No line break of any kind. */
  predicate OneLine(s: string) {
    forall i :: 0 <= i < |s| ==> s[i] != '\n' && s[i] != '\r'
  }

  /** How pydantic's `model_dump_json` writes one character of a string: the two-character
      escapes for the quote, the backslash and five control characters, the remaining
      control characters below U+0020 as `\u00XX`, and every other character as itself. */
  function CompactEscapeChar(c: char): (r: string)
    ensures |r| > 0 && OneLine(r)
    ensures c >= ' ' && c != '"' && c != '\\' ==> r == [c]
  {
    if c == '"' then "\\\""
    else if c == '\\' then "\\\\"
    else if c == '\n' then "\\n"
    else if c == '\r' then "\\r"
    else if c == '\t' then "\\t"
    else if c as int == 8 then "\\b"
    else if c as int == 12 then "\\f"
    else if c < ' ' then UnicodeEscape(c as int)
    else [c]
  }

  function CompactEscapeString(s: string): (r: string)
    ensures OneLine(r)
  {
    if s == [] then "" else CompactEscapeChar(s[0]) + CompactEscapeString(s[1..])
  }

  function CompactQuote(s: string): (r: string)
    ensures OneLine(r) && |r| >= 2 && r[0] == '"'
  {
    "\"" + CompactEscapeString(s) + "\""
  }

  /** `model_dump_json()`: JSON without any whitespace between tokens. A line break inside
      a string is escaped, so the text is one line; an object's text starts with '{'. */
  function CompactDumps(v: Value): (r: string)
    ensures |r| > 0 && OneLine(r)
    ensures v.Dict? ==> r[0] == '{'
  {
    match v
    case Null => "null"
    case Bool(b) => if b then "true" else "false"
    case Int(i) => IntText(i)
    case Float(t) => FloatTextPrintable(t); t
    case Str(s) => CompactQuote(s)
    case List(items) => "[" + CompactItems(items) + "]"
    case Dict(ms) => "{" + CompactMembers(ms) + "}"
  }

  function CompactItems(items: seq<Value>): (r: string)
    ensures OneLine(r)
  {
    if items == [] then ""
    else if |items| == 1 then CompactDumps(items[0])
    else CompactDumps(items[0]) + "," + CompactItems(items[1..])
  }

  function CompactMembers(ms: seq<Member>): (r: string)
    ensures OneLine(r)
  {
    if ms == [] then ""
    else if |ms| == 1 then CompactQuote(ms[0].key) + ":" + CompactDumps(ms[0].value)
    else CompactQuote(ms[0].key) + ":" + CompactDumps(ms[0].value) + "," + CompactMembers(ms[1..])
  }
}
