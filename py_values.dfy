/** The Python values the bot handles and the parts of the Python run time its
    texts depend on: decoded JSON (`response.json()`), truthiness (the `or` in
    `get_api_answer`), `str`/`repr` (every f-string and every `str(error)`),
    `type(...)` and `str.split()`. */
module PyValues {
  import opened Wrappers

  /** A decoded JSON document. Objects keep their keys in document order, as a
      Python `dict` produced by `json.loads` does. */
  datatype Json =
    | JNull
    | JBool(b: bool)
    | JInt(i: int)
    | JString(s: string)
    | JArray(items: seq<Json>)
    | JObject(fields: seq<(string, Json)>)

  /** The values Python can hash, so the only ones that can key a `dict`
      lookup or be carried by the `KeyError` it raises. */
  type Hashable = v: Json | !v.JArray? && !v.JObject? witness JNull

  /** The value stored under `key` in an object's fields (the first binding). */
  function Lookup(fields: seq<(string, Json)>, key: string): (r: Option<Json>)
    ensures r.None? <==> forall k :: 0 <= k < |fields| ==> fields[k].0 != key
    ensures r.Some? ==> exists k :: 0 <= k < |fields| && fields[k] == (key, r.value)
  {
    if fields == [] then None
    else if fields[0].0 == key then Some(fields[0].1)
    else
      var r := Lookup(fields[1..], key);
      assert forall k :: 0 < k < |fields| ==> fields[k] == fields[1..][k - 1];
      r
  }

  /** `key in v` for a dict `v`. */
  predicate Has(v: Json, key: string) {
    v.JObject? && Lookup(v.fields, key).Some?
  }

  /** `v[key]` for a dict `v` that has `key`. */
  function Get(v: Json, key: string): Json
    requires Has(v, key)
  {
    Lookup(v.fields, key).value
  }

  /** `bool(v)`: None, False, 0, the empty string, list and dict are false. */
  predicate Truthy(v: Json) {
    match v
    case JNull => false
    case JBool(b) => b
    case JInt(i) => i != 0
    case JString(s) => s != ""
    case JArray(items) => items != []
    case JObject(fields) => fields != []
  }

  /** `type(v).__name__`. */
  function TypeName(v: Json): string {
    match v
    case JNull => "NoneType"
    case JBool(_) => "bool"
    case JInt(_) => "int"
    case JString(_) => "str"
    case JArray(_) => "list"
    case JObject(_) => "dict"
  }

  /** `str(type(v))`, as an f-string renders a class. */
  function TypeText(v: Json): string {
    "<class '" + TypeName(v) + "'>"
  }

  // ---------------------------------------------------------------- integers

  function Digit(d: nat): (c: char)
    requires d < 10
    ensures '0' <= c <= '9' && c as int - '0' as int == d
  {
    "0123456789"[d]
  }

  /** The decimal digits of `n`, most significant first, without leading zeros. */
  function Natural(n: nat): (s: string)
    ensures |s| >= 1 && (n >= 10 <==> |s| >= 2)
    ensures forall k :: 0 <= k < |s| ==> '0' <= s[k] <= '9'
  {
    if n < 10 then [Digit(n)] else Natural(n / 10) + [Digit(n % 10)]
  }

  /** `str(i)` for an `int`. */
  function Decimal(i: int): string {
    if i < 0 then "-" + Natural(-i) else Natural(i)
  }

  lemma {:induction false} NaturalInjective(a: nat, b: nat)
    requires Natural(a) == Natural(b)
    ensures a == b
  {
    if a >= 10 {
      var s := Natural(a);
      assert s == Natural(a / 10) + [Digit(a % 10)] && s == Natural(b / 10) + [Digit(b % 10)];
      assert Natural(a / 10) == s[..|s| - 1] == Natural(b / 10);
      NaturalInjective(a / 10, b / 10);
      assert Digit(a % 10) == s[|s| - 1] == Digit(b % 10);
    }
  }

  lemma DecimalSign(i: int)
    ensures |Decimal(i)| >= 1 && (Decimal(i)[0] == '-' <==> i < 0)
  {
  }

  /** Different integers print differently, so texts that embed a status code
      (and that the bot compares to suppress repeats) tell the codes apart. */
  lemma DecimalInjective(a: int, b: int)
    requires Decimal(a) == Decimal(b)
    ensures a == b
  {
    DecimalSign(a);
    DecimalSign(b);
    if a < 0 && b < 0 {
      assert Natural(-a) == Decimal(a)[1..] == Natural(-b);
      NaturalInjective(-a, -b);
    } else if a >= 0 && b >= 0 {
      NaturalInjective(a, b);
    }
  }

  // ------------------------------------------------------------ str and repr

  /** The quote `repr` puts around a string: a double quote when the text holds
      a single quote and no double quote, otherwise a single quote. */
  function QuoteFor(s: string): char {
    if '\'' in s && '"' !in s then '"' else '\''
  }

  function HexDigit(d: nat): char
    requires d < 16
  {
    "0123456789abcdef"[d]
  }

  /** A character that `repr` copies as it is (given the chosen quote). */
  predicate Verbatim(c: char, quote: char) {
    c != quote && c != '\\' && c as int >= 0x20 && c as int != 0x7f
  }

  /** How `repr` writes one character inside the quotes. */
  function EscapeChar(c: char, quote: char): string {
    if c == quote || c == '\\' then ['\\', c]
    else if c == '\t' then "\\t"
    else if c == '\n' then "\\n"
    else if c == '\r' then "\\r"
    else if c as int < 0x20 || c as int == 0x7f then "\\x" + [HexDigit(c as int / 16), HexDigit(c as int % 16)]
    else [c]
  }

  function Escape(s: string, quote: char): string {
    if s == [] then [] else EscapeChar(s[0], quote) + Escape(s[1..], quote)
  }

  /** `repr(s)` for a `str`. */
  function QuoteString(s: string): string {
    var q := QuoteFor(s);
    [q] + Escape(s, q) + [q]
  }

  /** A text without backslashes, control characters or the quote comes out
      of `repr` unchanged between the quotes. */
  lemma {:induction false} EscapeVerbatim(s: string, quote: char)
    requires forall k :: 0 <= k < |s| ==> Verbatim(s[k], quote)
    ensures Escape(s, quote) == s
  {
    if s != [] {
      EscapeVerbatim(s[1..], quote);
    }
  }

  function JoinComma(parts: seq<string>): string {
    if parts == [] then ""
    else if |parts| == 1 then parts[0]
    else parts[0] + ", " + JoinComma(parts[1..])
  }

  /** `repr(v)`. */
  function ReprOf(v: Json): string
    decreases v
  {
    match v
    case JNull => "None"
    case JBool(b) => if b then "True" else "False"
    case JInt(i) => Decimal(i)
    case JString(s) => QuoteString(s)
    case JArray(items) =>
      "[" + JoinComma(seq(|items|, k requires 0 <= k < |items| => ReprOf(items[k]))) + "]"
    case JObject(fields) =>
      "{" + JoinComma(seq(|fields|, k requires 0 <= k < |fields| =>
                            QuoteString(fields[k].0) + ": " + ReprOf(fields[k].1))) + "}"
  }

  /** `str(v)`, which is what an f-string substitutes: a string is itself,
      anything else is its `repr`. */
  function StrOf(v: Json): string {
    if v.JString? then v.s else ReprOf(v)
  }

  // ------------------------------------------------------------- str.split()

  /** `c.isspace()`: the characters `str.split()` with no argument splits on. */
  predicate IsSpace(c: char) {
    var n := c as int;
    (9 <= n <= 13) || (28 <= n <= 32) || n == 0x85 || n == 0xa0 || n == 0x1680
    || (0x2000 <= n <= 0x200a) || n == 0x2028 || n == 0x2029 || n == 0x202f
    || n == 0x205f || n == 0x3000
  }

  /** A word as `str.split()` yields it: non-empty, without whitespace. */
  predicate IsWord(w: string) {
    w != [] && forall k :: 0 <= k < |w| ==> !IsSpace(w[k])
  }

  /** The length of the run of non-whitespace characters that starts `s`. */
  function WordLength(s: string): (n: nat)
    ensures n <= |s|
    ensures forall k :: 0 <= k < n ==> !IsSpace(s[k])
    ensures n < |s| ==> IsSpace(s[n])
  {
    if s == [] || IsSpace(s[0]) then 0 else 1 + WordLength(s[1..])
  }

  /** The non-whitespace characters of `s`, in order. */
  function NonSpace(s: string): string {
    if s == [] then [] else (if IsSpace(s[0]) then [] else [s[0]]) + NonSpace(s[1..])
  }

  /** `''.join(words)`. */
  function Concat(words: seq<string>): string {
    if words == [] then [] else words[0] + Concat(words[1..])
  }

  /** `s.split()`: the maximal runs of non-whitespace characters, in order.
      Nothing but whitespace is dropped. */
  function Split(s: string): (words: seq<string>)
    ensures forall k :: 0 <= k < |words| ==> IsWord(words[k])
    ensures Concat(words) == NonSpace(s)
    decreases |s|
  {
    if s == [] then []
    else if IsSpace(s[0]) then Split(s[1..])
    else
      var n := WordLength(s);
      NonSpaceOfWord(s[..n], s[n..]);
      assert s[..n] + s[n..] == s;
      assert ([s[..n]] + Split(s[n..]))[1..] == Split(s[n..]);
      [s[..n]] + Split(s[n..])
  }

  lemma {:induction false} NonSpaceOfWord(w: string, rest: string)
    requires forall k :: 0 <= k < |w| ==> !IsSpace(w[k])
    ensures NonSpace(w + rest) == w + NonSpace(rest)
  {
    if w != [] {
      assert (w + rest)[0] == w[0] && (w + rest)[1..] == w[1..] + rest;
      NonSpaceOfWord(w[1..], rest);
      assert w == [w[0]] + w[1..];
    } else {
      assert w + rest == rest;
    }
  }

  lemma {:induction false} WordLengthOfWord(w: string, rest: string)
    requires forall k :: 0 <= k < |w| ==> !IsSpace(w[k])
    requires rest == [] || IsSpace(rest[0])
    ensures WordLength(w + rest) == |w|
  {
    if w != [] {
      assert (w + rest)[1..] == w[1..] + rest;
      WordLengthOfWord(w[1..], rest);
    }
  }

  /** Whitespace only, possibly empty. */
  predicate IsBlank(s: string) {
    forall k :: 0 <= k < |s| ==> IsSpace(s[k])
  }

  /** `gaps[0] + words[0] + gaps[1] + … + words[n-1] + gaps[n]`: words laid
      out between runs of whitespace. */
  function Spread(words: seq<string>, gaps: seq<string>): string
    requires |gaps| == |words| + 1
  {
    if words == [] then gaps[0] else gaps[0] + words[0] + Spread(words[1..], gaps[1..])
  }

  /** Leading whitespace is skipped. */
  lemma {:induction false} SplitBlankPrefix(b: string, s: string)
    requires IsBlank(b)
    ensures Split(b + s) == Split(s)
  {
    if b != [] {
      assert (b + s)[0] == b[0] && (b + s)[1..] == b[1..] + s;
      SplitBlankPrefix(b[1..], s);
    } else {
      assert b + s == s;
    }
  }

  /** A word followed by the end or by whitespace is the first item. */
  lemma SplitWordFirst(w: string, rest: string)
    requires IsWord(w)
    requires rest == [] || IsSpace(rest[0])
    ensures Split(w + rest) == [w] + Split(rest)
  {
    WordLengthOfWord(w, rest);
    assert (w + rest)[..|w|] == w && (w + rest)[|w|..] == rest;
  }

  /** `str.split()` inverts any layout of words: whatever the whitespace
      between them (tabs, newlines, runs of spaces, at least one character)
      and around them (possibly none), splitting gives back exactly the
      words, in order. */
  lemma {:induction false} SplitSpread(words: seq<string>, gaps: seq<string>)
    requires |gaps| == |words| + 1
    requires forall k :: 0 <= k < |words| ==> IsWord(words[k])
    requires forall k :: 0 <= k < |gaps| ==> IsBlank(gaps[k])
    requires forall k :: 0 < k < |words| ==> gaps[k] != []
    ensures Split(Spread(words, gaps)) == words
  {
    if words == [] {
      SplitBlankPrefix(gaps[0], []);
      assert gaps[0] + [] == gaps[0];
    } else {
      var rest := Spread(words[1..], gaps[1..]);
      assert IsBlank(gaps[1]);
      assert rest == [] || IsSpace(rest[0]) by {
        if words[1..] != [] {
          assert gaps[1] != [];
        }
      }
      assert gaps[0] + words[0] + rest == gaps[0] + (words[0] + rest);
      SplitBlankPrefix(gaps[0], words[0] + rest);
      SplitWordFirst(words[0], rest);
      SplitSpread(words[1..], gaps[1..]);
      assert words == [words[0]] + words[1..];
    }
  }
}
