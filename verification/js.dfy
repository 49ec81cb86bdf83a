/** The pieces of JavaScript value semantics the application relies on:
    truthiness (`!x`, `x || d`), property access on parsed JSON, template-literal
    interpolation (`${x}`), `JSON.stringify`, and the String.prototype helpers
    `trim`, `split`, `charAt(0).toUpperCase() + slice(1)`. */
module Js {

  datatype Option<+T> = None | Some(value: T) {
    /** `x || d` for a field whose only falsy value is "absent or null". */
    function GetOr(default: T): T {
      if Some? then value else default
    }
  }

  /** A dynamically typed value as it arrives in a parsed JSON request body or
      is stored in a loosely typed column. Numbers are exact reals (floating
      point is not modelled). */
  datatype Value =
    | Undefined
    | Null
    | Bool(b: bool)
    | Num(n: real)
    | Str(s: string)
    | Arr(items: seq<Value>)
    | Obj(fields: seq<Field>)

  /** One own property of a parsed JSON object, in source order. */
  datatype Field = Field(key: string, val: Value)

  /** JavaScript's ToBoolean (there is no NaN among the modelled numbers). */
  predicate Truthy(v: Value) {
    match v
    case Undefined => false
    case Null => false
    case Bool(b) => b
    case Num(n) => n != 0.0
    case Str(s) => s != ""
    case Arr(_) => true
    case Obj(_) => true
  }

  /** Truthiness of an optional string field: absent, null and "" are all falsy. */
  predicate Filled(o: Option<string>) {
    o.Some? && o.value != ""
  }

  /** `x || 0` on a nullable integer column. */
  function OrZero(o: Option<int>): (r: int)
    ensures o.None? ==> r == 0
    ensures o.Some? ==> r == o.value
  {
    o.GetOr(0)
  }

  /** `x || 0` on a nullable numeric column. */
  function OrZeroReal(o: Option<real>): (r: real)
    ensures o.None? ==> r == 0.0
    ensures o.Some? ==> r == o.value
  {
    o.GetOr(0.0)
  }

  /** Property access `v.k` on a parsed JSON value: `None` stands for the
      TypeError thrown when `v` is undefined or null. For an object the last
      field with that key wins, as with `JSON.parse`; other values have no
      property of the names this application reads. */
  function GetProp(v: Value, k: string): (r: Option<Value>)
    ensures r.None? <==> v.Undefined? || v.Null?
    ensures v.Obj? && (forall i :: 0 <= i < |v.fields| ==> v.fields[i].key != k) ==> r == Some(Undefined)
  {
    match v
    case Undefined => None
    case Null => None
    case Obj(fields) => Some(LastValue(fields, k))
    case _ => Some(Undefined)
  }

  function LastValue(fields: seq<Field>, k: string): (r: Value)
    ensures (forall i :: 0 <= i < |fields| ==> fields[i].key != k) ==> r == Undefined
    ensures r != Undefined ==> exists i :: 0 <= i < |fields| && fields[i].key == k && fields[i].val == r
  {
    if |fields| == 0 then Undefined
    else if fields[|fields| - 1].key == k then fields[|fields| - 1].val
    else LastValue(fields[..|fields| - 1], k)
  }

  /** `k` is an own property of the object literal `fields`. */
  predicate HasKey(fields: seq<Field>, k: string) {
    exists i :: 0 <= i < |fields| && fields[i].key == k
  }

  /** Reading a key of `{...a, ...b}`: `b` wins wherever it has the key, even
      when its value is falsy or undefined. */
  lemma {:induction false} LastValueAppend(a: seq<Field>, b: seq<Field>, k: string)
    ensures LastValue(a + b, k) == if HasKey(b, k) then LastValue(b, k) else LastValue(a, k)
    decreases |b|
  {
    if |b| == 0 {
      assert a + b == a;
    } else {
      var n := |b| - 1;
      assert (a + b)[..|a + b| - 1] == a + b[..n];
      assert (a + b)[|a + b| - 1] == b[n];
      if b[n].key != k {
        LastValueAppend(a, b[..n], k);
        assert HasKey(b, k) ==> HasKey(b[..n], k) by {
          if HasKey(b, k) {
            var i :| 0 <= i < |b| && b[i].key == k;
            assert i < n && b[..n][i].key == k;
          }
        }
        assert HasKey(b[..n], k) ==> HasKey(b, k) by {
          if HasKey(b[..n], k) {
            var i :| 0 <= i < n && b[..n][i].key == k;
            assert b[i].key == k;
          }
        }
      } else {
        assert HasKey(b, k) by { assert b[n].key == k; }
      }
    }
  }

  /** The last field with key `k` decides its value. */
  lemma {:induction false} LastValueAt(fields: seq<Field>, i: nat, k: string)
    requires i < |fields| && fields[i].key == k
    requires forall j :: i < j < |fields| ==> fields[j].key != k
    ensures LastValue(fields, k) == fields[i].val
    decreases |fields|
  {
    if i < |fields| - 1 {
      LastValueAt(fields[..|fields| - 1], i, k);
    }
  }

  /** Changing the value of another key leaves the value of `k` alone. */
  lemma {:induction false} LastValueUpdate(fields: seq<Field>, i: nat, f: Field, k: string)
    requires i < |fields| && f.key == fields[i].key && f.key != k
    ensures LastValue(fields[i := f], k) == LastValue(fields, k)
    decreases |fields|
  {
    var n := |fields| - 1;
    if i < n {
      assert fields[i := f][..n] == fields[..n][i := f];
      LastValueUpdate(fields[..n], i, f, k);
    } else {
      assert fields[i := f][..n] == fields[..n];
    }
  }

  // ---------------------------------------------------------------------
  // Characters

  /** The characters matched by `\s` and removed by `String.prototype.trim`:
      WhiteSpace and LineTerminator of ECMA-262 (section 12.2 and 12.3). */
  predicate IsSpace(c: char) {
    var n := c as int;
    n == 0x09 || n == 0x0A || n == 0x0B || n == 0x0C || n == 0x0D || n == 0x20
    || n == 0xA0 || n == 0x1680 || (0x2000 <= n <= 0x200A)
    || n == 0x2028 || n == 0x2029 || n == 0x202F || n == 0x205F || n == 0x3000 || n == 0xFEFF
  }

  predicate IsDigit(c: char) {
    '0' <= c <= '9'
  }

  predicate IsLower(c: char) {
    'a' <= c <= 'z'
  }

  /** `toUpperCase` on one character, for the ASCII letters. */
  function Upper(c: char): (r: char)
    ensures IsLower(c) ==> 'A' <= r <= 'Z' && r as int == c as int - 32
    ensures !IsLower(c) ==> r == c
  {
    if IsLower(c) then (c as int - 32) as char else c
  }

  /** `s.charAt(0).toUpperCase() + s.slice(1)`. */
  function Capitalize(s: string): (r: string)
    ensures |r| == |s|
    ensures |s| > 0 ==> r[0] == Upper(s[0]) && r[1..] == s[1..]
  {
    if |s| == 0 then "" else [Upper(s[0])] + s[1..]
  }

  // ---------------------------------------------------------------------
  // trim

  /** Every character of `s` outside `[i, j)` is white space. */
  predicate SpaceOutside(s: string, i: int, j: int) {
    forall k :: 0 <= k < |s| && !(i <= k < j) ==> IsSpace(s[k])
  }

  /** The number of white-space characters `s` starts with. */
  function LeadingSpaces(s: string): (n: nat)
    ensures n <= |s|
    ensures forall k :: 0 <= k < n ==> IsSpace(s[k])
    ensures n == |s| || !IsSpace(s[n])
  {
    if |s| > 0 && IsSpace(s[0]) then 1 + LeadingSpaces(s[1..]) else 0
  }

  /** The number of white-space characters `s` ends with. */
  function TrailingSpaces(s: string): (n: nat)
    ensures n <= |s|
    ensures forall k :: |s| - n <= k < |s| ==> IsSpace(s[k])
    ensures n == |s| || !IsSpace(s[|s| - n - 1])
  {
    if |s| > 0 && IsSpace(s[|s| - 1]) then 1 + TrailingSpaces(s[..|s| - 1]) else 0
  }

  /** `String.prototype.trim`: the longest slice with only white space
      outside it, which neither starts nor ends with white space. */
  function Trim(s: string): (r: string)
    ensures exists i, j :: 0 <= i <= j <= |s| && r == s[i..j] && SpaceOutside(s, i, j)
    ensures r == [] || (!IsSpace(r[0]) && !IsSpace(r[|r| - 1]))
  {
    var i := LeadingSpaces(s);
    var t := s[i..];
    var j := i + |t| - TrailingSpaces(t);
    assert forall k :: j <= k < |s| ==> s[k] == t[k - i];
    assert s[i..j] == t[..j - i];
    s[i..j]
  }

  /** Trimming twice is trimming once. */
  lemma TrimIdempotent(s: string)
    ensures Trim(Trim(s)) == Trim(s)
  {
    var r := Trim(s);
    assert LeadingSpaces(r) == 0;
    assert TrailingSpaces(r[0..]) == 0;
  }

  // ---------------------------------------------------------------------
  // split / join

  /** `sep` occurs in `s` at position `j`. */
  predicate SepAt(s: string, sep: string, j: int) {
    0 <= j && j + |sep| <= |s| && s[j..j + |sep|] == sep
  }

  ghost predicate Contains(s: string, sep: string) {
    exists j :: SepAt(s, sep, j)
  }

  /** `s.indexOf(sep)`, with -1 as `None`. */
  function IndexOf(s: string, sep: string): (r: Option<nat>)
    requires |sep| > 0
    ensures r.Some? ==> SepAt(s, sep, r.value) && forall j :: 0 <= j < r.value ==> !SepAt(s, sep, j)
    ensures r.None? ==> !Contains(s, sep)
    decreases |s|
  {
    if |s| < |sep| then None
    else if sep <= s then Some(0)
    else
      match IndexOf(s[1..], sep)
      case None =>
        assert !Contains(s, sep) by {
          forall j | SepAt(s, sep, j) ensures false {
            if j > 0 {
              assert s[1..][j - 1..j - 1 + |sep|] == s[j..j + |sep|];
              assert SepAt(s[1..], sep, j - 1);
            }
          }
        }
        None
      case Some(k) =>
        assert SepAt(s, sep, k + 1) by {
          assert s[1..][k..k + |sep|] == s[k + 1..k + 1 + |sep|];
        }
        assert forall j :: 0 < j <= k ==> !SepAt(s, sep, j) by {
          forall j | 0 < j <= k && SepAt(s, sep, j) ensures false {
            assert s[1..][j - 1..j - 1 + |sep|] == s[j..j + |sep|];
            assert SepAt(s[1..], sep, j - 1);
          }
        }
        Some(k + 1)
  }

  /** `parts.join(sep)`. */
  function Join(parts: seq<string>, sep: string): string {
    if |parts| == 0 then ""
    else if |parts| == 1 then parts[0]
    else parts[0] + sep + Join(parts[1..], sep)
  }

  /** `s.split(sep)` for a non-empty separator: cut at each leftmost occurrence. */
  function Split(s: string, sep: string): (parts: seq<string>)
    requires |sep| > 0
    ensures |parts| >= 1
    ensures Join(parts, sep) == s
    ensures forall i :: 0 <= i < |parts| ==> !Contains(parts[i], sep)
    decreases |s|
  {
    match IndexOf(s, sep)
    case None => [s]
    case Some(k) =>
      var head := s[..k];
      assert !Contains(head, sep) by {
        forall j | SepAt(head, sep, j) ensures false {
          assert head[j..j + |sep|] == s[j..j + |sep|];
          assert SepAt(s, sep, j);
        }
      }
      var rest := Split(s[k + |sep|..], sep);
      assert s == head + sep + s[k + |sep|..];
      [head] + rest
  }

  /** `a` followed by `sep` has no occurrence of `sep` that starts inside `a`:
      the first occurrence in `a + sep + b` is the one after `a`. */
  ghost predicate CutsCleanly(a: string, sep: string) {
    forall j :: 0 <= j < |a| ==> !SepAt(a + sep, sep, j)
  }

  lemma {:induction false} SplitAfter(a: string, sep: string, b: string)
    requires |sep| > 0
    requires CutsCleanly(a, sep)
    ensures Split(a + sep + b, sep) == [a] + Split(b, sep)
  {
    var s := a + sep + b;
    assert SepAt(s, sep, |a|) by {
      assert s[|a|..|a| + |sep|] == sep;
    }
    forall j | 0 <= j < |a| ensures !SepAt(s, sep, j) {
      if SepAt(s, sep, j) {
        assert (a + sep)[j..j + |sep|] == s[j..j + |sep|];
        assert SepAt(a + sep, sep, j);
      }
    }
    var k := IndexOf(s, sep);
    assert k == Some(|a|);
    assert s[..|a|] == a;
    assert s[|a| + |sep|..] == b;
  }

  /** Joining parts that contain no separator and then splitting gives the parts back. */
  lemma {:induction false} SplitJoin(parts: seq<string>, sep: string)
    requires |sep| > 0 && |parts| >= 1
    requires forall i :: 0 <= i < |parts| - 1 ==> CutsCleanly(parts[i], sep)
    requires !Contains(parts[|parts| - 1], sep)
    ensures Split(Join(parts, sep), sep) == parts
    decreases |parts|
  {
    if |parts| == 1 {
      assert IndexOf(parts[0], sep).None?;
    } else {
      SplitAfter(parts[0], sep, Join(parts[1..], sep));
      SplitJoin(parts[1..], sep);
    }
  }

  /** For the "\n\n" separator, cutting cleanly means: no blank line inside,
      and not ending in a newline. */
  lemma BlankLineCut(a: string)
    requires !Contains(a, "\n\n")
    requires a == [] || a[|a| - 1] != '\n'
    ensures CutsCleanly(a, "\n\n")
  {
    var sep := "\n\n";
    forall j | 0 <= j < |a| ensures !SepAt(a + sep, sep, j) {
      if j + 2 <= |a| {
        assert a[j..j + 2] == (a + sep)[j..j + 2];
        assert !SepAt(a, sep, j);
      } else {
        assert (a + sep)[j] == a[|a| - 1] != '\n';
        assert (a + sep)[j..j + 2][0] != '\n';
      }
    }
  }

  /** A string without the character `c` cuts cleanly at the one-character
      separator `[c]`, and does not contain it. */
  lemma NoCharCut(a: string, c: char)
    requires forall k :: 0 <= k < |a| ==> a[k] != c
    ensures CutsCleanly(a, [c]) && !Contains(a, [c])
  {
    forall j | 0 <= j < |a| ensures !SepAt(a + [c], [c], j) {
      assert (a + [c])[j..j + 1][0] == a[j];
    }
    forall j | 0 <= j && j + 1 <= |a| ensures !SepAt(a, [c], j) {
      assert a[j..j + 1][0] == a[j];
    }
  }

  // ---------------------------------------------------------------------
  // numbers as text

  function DigitChar(d: nat): (c: char)
    requires d < 10
    ensures IsDigit(c) && c as int - '0' as int == d
  {
    (d + '0' as int) as char
  }

  /** Decimal rendering of a natural number (JavaScript's ToString on a safe integer). */
  function NatToString(n: nat): (r: string)
    ensures |r| >= 1 && forall i :: 0 <= i < |r| ==> IsDigit(r[i])
    ensures n >= 10 ==> r[0] != '0'
  {
    if n < 10 then [DigitChar(n)] else NatToString(n / 10) + [DigitChar(n % 10)]
  }

  /** The value of a string of decimal digits. */
  function DigitsValue(s: string): nat
    requires forall i :: 0 <= i < |s| ==> IsDigit(s[i])
  {
    if |s| == 0 then 0
    else
      assert IsDigit(s[|s| - 1]);
      DigitsValue(s[..|s| - 1]) * 10 + (s[|s| - 1] as int - '0' as int)
  }

  lemma {:induction false} NatToStringRoundTrip(n: nat)
    ensures DigitsValue(NatToString(n)) == n
  {
    if n >= 10 {
      NatToStringRoundTrip(n / 10);
      var r := NatToString(n);
      assert r[..|r| - 1] == NatToString(n / 10);
    }
  }

  // ---------------------------------------------------------------------
  // template literals and JSON.stringify

  /** JavaScript's Number::toString, which the model does not fix (it depends on
      floating point); every rendering of a number goes through one of these. */
  type NumberText = real -> string

  /** `${v}` in a template literal; inside an array (`Array.prototype.join`)
      undefined and null elements render as empty text. */
  function Interpolate(v: Value, fmt: NumberText): string
    decreases v
  {
    match v
    case Undefined => "undefined"
    case Null => "null"
    case Bool(b) => if b then "true" else "false"
    case Num(n) => fmt(n)
    case Str(s) => s
    case Arr(items) =>
      Join(seq(|items|, i requires 0 <= i < |items| =>
        if items[i].Undefined? || items[i].Null? then "" else Interpolate(items[i], fmt)), ",")
    case Obj(_) => "[object Object]"
  }

  /** Hexadecimal digit, lower case as `JSON.stringify` writes it. */
  function HexDigit(d: nat): char
    requires d < 16
  {
    "0123456789abcdef"[d]
  }

  /** One character of a JSON string literal (QuoteJSONString in ECMA-262 section 25.5.2.3). */
  function EscapeChar(c: char): string {
    if c == '"' then "\\\""
    else if c == '\\' then "\\\\"
    else if c as int == 0x08 then "\\b"
    else if c as int == 0x0C then "\\f"
    else if c == '\n' then "\\n"
    else if c == '\r' then "\\r"
    else if c == '\t' then "\\t"
    else if (c as int) < 0x20 then "\\u00" + [HexDigit(c as int / 16), HexDigit(c as int % 16)]
    else [c]
  }

  function Escape(s: string): string {
    if |s| == 0 then "" else EscapeChar(s[0]) + Escape(s[1..])
  }

  function Quote(s: string): string {
    "\"" + Escape(s) + "\""
  }

  /** The values that are present, in order. */
  function Somes<T>(s: seq<Option<T>>): seq<T> {
    if |s| == 0 then [] else (if s[0].Some? then [s[0].value] else []) + Somes(s[1..])
  }

  /** `JSON.stringify(v)`; `None` is the `undefined` it returns for `undefined`.
      Array elements that are `undefined` become `null`; object properties whose
      value is `undefined` are skipped. */
  function JsonText(v: Value, fmt: NumberText): (r: Option<string>)
    ensures r.None? <==> v.Undefined?
    ensures v.Obj? ==> r.Some? && |r.value| >= 2 && r.value[0] == '{' && r.value[|r.value| - 1] == '}'
    decreases v
  {
    match v
    case Undefined => None
    case Null => Some("null")
    case Bool(b) => Some(if b then "true" else "false")
    case Num(n) => Some(fmt(n))
    case Str(s) => Some(Quote(s))
    case Arr(items) =>
      Some("[" + Join(seq(|items|, i requires 0 <= i < |items| =>
        JsonText(items[i], fmt).GetOr("null")), ",") + "]")
    case Obj(fields) =>
      Some("{" + Join(Somes(seq(|fields|, i requires 0 <= i < |fields| =>
        Member(fields[i].key, JsonText(fields[i].val, fmt)))), ",") + "}")
  }

  /** `"key":value`, or nothing for an undefined value. */
  function Member(key: string, text: Option<string>): Option<string> {
    match text
    case None => None
    case Some(t) => Some(Quote(key) + ":" + t)
  }
}
