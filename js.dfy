/** JavaScript values and the string operations that the tracker's views use:
    truthiness, decimal rendering of integers, ASCII case mapping, `includes`,
    `split` on one character, `join` and `trim`. */
module Js {

  datatype Option<T> = None | Some(value: T)

  /** A JavaScript value as the modelled code meets it. Objects, arrays and NaN
      are not values of this type; the records that carry them are datatypes of
      their own. */
  datatype Value = Undefined | Null | Bool(b: bool) | Num(n: int) | Str(s: string)

  /** `if (v)` in JavaScript. */
  predicate Truthy(v: Value)
  {
    match v
    case Undefined => false
    case Null => false
    case Bool(b) => b
    case Num(n) => n != 0
    case Str(s) => s != ""
  }

  /** A list response: either the array itself or an object that may carry
      the array under a field such as `bugs` or `projects`. */
  datatype Payload<T> = List(items: seq<T>) | Envelope(field: Option<seq<T>>)

  /** `data.bugs || data`: the field when present (an array is truthy even
      when empty), otherwise the response itself, which is a list only when
      the response was one. None stands for the envelope object kept in place
      of a list. */
  function Unwrap<T>(p: Payload<T>): (r: Option<seq<T>>)
    ensures p.List? ==> r == Some(p.items)
    ensures p.Envelope? && p.field.Some? ==> r == p.field
    ensures r.None? <==> p == Envelope(None)
  {
    match p
    case List(items) => Some(items)
    case Envelope(field) => field
  }

  // ---------------------------------------------------------------------------
  // Decimal rendering, as `${n}` does for an integer-valued number.

  predicate IsDigit(c: char) { '0' <= c <= '9' }

  function DigitChar(d: nat): (c: char)
    requires d < 10
    ensures IsDigit(c) && c as int - '0' as int == d
  {
    (d + '0' as int) as char
  }

  function DigitValue(c: char): nat
    requires IsDigit(c)
  {
    c as int - '0' as int
  }

  function NatToString(n: nat): (r: string)
    decreases n
  {
    if n < 10 then [DigitChar(n)] else NatToString(n / 10) + [DigitChar(n % 10)]
  }

  function IntToString(n: int): (r: string)
  {
    if n < 0 then "-" + NatToString(-n) else NatToString(n)
  }

  /** `${v}` in a template literal. */
  function ToText(v: Value): (r: string)
    ensures v.Str? ==> r == v.s
  {
    match v
    case Undefined => "undefined"
    case Null => "null"
    case Bool(b) => if b then "true" else "false"
    case Num(n) => IntToString(n)
    case Str(s) => s
  }

  /** Reads a string of decimal digits back; the reference against which the
      rendering is checked. */
  function ParseDigits(s: string): nat
    requires forall i :: 0 <= i < |s| ==> IsDigit(s[i])
  {
    if s == [] then 0 else ParseDigits(s[..|s| - 1]) * 10 + DigitValue(s[|s| - 1])
  }

  /** Rendering a natural number gives a non-empty string of digits with no
      leading zero, which reads back as the same number. */
  lemma {:induction false} NatToStringRoundTrip(n: nat)
    ensures var r := NatToString(n);
      && r != []
      && (forall i :: 0 <= i < |r| ==> IsDigit(r[i]))
      && (|r| > 1 ==> r[0] != '0')
      && ParseDigits(r) == n
  {
    if n >= 10 {
      NatToStringRoundTrip(n / 10);
      var p := NatToString(n / 10);
      var r := p + [DigitChar(n % 10)];
      assert r[..|r| - 1] == p;
    }
  }

  // ---------------------------------------------------------------------------
  // Case mapping. Only the ASCII letters are mapped; see README.

  function UpperChar(c: char): char
  {
    if 'a' <= c <= 'z' then (c as int - 32) as char else c
  }

  function LowerChar(c: char): char
  {
    if 'A' <= c <= 'Z' then (c as int + 32) as char else c
  }

  /** `s.toUpperCase()` */
  function Upper(s: string): (r: string)
    ensures |r| == |s|
    ensures forall i :: 0 <= i < |s| ==> r[i] == UpperChar(s[i])
  {
    if s == [] then [] else [UpperChar(s[0])] + Upper(s[1..])
  }

  /** `s.toLowerCase()` */
  function Lower(s: string): (r: string)
    ensures |r| == |s|
    ensures forall i :: 0 <= i < |s| ==> r[i] == LowerChar(s[i])
  {
    if s == [] then [] else [LowerChar(s[0])] + Lower(s[1..])
  }

  /** Lower-casing twice is lower-casing once. */
  lemma LowerTwice(s: string)
    ensures Lower(Lower(s)) == Lower(s)
  {
    assert forall i :: 0 <= i < |s| ==> Lower(Lower(s))[i] == Lower(s)[i];
  }

  /** A reference field that holds an id or, once populated, the referenced
      object: missing, null, a raw id, or an object with its `_id`. */
  datatype Ref = Missing | Null | Id(id: string) | Object(objectId: string)

  /** `String(r?._id || r)` */
  function RefKey(r: Ref): (k: string)
    ensures r.Id? ==> k == r.id
    ensures r.Object? && r.objectId != "" ==> k == r.objectId
  {
    match r
    case Missing => "undefined"
    case Null => "null"
    case Id(id) => id
    case Object(id) => if id != "" then id else "[object Object]"
  }

  // ---------------------------------------------------------------------------
  // `a < b` on strings: lexicographic order of the characters.

  predicate StrLess(a: string, b: string)
  {
    if a == [] then b != []
    else if b == [] then false
    else if a[0] != b[0] then a[0] < b[0]
    else StrLess(a[1..], b[1..])
  }

  /** Exactly one of `a < b`, `a == b` and `b < a` holds. */
  lemma {:induction false} StrLessTrichotomy(a: string, b: string)
    ensures StrLess(a, b) ==> !StrLess(b, a) && a != b
    ensures a != b ==> StrLess(a, b) || StrLess(b, a)
  {
    if a != [] && b != [] && a[0] == b[0] {
      StrLessTrichotomy(a[1..], b[1..]);
      if a != b {
        assert a == [a[0]] + a[1..] && b == [b[0]] + b[1..];
      }
    }
  }

  lemma {:induction false} StrLessTransitive(a: string, b: string, c: string)
    requires StrLess(a, b) && StrLess(b, c)
    ensures StrLess(a, c)
  {
    if a != [] && a[0] == b[0] && b[0] == c[0] {
      StrLessTransitive(a[1..], b[1..], c[1..]);
    }
  }

  // ---------------------------------------------------------------------------
  // `s.includes(sub)`

  predicate IsPrefix(p: string, s: string)
  {
    |p| <= |s| && s[..|p|] == p
  }

  predicate Includes(s: string, sub: string)
    decreases |s|
  {
    IsPrefix(sub, s) || (s != [] && Includes(s[1..], sub))
  }

  /** `sub` occurs in `s` starting at index `i`. */
  predicate OccursAt(s: string, sub: string, i: int)
  {
    0 <= i && i + |sub| <= |s| && s[i..i + |sub|] == sub
  }

  /** `includes` holds exactly when the substring occurs at some index. */
  lemma IncludesIffOccurs(s: string, sub: string)
    ensures Includes(s, sub) <==> exists i :: OccursAt(s, sub, i)
  {
    if Includes(s, sub) {
      var i := IncludesWitness(s, sub);
    }
    forall i | OccursAt(s, sub, i) ensures Includes(s, sub) {
      OccursIncludes(s, sub, i);
    }
  }

  lemma {:induction false} IncludesWitness(s: string, sub: string) returns (i: int)
    requires Includes(s, sub)
    ensures OccursAt(s, sub, i)
    decreases |s|
  {
    if IsPrefix(sub, s) {
      i := 0;
    } else {
      var j := IncludesWitness(s[1..], sub);
      assert s[1..][j..j + |sub|] == s[j + 1..j + 1 + |sub|];
      i := j + 1;
    }
  }

  lemma {:induction false} OccursIncludes(s: string, sub: string, i: int)
    requires OccursAt(s, sub, i)
    ensures Includes(s, sub)
    decreases i
  {
    if i > 0 {
      assert s[1..][i - 1..i - 1 + |sub|] == s[i..i + |sub|];
      OccursIncludes(s[1..], sub, i - 1);
    }
  }

  /** The empty string is included in every string. */
  lemma IncludesEmpty(s: string)
    ensures Includes(s, "")
  {
    assert IsPrefix("", s);
  }

  // ---------------------------------------------------------------------------
  // `s.split(sep)` for a one-character separator, and `parts.join(sep)`.

  function Split(s: string, sep: char): (r: seq<string>)
    ensures |r| >= 1
    ensures forall i :: 0 <= i < |r| ==> sep !in r[i]
  {
    if s == [] then [""]
    else if s[0] == sep then [""] + Split(s[1..], sep)
    else var rest := Split(s[1..], sep); [[s[0]] + rest[0]] + rest[1..]
  }

  function Join(parts: seq<string>, sep: string): string
  {
    if |parts| == 0 then ""
    else if |parts| == 1 then parts[0]
    else parts[0] + sep + Join(parts[1..], sep)
  }

  /** Splitting and re-joining on the same character gives the string back. */
  lemma {:induction false} JoinSplit(s: string, sep: char)
    ensures Join(Split(s, sep), [sep]) == s
  {
    if s == [] {
    } else if s[0] == sep {
      JoinSplit(s[1..], sep);
      var rest := Split(s[1..], sep);
      assert Split(s, sep) == [""] + rest;
      assert ([""] + rest)[1..] == rest;
      assert s == [sep] + s[1..];
    } else {
      JoinSplit(s[1..], sep);
      var rest := Split(s[1..], sep);
      var r := [[s[0]] + rest[0]] + rest[1..];
      assert Split(s, sep) == r;
      if |rest| == 1 {
        assert s == [s[0]] + s[1..];
      } else {
        assert r[1..] == rest[1..];
        assert Join(rest, [sep]) == rest[0] + [sep] + Join(rest[1..], [sep]);
        assert s == [s[0]] + s[1..];
      }
    }
  }

  /** Joining pieces that do not contain the separator and splitting again
      gives the pieces back. */
  lemma {:induction false} SplitJoin(parts: seq<string>, sep: char)
    requires |parts| >= 1
    requires forall i :: 0 <= i < |parts| ==> sep !in parts[i]
    ensures Split(Join(parts, [sep]), sep) == parts
    decreases |parts|
  {
    if |parts| == 1 {
      SplitNoSep(parts[0], sep);
    } else {
      SplitJoin(parts[1..], sep);
      SplitAppend(parts[0], Join(parts[1..], [sep]), sep);
      assert [parts[0]] + parts[1..] == parts;
    }
  }

  /** A string without the separator splits into itself. */
  lemma {:induction false} SplitNoSep(s: string, sep: char)
    requires sep !in s
    ensures Split(s, sep) == [s]
  {
    if s != [] {
      assert sep !in s[1..] by {
        forall i | 0 <= i < |s[1..]| ensures s[1..][i] != sep { assert s[1..][i] == s[i + 1]; }
      }
      SplitNoSep(s[1..], sep);
      assert [s[0]] + s[1..] == s;
    }
  }

  /** Splitting `a + sep + b` where `a` has no separator puts `a` first. */
  lemma {:induction false} SplitAppend(a: string, b: string, sep: char)
    requires sep !in a
    ensures Split(a + [sep] + b, sep) == [a] + Split(b, sep)
  {
    if a == [] {
      assert a + [sep] + b == [sep] + b;
      assert ([sep] + b)[1..] == b;
    } else {
      assert sep !in a[1..] by {
        forall i | 0 <= i < |a[1..]| ensures a[1..][i] != sep { assert a[1..][i] == a[i + 1]; }
      }
      SplitAppend(a[1..], b, sep);
      var s := a + [sep] + b;
      assert s[0] == a[0];
      assert s[1..] == a[1..] + [sep] + b;
      assert [a[0]] + a[1..] == a;
    }
  }

  /** `v || fallback` for a field that is a string or missing. */
  function Or(v: Option<string>, fallback: string): (r: string)
    ensures v.Some? && v.value != "" ==> r == v.value
    ensures v.None? || v.value == "" ==> r == fallback
  {
    if v.Some? && v.value != "" then v.value else fallback
  }

  // ---------------------------------------------------------------------------
  // `s.trim()`: strips the ECMAScript WhiteSpace and LineTerminator characters.

  predicate IsSpace(c: char)
  {
    || c == '\U{0009}' || c == '\U{000A}' || c == '\U{000B}' || c == '\U{000C}'
    || c == '\U{000D}' || c == '\U{0020}' || c == '\U{00A0}' || c == '\U{1680}'
    || ('\U{2000}' <= c <= '\U{200A}') || c == '\U{2028}' || c == '\U{2029}'
    || c == '\U{202F}' || c == '\U{205F}' || c == '\U{3000}' || c == '\U{FEFF}'
  }

  function TrimStart(s: string): (r: string)
    ensures r == [] || !IsSpace(r[0])
  {
    if s != [] && IsSpace(s[0]) then TrimStart(s[1..]) else s
  }

  function TrimEnd(s: string): (r: string)
    ensures r == [] || !IsSpace(r[|r| - 1])
  {
    if s != [] && IsSpace(s[|s| - 1]) then TrimEnd(s[..|s| - 1]) else s
  }

  function Trim(s: string): (r: string)
  {
    TrimEnd(TrimStart(s))
  }

  /** `s` has no white space at either end, so `trim` leaves it alone. */
  predicate Trimmed(s: string)
  {
    s == [] || (!IsSpace(s[0]) && !IsSpace(s[|s| - 1]))
  }

  /** `trim` strips a single leading blank from a trimmed string and nothing else,
      and its result has no white space at either end. */
  lemma TrimBlankPrefixed(s: string)
    requires Trimmed(s)
    ensures Trim(" " + s) == s && Trim(s) == s
  {
    assert (" " + s)[1..] == s;
    assert TrimStart(" " + s) == TrimStart(s) == s;
    assert TrimEnd(s) == s;
  }

  /** What `trim` returns never has white space at either end. */
  lemma TrimIsTrimmed(s: string)
    ensures Trimmed(Trim(s))
  {
    var t := TrimStart(s);
    TrimEndKeepsStart(t);
  }

  lemma {:induction false} TrimEndKeepsStart(t: string)
    requires t == [] || !IsSpace(t[0])
    ensures TrimEnd(t) == [] || !IsSpace(TrimEnd(t)[0])
  {
    if t != [] && IsSpace(t[|t| - 1]) {
      TrimEndKeepsStart(t[..|t| - 1]);
    }
  }
}
