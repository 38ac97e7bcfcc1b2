/** The parts of JavaScript's value semantics that the components rely on:
    truthiness of form values, String() conversion, the `\s` character class,
    String.prototype.trim, String.prototype.split on one character, and the
    decimal rendering of a number. */
module Js {

  datatype Option<+T> = None | Some(value: T)

  /** A browser File object; only its name is ever read. */
  datatype File = File(name: string)

  /** The values a form field can hold: the string of a text input, the boolean of a
      checkbox, a chosen File, null (no file chosen) and undefined (never set). */
  datatype Value = Text(s: string) | Flag(b: bool) | Upload(file: File) | Null | Undefined

  /** JavaScript truthiness: "", false, null and undefined are falsy; a File object is truthy. */
  predicate Truthy(v: Value) {
    match v
    case Text(s) => s != ""
    case Flag(b) => b
    case Upload(_) => true
    case Null => false
    case Undefined => false
  }

  /** String(v): what RegExp.prototype.test sees when it is handed a non-string. */
  function ToJsString(v: Value): (r: string)
    ensures v.Text? ==> r == v.s
  {
    match v
    case Text(s) => s
    case Flag(b) => if b then "true" else "false"
    case Upload(_) => "[object File]"
    case Null => "null"
    case Undefined => "undefined"
  }

  predicate IsDigit(c: char) {
    '0' <= c <= '9'
  }

  /** The ECMAScript WhiteSpace and LineTerminator code points: the class `\s`
      of regular expressions and the characters trim() removes. */
  predicate IsSpace(c: char) {
    || ('\t' <= c <= '\r')
    || c == ' '
    || c == '\U{A0}'
    || c == '\U{1680}'
    || ('\U{2000}' <= c <= '\U{200A}')
    || c == '\U{2028}'
    || c == '\U{2029}'
    || c == '\U{202F}'
    || c == '\U{205F}'
    || c == '\U{3000}'
    || c == '\U{FEFF}'
  }

  predicate IsBlank(s: string) {
    forall i | 0 <= i < |s| :: IsSpace(s[i])
  }

  /** Drops the leading white space of s. */
  function TrimStart(s: string): (r: string)
    ensures r == "" <==> IsBlank(s)
    ensures r != "" ==> !IsSpace(r[0])
  {
    if |s| > 0 && IsSpace(s[0]) then TrimStart(s[1..]) else s
  }

  /** Drops the trailing white space of s; a string that starts with a
      non-space character keeps at least that character. */
  function TrimEnd(s: string): (r: string)
    ensures |s| > 0 && !IsSpace(s[0]) ==> r != "" && r[0] == s[0]
    ensures IsBlank(s) ==> r == ""
  {
    if |s| > 0 && IsSpace(s[|s| - 1]) then TrimEnd(s[..|s| - 1]) else s
  }

  /** String.prototype.trim: empty exactly when s holds nothing but white space. */
  function Trim(s: string): (r: string)
    ensures r == "" <==> IsBlank(s)
  {
    TrimEnd(TrimStart(s))
  }

  /** The inverse of Split: the parts glued back together with the separator. */
  function Join(parts: seq<string>, sep: char): string
    requires |parts| >= 1
  {
    if |parts| == 1 then parts[0] else parts[0] + [sep] + Join(parts[1..], sep)
  }

  /** String.prototype.split with a one-character separator: the maximal
      separator-free pieces, in order, so that joining them gives back s. */
  function Split(s: string, sep: char): (parts: seq<string>)
    ensures |parts| >= 1
    ensures forall i | 0 <= i < |parts| :: sep !in parts[i]
    ensures Join(parts, sep) == s
  {
    if |s| == 0 then [""]
    else
      var rest := Split(s[1..], sep);
      if s[0] == sep then
        assert Join([""] + rest, sep) == [sep] + Join(rest, sep) by {
          assert ([""] + rest)[1..] == rest;
        }
        [""] + rest
      else
        var parts := [[s[0]] + rest[0]] + rest[1..];
        assert Join(parts, sep) == [s[0]] + Join(rest, sep) by {
          if |rest| > 1 {
            assert parts[1..] == rest[1..];
          }
        }
        parts
  }

  /** The first piece of Split(t) is everything before the first separator. */
  lemma {:induction false} SplitHead(t: string, sep: char, k: nat)
    requires k <= |t|
    requires forall m | 0 <= m < k :: t[m] != sep
    requires k == |t| || t[k] == sep
    ensures Split(t, sep)[0] == t[..k]
  {
    if k > 0 {
      SplitHead(t[1..], sep, k - 1);
      assert t[..k] == [t[0]] + t[1..][..k - 1];
    }
  }

  /** When t contains the separator at i (its first occurrence) and the next one
      is at j (or there is none and j is the end), the first two pieces of
      Split(t) are t[..i] and t[i+1..j]. */
  lemma {:induction false} SplitFirstTwo(t: string, sep: char, i: nat, j: nat)
    requires i < j <= |t|
    requires t[i] == sep
    requires forall m | 0 <= m < i :: t[m] != sep
    requires forall m | i < m < j :: t[m] != sep
    requires j == |t| || t[j] == sep
    ensures |Split(t, sep)| >= 2
    ensures Split(t, sep)[0] == t[..i] && Split(t, sep)[1] == t[i + 1..j]
  {
    SplitHead(t, sep, i);
    SplitDrop(t, sep, i);
    var v := t[i + 1..];
    forall m | 0 <= m < j - i - 1 ensures v[m] != sep {
      assert v[m] == t[i + 1 + m];
    }
    SplitHead(v, sep, j - i - 1);
    assert Split(t, sep)[1] == Split(v, sep)[0] == v[..j - i - 1];
    assert v[..j - i - 1] == t[i + 1..j];
  }

  /** Past the first separator, the pieces of Split(t) are the pieces of the rest of t. */
  lemma {:induction false} SplitDrop(t: string, sep: char, i: nat)
    requires i < |t| && t[i] == sep
    requires forall m | 0 <= m < i :: t[m] != sep
    ensures |Split(t, sep)| >= 2 && Split(t, sep)[1..] == Split(t[i + 1..], sep)
  {
    var u := t[1..];
    SplitCons(t, sep);
    if i > 0 {
      SplitDrop(u, sep, i - 1);
      assert u[i..] == t[i + 1..];
    }
  }

  /** One unfolding of Split: the first character either closes an empty first piece
      or starts the first piece of the rest. */
  lemma SplitCons(t: string, sep: char)
    requires |t| > 0
    ensures var rest := Split(t[1..], sep);
      Split(t, sep) == if t[0] == sep then [""] + rest else [[t[0]] + rest[0]] + rest[1..]
  {
  }

  function DigitChar(d: nat): char
    requires d < 10
  {
    ['0', '1', '2', '3', '4', '5', '6', '7', '8', '9'][d]
  }

  /** The number a string of decimal digits denotes, most significant digit first. */
  function DigitsValue(s: string): int {
    if s == "" then 0 else 10 * DigitsValue(s[..|s| - 1]) + (s[|s| - 1] as int - '0' as int)
  }

  /** Number.prototype.toString for a non-negative integer: decimal digits that denote
      it, with no leading zero unless the number is 0. */
  function NatToString(n: nat): (s: string)
    ensures 1 <= |s|
    ensures forall i | 0 <= i < |s| :: IsDigit(s[i])
    ensures DigitsValue(s) == n
    ensures s[0] == '0' <==> n == 0
  {
    if n < 10 then [DigitChar(n)] else NatToString(n / 10) + [DigitChar(n % 10)]
  }

  function Pow10(k: nat): (p: nat)
    ensures p >= 1
  {
    if k == 0 then 1 else 10 * Pow10(k - 1)
  }

  /** A number of at least 10^k is written with more than k digits. */
  lemma {:induction false} NatToStringLength(n: nat, k: nat)
    requires n >= Pow10(k)
    ensures |NatToString(n)| > k
  {
    if k > 0 {
      NatToStringLength(n / 10, k - 1);
    }
  }

  /** String.prototype.slice(-k): the last k characters, or all of s when it is shorter. */
  function SliceLast(s: string, k: nat): (r: string)
    ensures |r| == if |s| >= k then k else |s|
    ensures r == s[|s| - |r|..]
  {
    if |s| >= k then s[|s| - k..] else s
  }
}
