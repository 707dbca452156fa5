/**
 * The fragments of JavaScript string semantics that the request handlers
 * rely on: truthiness of optional strings, `String.prototype.trim`,
 * `String.prototype.split` with a non-empty separator, `slice(0, -1)`,
 * and the decimal rendering of a non-negative integer in a template literal.
 */
module JsText {
  import opened Wrappers

  /** JavaScript truthiness of an optional string: absent, `null` and `""` are falsy. */
  predicate Truthy(s: Option<string>) {
    s.Some? && s.value != ""
  }

  /** `a || b` where `a` is an optional string and `b` a string. */
  function OrElse(a: Option<string>, b: string): string {
    if Truthy(a) then a.value else b
  }

  // ---------------------------------------------------------------------
  // trim

  /**
   * The characters `String.prototype.trim` removes: the ECMAScript
   * WhiteSpace set (tab, vertical tab, form feed, space, no-break space,
   * byte order mark and the Unicode space separators) and the
   * LineTerminator set (line feed, carriage return, line and paragraph
   * separators).
   */
  predicate IsWhitespace(c: char) {
    || c == '\t' || c == '\U{000B}' || c == '\U{000C}' || c == ' '
    || c == '\U{00A0}' || c == '\U{FEFF}' || c == '\U{1680}'
    || ('\U{2000}' <= c <= '\U{200A}')
    || c == '\U{202F}' || c == '\U{205F}' || c == '\U{3000}'
    || c == '\n' || c == '\r' || c == '\U{2028}' || c == '\U{2029}'
  }

  /** Every character of `s` is whitespace (vacuously true of `""`). */
  predicate AllWhitespace(s: string) {
    forall i :: 0 <= i < |s| ==> IsWhitespace(s[i])
  }

  /**
   * The end of the run of `cls` characters starting at `from`: every
   * character in between belongs to `cls`, the one at the end does not.
   */
  function RunEnd(s: string, cls: char -> bool, from: nat): (k: nat)
    requires from <= |s|
    decreases |s| - from
    ensures from <= k <= |s|
    ensures forall j :: from <= j < k ==> cls(s[j])
    ensures k < |s| ==> !cls(s[k])
  {
    if from < |s| && cls(s[from]) then RunEnd(s, cls, from + 1) else from
  }

  /**
   * The start of the run of `cls` characters ending at `to`: every
   * character in between belongs to `cls`, the one before the start does not.
   */
  function RunStart(s: string, cls: char -> bool, to: nat): (k: nat)
    requires to <= |s|
    ensures k <= to
    ensures forall j :: k <= j < to ==> cls(s[j])
    ensures k > 0 ==> !cls(s[k - 1])
  {
    if to > 0 && cls(s[to - 1]) then RunStart(s, cls, to - 1) else to
  }

  /** `String.prototype.trim`: drops the leading and the trailing whitespace. */
  function Trim(s: string): string {
    var e := RunStart(s, IsWhitespace, |s|);
    var b := RunEnd(s[..e], IsWhitespace, 0);
    s[b..e]
  }

  /** `s.trim()` is falsy exactly when `s` consists of whitespace only. */
  lemma TrimEmptyIffAllWhitespace(s: string)
    ensures Trim(s) == "" <==> AllWhitespace(s)
  {
    var e := RunStart(s, IsWhitespace, |s|);
    var b := RunEnd(s[..e], IsWhitespace, 0);
    if Trim(s) == "" {
      assert b == e;
      forall i | 0 <= i < |s|
        ensures IsWhitespace(s[i])
      {
        if i < e {
          assert s[i] == s[..e][i];
        }
      }
    } else {
      assert b < e;
      assert !IsWhitespace(s[..e][b]);
      assert s[b] == s[..e][b];
    }
  }

  // ---------------------------------------------------------------------
  // split

  /** `sep` occurs in `s` starting at index `i`. */
  predicate OccursAt(s: string, sep: string, i: int) {
    0 <= i && i + |sep| <= |s| && s[i..i + |sep|] == sep
  }

  /** `s.indexOf(sep, from)`: the first occurrence of `sep` at or after `from`. */
  function IndexOf(s: string, sep: string, from: nat): (r: Option<nat>)
    decreases |s| - from
    ensures r.Some? ==> from <= r.value && OccursAt(s, sep, r.value)
    ensures r.Some? ==> forall j :: from <= j < r.value ==> !OccursAt(s, sep, j)
    ensures r.None? ==> forall j :: from <= j ==> !OccursAt(s, sep, j)
  {
    if from + |sep| > |s| then None
    else if s[from..from + |sep|] == sep then Some(from)
    else IndexOf(s, sep, from + 1)
  }

  /**
   * `s.split(sep)` for a non-empty separator: the pieces between the
   * non-overlapping occurrences of `sep`, scanned from the left.
   */
  function Split(s: string, sep: string): (r: seq<string>)
    requires |sep| > 0
    decreases |s|
    ensures |r| >= 1
  {
    match IndexOf(s, sep, 0)
    case None => [s]
    case Some(i) => [s[..i]] + Split(s[i + |sep|..], sep)
  }

  /** An occurrence of a one-character separator is that character. */
  lemma OccursAtChar(s: string, sep: string, j: int)
    requires |sep| == 1
    ensures OccursAt(s, sep, j) <==> 0 <= j < |s| && s[j] == sep[0]
  {
    if 0 <= j < |s| {
      assert s[j..j + 1] == [s[j]];
      assert sep == [sep[0]];
    }
  }

  /** An occurrence of a two-character separator is a matching pair of adjacent characters. */
  lemma OccursAtPair(s: string, sep: string, j: int)
    requires |sep| == 2
    ensures OccursAt(s, sep, j) <==> 0 <= j && j + 1 < |s| && s[j] == sep[0] && s[j + 1] == sep[1]
  {
    if 0 <= j && j + 1 < |s| {
      assert s[j..j + 2] == [s[j], s[j + 1]];
      assert sep == [sep[0], sep[1]];
    }
  }

  /**
   * Splitting `a + sep + b` on a two-character separator yields exactly
   * `[a, b]` when the separator's first character is absent from `a` and
   * its second from `b`: no other occurrence can start in either part.
   */
  lemma SplitAround(a: string, sep: string, b: string)
    requires |sep| == 2
    requires sep[0] !in a && sep[1] !in b
    ensures Split(a + sep + b, sep) == [a, b]
  {
    var s := a + sep + b;
    forall j | 0 <= j < |a|
      ensures !OccursAt(s, sep, j)
    {
      assert s[j] == a[j] != sep[0];
      OccursAtPair(s, sep, j);
    }
    assert s[|a|..|a| + 2] == sep;
    assert OccursAt(s, sep, |a|);
    assert IndexOf(s, sep, 0) == Some(|a|);
    var rest := s[|a| + 2..];
    assert rest == b;
    forall j | 0 <= j
      ensures !OccursAt(b, sep, j)
    {
      OccursAtPair(b, sep, j);
      assert j + 1 < |b| ==> b[j + 1] != sep[1];
    }
    assert s[..|a|] == a;
  }

  /** `s.slice(0, -1)`: everything but the last character (`""` stays `""`). */
  function DropLast(s: string): (r: string)
    ensures |r| == if |s| == 0 then 0 else |s| - 1
    ensures r == s[..|r|]
  {
    if |s| == 0 then s else s[..|s| - 1]
  }

  // ---------------------------------------------------------------------
  // errors of the JavaScript engine

  /**
   * The message of the `TypeError` thrown when property `property` is read
   * from `undefined` or `null` (`base` names which), in V8's wording.
   */
  function ReadPropertyError(base: string, property: string): string {
    "Cannot read properties of " + base + " (reading '" + property + "')"
  }

  // ---------------------------------------------------------------------
  // numbers in template literals

  /** Value of one decimal digit. */
  function DigitValue(c: char): nat
    requires '0' <= c <= '9'
  {
    (c as int - '0' as int) as nat
  }

  /** Decimal digit for `d < 10`. */
  function Digit(d: nat): (c: char)
    requires d < 10
    ensures '0' <= c <= '9' && DigitValue(c) == d
  {
    ('0' as int + d) as char
  }

  /** Strings made only of decimal digits. */
  predicate IsDigits(s: string) {
    forall i :: 0 <= i < |s| ==> '0' <= s[i] <= '9'
  }

  /** The value of a digit string read in base ten. */
  function DecimalValue(s: string): nat
    requires IsDigits(s)
  {
    if |s| == 0 then 0 else 10 * DecimalValue(s[..|s| - 1]) + DigitValue(s[|s| - 1])
  }

  /**
   * How `${n}` renders a non-negative integer: its decimal digits, with
   * no leading zero except for `0` itself.
   */
  function NatToString(n: nat): (r: string)
    ensures |r| >= 1 && IsDigits(r)
    ensures |r| > 1 ==> r[0] != '0'
  {
    if n < 10 then [Digit(n)] else NatToString(n / 10) + [Digit(n % 10)]
  }

  /** Reading the rendering of `n` back in base ten gives `n`. */
  lemma {:induction false} NatToStringRoundTrip(n: nat)
    ensures DecimalValue(NatToString(n)) == n
  {
    var r := NatToString(n);
    if n >= 10 {
      NatToStringRoundTrip(n / 10);
      assert r[..|r| - 1] == NatToString(n / 10);
    }
  }
}
