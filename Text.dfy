/** Character-level string helpers shared by the commandlets: engine-style
    case-insensitive comparison, substring search, the first-occurrence split
    of `FString::Split`, decimal rendering of integers, and the `|`-separated
    line fields written to the test adapter's output files. */
module Text {
  import opened Wrappers

  /** ASCII lower-casing, the folding the engine applies when it compares
      strings ignoring case. */
  function Lower(c: char): char {
    if 'A' <= c <= 'Z' then (c as int + 32) as char else c
  }

  /** A string folded to lower case character by character. */
  function Fold(s: string): (r: string)
    ensures |r| == |s|
    ensures forall i :: 0 <= i < |s| ==> r[i] == Lower(s[i])
  {
    seq(|s|, i requires 0 <= i < |s| => Lower(s[i]))
  }

  /** Equality ignoring case (`ESearchCase::IgnoreCase`, `FString ==`). */
  predicate EqualsIgnoreCase(a: string, b: string) {
    Fold(a) == Fold(b)
  }

  /** `sub` sits in `s` starting at index `i`. */
  predicate OccursAt(s: string, sub: string, i: int) {
    0 <= i && i + |sub| <= |s| && s[i..i + |sub|] == sub
  }

  /** `sub` occurs somewhere in `s`. */
  predicate IsSubstring(sub: string, s: string) {
    exists i :: 0 <= i <= |s| - |sub| && OccursAt(s, sub, i)
  }

  /** `FString::Contains` with its default case-insensitive search. */
  predicate ContainsIgnoreCase(s: string, sub: string) {
    IsSubstring(Fold(sub), Fold(s))
  }

  /** The first index at or after `from` where `sub` occurs in `s`. */
  function FindFrom(s: string, sub: string, from: nat): (r: Option<nat>)
    requires from <= |s|
    ensures r.Some? ==> from <= r.value && OccursAt(s, sub, r.value)
    ensures r.Some? ==> forall j :: from <= j < r.value ==> !OccursAt(s, sub, j)
    ensures r.None? ==> forall j :: from <= j ==> !OccursAt(s, sub, j)
    decreases |s| - from
  {
    if OccursAt(s, sub, from) then Some(from)
    else if from == |s| then None
    else FindFrom(s, sub, from + 1)
  }

  /** The first index where `sub` occurs in `s`. */
  function FindFirst(s: string, sub: string): (r: Option<nat>)
    ensures r.Some? ==> OccursAt(s, sub, r.value) && forall j :: 0 <= j < r.value ==> !OccursAt(s, sub, j)
    ensures r.None? ==> !IsSubstring(sub, s)
  {
    FindFrom(s, sub, 0)
  }

  /** `FString::Split` searching from the start: the text left and right of
      the first occurrence of `sep`, or nothing when `sep` does not occur. */
  function SplitFirst(s: string, sep: string): (r: Option<(string, string)>)
    ensures r.None? <==> !IsSubstring(sep, s)
    ensures r.Some? ==> s == r.value.0 + sep + r.value.1
    ensures r.Some? && |sep| > 0 ==> !IsSubstring(sep, r.value.0 + sep[..|sep| - 1])
  {
    match FindFirst(s, sep)
    case None => None
    case Some(i) =>
      var left := s[..i];
      var right := s[i + |sep|..];
      assert s == left + sep + right by {
        assert s[i..i + |sep|] == sep;
        assert s == s[..i] + s[i..i + |sep|] + s[i + |sep|..];
      }
      NoEarlierOccurrence(s, sep, i);
      Some((left, right))
  }

  /** When `sep` first occurs at `i`, it does not occur inside the prefix
      that stops one character short of the end of that occurrence. */
  lemma NoEarlierOccurrence(s: string, sep: string, i: nat)
    requires OccursAt(s, sep, i)
    requires forall j :: 0 <= j < i ==> !OccursAt(s, sep, j)
    ensures |sep| > 0 ==> !IsSubstring(sep, s[..i] + sep[..|sep| - 1])
  {
    if |sep| == 0 {
      return;
    }
    var p := s[..i] + sep[..|sep| - 1];
    assert p == s[..i + |sep| - 1];
    if IsSubstring(sep, p) {
      var j :| 0 <= j <= |p| - |sep| && OccursAt(p, sep, j);
      assert s[j..j + |sep|] == p[j..j + |sep|];
      assert OccursAt(s, sep, j);
      assert false;
    }
  }

  /** Splitting `left + sep + right` at the first `sep` gives back `left`
      and `right` whenever `sep` does not occur in `left` extended by all
      but the last character of `sep`. */
  lemma SplitFirstJoin(left: string, sep: string, right: string)
    requires |sep| > 0
    requires !IsSubstring(sep, left + sep[..|sep| - 1])
    ensures SplitFirst(left + sep + right, sep) == Some((left, right))
  {
    var s := left + sep + right;
    assert OccursAt(s, sep, |left|) by {
      assert s[|left|..|left| + |sep|] == sep;
    }
    var i := FindFirst(s, sep).value;
    if i < |left| {
      var p := left + sep[..|sep| - 1];
      assert p == s[..|left| + |sep| - 1];
      assert p[i..i + |sep|] == s[i..i + |sep|];
      assert OccursAt(p, sep, i);
      assert false;
    }
    assert i == |left|;
  }

  // ----- Decimal rendering -----

  /** The decimal digit for `d`. */
  function Digit(d: nat): char
    requires d < 10
  {
    "0123456789"[d]
  }

  /** The decimal rendering of a natural number, without leading zeros. */
  function NatToString(n: nat): (r: string)
    ensures |r| > 0
    ensures forall i :: 0 <= i < |r| ==> '0' <= r[i] <= '9'
    decreases n
  {
    if n < 10 then [Digit(n)] else NatToString(n / 10) + [Digit(n % 10)]
  }

  /** The integer written by a decimal stream insertion: digits with a
      leading minus sign for negative values. */
  function IntToString(n: int): (r: string)
    ensures |r| > 0
    ensures forall i :: 0 <= i < |r| ==> r[i] == '-' || '0' <= r[i] <= '9'
    ensures r[0] == '-' <==> n < 0
  {
    if n < 0 then "-" + NatToString(-n) else NatToString(n)
  }

  /** The value of a digit character. */
  function DigitValue(c: char): nat
    requires '0' <= c <= '9'
  {
    c as int - '0' as int
  }

  /** The value of a non-empty run of decimal digits. */
  function ParseNat(s: string): nat
    requires forall i :: 0 <= i < |s| ==> '0' <= s[i] <= '9'
    decreases |s|
  {
    if |s| == 0 then 0 else 10 * ParseNat(s[..|s| - 1]) + DigitValue(s[|s| - 1])
  }

  /** Reading a rendered number back gives the number. */
  lemma {:induction false} NatToStringParses(n: nat)
    ensures ParseNat(NatToString(n)) == n
    decreases n
  {
    if n >= 10 {
      var s := NatToString(n);
      assert s[..|s| - 1] == NatToString(n / 10);
      NatToStringParses(n / 10);
    }
  }

  // ----- Separated fields -----

  /** Fields joined with a separator character. */
  function Join(fields: seq<string>, sep: char): string
    decreases |fields|
  {
    if |fields| == 0 then ""
    else if |fields| == 1 then fields[0]
    else fields[0] + [sep] + Join(fields[1..], sep)
  }

  /** The text up to the first `sep` and the rest after it, if any. */
  function SplitAt(s: string, sep: char): (r: (string, Option<string>))
    ensures sep !in r.0
    ensures r.1.None? ==> r.0 == s
    ensures r.1.Some? ==> s == r.0 + [sep] + r.1.value
    decreases |s|
  {
    if |s| == 0 then ("", None)
    else if s[0] == sep then ("", Some(s[1..]))
    else
      var (head, tail) := SplitAt(s[1..], sep);
      assert tail.Some? ==> s == [s[0]] + head + [sep] + tail.value;
      ([s[0]] + head, tail)
  }

  /** A line cut into its `sep`-separated fields. */
  function SplitOn(s: string, sep: char): (r: seq<string>)
    ensures |r| > 0
    decreases |s|
  {
    var (head, tail) := SplitAt(s, sep);
    if tail.None? then [head]
    else [head] + SplitOn(tail.value, sep)
  }

  /** Cutting `a + [sep] + b` at its first `sep` gives `a` and `b` back when
      `a` holds no `sep`. */
  lemma {:induction false} SplitAtJoin(a: string, sep: char, b: string)
    requires sep !in a
    ensures SplitAt(a + [sep] + b, sep) == (a, Some(b))
    decreases |a|
  {
    var s := a + [sep] + b;
    if |a| > 0 {
      assert s[1..] == a[1..] + [sep] + b;
      SplitAtJoin(a[1..], sep, b);
      assert [s[0]] + a[1..] == a;
    } else {
      assert s[1..] == b;
    }
  }

  /** A string without `sep` is its own single field. */
  lemma {:induction false} SplitAtNone(a: string, sep: char)
    requires sep !in a
    ensures SplitAt(a, sep) == (a, None)
    decreases |a|
  {
    if |a| > 0 {
      SplitAtNone(a[1..], sep);
      assert [a[0]] + a[1..] == a;
    }
  }

  /** Splitting joined fields gives the fields back when none of them holds
      the separator. */
  lemma {:induction false} SplitOnJoin(fields: seq<string>, sep: char)
    requires |fields| > 0
    requires forall i :: 0 <= i < |fields| ==> sep !in fields[i]
    ensures SplitOn(Join(fields, sep), sep) == fields
    decreases |fields|
  {
    if |fields| == 1 {
      SplitAtNone(fields[0], sep);
    } else {
      var rest := Join(fields[1..], sep);
      SplitAtJoin(fields[0], sep, rest);
      SplitOnJoin(fields[1..], sep);
      assert fields == [fields[0]] + fields[1..];
    }
  }
}
