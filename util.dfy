/** Small value helpers shared by every part of the webspaced model: optional and
    fallible results, 16-bit truncation, decimal formatting and parsing (Go's `%v`,
    `strconv.Itoa`, `strconv.ParseUint`), string joining, ASCII lower-casing and the
    swap-with-last removal both generations use on slices. */
module Util {

  datatype Option<T> = None | Some(value: T)

  datatype Result<T, E> = Ok(value: T) | Err(error: E)

  type byte = x: int | 0 <= x < 256

  /** Go's `uint16`. */
  type uint16 = x: int | 0 <= x < 65536

  /** Go's `uint16` conversion: keep the low 16 bits. */
  function U16(x: int): (r: uint16)
    ensures 0 <= x < 65536 ==> r == x
  {
    x % 65536
  }

  // ---------------------------------------------------------------------------
  // Decimal digits

  predicate IsDigit(c: char) {
    '0' <= c <= '9'
  }

  predicate AllDigits(s: string) {
    forall i :: 0 <= i < |s| ==> IsDigit(s[i])
  }

  function DigitChar(d: nat): (c: char)
    requires d < 10
    ensures IsDigit(c) && c as int - '0' as int == d
  {
    ('0' as int + d) as char
  }

  /** The decimal form of `n` without leading zeros, as Go's `%v` prints a natural. */
  function DecimalString(n: nat): (s: string)
    ensures |s| >= 1 && AllDigits(s)
    ensures n < 10 <==> |s| == 1
    decreases n
  {
    if n < 10 then [DigitChar(n)] else DecimalString(n / 10) + [DigitChar(n % 10)]
  }

  /** The value of a string of decimal digits, read left to right. */
  function DigitsValue(s: string): nat
    requires AllDigits(s)
  {
    if s == [] then 0 else 10 * DigitsValue(s[..|s| - 1]) + (s[|s| - 1] as int - '0' as int)
  }

  lemma {:induction false} DecimalRoundTrip(n: nat)
    ensures DigitsValue(DecimalString(n)) == n
    decreases n
  {
    var s := DecimalString(n);
    if n >= 10 {
      assert s[..|s| - 1] == DecimalString(n / 10);
      DecimalRoundTrip(n / 10);
    }
  }

  /** Distinct naturals print differently, so keys that embed an index never collide. */
  lemma DecimalInjective(a: nat, b: nat)
    requires DecimalString(a) == DecimalString(b)
    ensures a == b
  {
    DecimalRoundTrip(a);
    DecimalRoundTrip(b);
  }

  /** Go's `%v` / `strconv.Itoa` on a signed integer. */
  function IntString(i: int): (s: string)
    ensures |s| >= 1
    ensures i >= 0 ==> s == DecimalString(i)
  {
    if i < 0 then "-" + DecimalString(-i) else DecimalString(i)
  }

  // ---------------------------------------------------------------------------
  // Strings

  /** Go's `strings.Join`. */
  function Join(parts: seq<string>, sep: string): string
  {
    if |parts| == 0 then ""
    else if |parts| == 1 then parts[0]
    else Join(parts[..|parts| - 1], sep) + sep + parts[|parts| - 1]
  }

  lemma {:induction false} JoinConcat(a: seq<string>, b: seq<string>, sep: string)
    requires |a| > 0 && |b| > 0
    ensures Join(a + b, sep) == Join(a, sep) + sep + Join(b, sep)
    decreases |b|
  {
    if |b| == 1 {
      assert (a + b)[..|a + b| - 1] == a;
    } else {
      var b' := b[..|b| - 1];
      assert (a + b)[..|a + b| - 1] == a + b';
      JoinConcat(a, b', sep);
    }
  }

  /** RE2's `\s`: tab, newline, form feed, carriage return and space. */
  predicate IsSpace(c: char) {
    c == '\t' || c == '\n' || c == '\U{000C}' || c == '\r' || c == ' '
  }

  predicate NoSpace(s: string) {
    forall i :: 0 <= i < |s| ==> !IsSpace(s[i])
  }

  function LowerChar(c: char): char {
    if 'A' <= c <= 'Z' then (c as int + 32) as char else c
  }

  /** Lower-casing restricted to ASCII letters. */
  function LowerAscii(s: string): (r: string)
    ensures |r| == |s|
    ensures forall i :: 0 <= i < |s| ==> r[i] == LowerChar(s[i])
  {
    seq(|s|, i requires 0 <= i < |s| => LowerChar(s[i]))
  }

  /** Go's `unicode.ToLower` as far as a comparison with ASCII text can tell. Only
      the ASCII capitals, the capital I with dot above (U+0130, lowered to 'i') and
      the Kelvin sign (U+212A, lowered to 'k') become ASCII; every other rune is
      kept, and compares with ASCII text as its Go lower-case form does. */
  function LowerRuneGo(c: char): char {
    if c == '\U{0130}' then 'i'
    else if c == '\U{212A}' then 'k'
    else LowerChar(c)
  }

  /** `strings.ToLower`, rune by rune, as seen by a comparison with ASCII text. */
  function LowerGo(s: string): (r: string)
    ensures |r| == |s|
    ensures forall i :: 0 <= i < |s| ==> r[i] == LowerRuneGo(s[i])
  {
    seq(|s|, i requires 0 <= i < |s| => LowerRuneGo(s[i]))
  }

  // ---------------------------------------------------------------------------
  // Sequences

  predicate Sorted(s: seq<int>) {
    forall i, j :: 0 <= i < j < |s| ==> s[i] <= s[j]
  }

  function InsertSorted(x: uint16, s: seq<uint16>): (r: seq<uint16>)
    requires Sorted(s)
    ensures Sorted(r)
    ensures |r| == |s| + 1 && (r[0] == x || (s != [] && r[0] == s[0]))
  {
    if s == [] then [x]
    else if x <= s[0] then
      assert forall j :: 0 <= j < |s| ==> x <= s[j] by {
        assert forall j :: 0 <= j < |s| ==> s[0] <= s[j];
      }
      SortedCons(x, s);
      [x] + s
    else
      var rest := InsertSorted(x, s[1..]);
      assert s == [s[0]] + s[1..];
      assert forall k :: 0 <= k < |rest| ==> s[0] <= rest[k] by {
        assert s[0] <= rest[0];
      }
      SortedCons(s[0], rest);
      [s[0]] + rest
  }

  /** A sorted sequence stays sorted behind an element no larger than any of it. */
  lemma SortedCons(x: int, s: seq<int>)
    requires Sorted(s) && forall k :: 0 <= k < |s| ==> x <= s[k]
    ensures Sorted([x] + s)
  {
    var r := [x] + s;
    forall i, j | 0 <= i < j < |r|
      ensures r[i] <= r[j]
    {
      assert r[j] == s[j - 1];
      if i > 0 {
        assert r[i] == s[i - 1];
      }
    }
  }

  /** Inserting adds exactly the one element. */
  lemma {:induction false} InsertSortedPermutes(x: uint16, s: seq<uint16>)
    requires Sorted(s)
    ensures multiset(InsertSorted(x, s)) == multiset(s) + multiset{x}
  {
    if s != [] && x > s[0] {
      InsertSortedPermutes(x, s[1..]);
      assert s == [s[0]] + s[1..];
    }
  }

  /** Insertion sort: the ascending arrangement of `s`. */
  function SortAscending(s: seq<uint16>): (r: seq<uint16>)
    ensures Sorted(r) && multiset(r) == multiset(s)
  {
    if s == [] then []
    else
      assert s == [s[0]] + s[1..];
      InsertSortedPermutes(s[0], SortAscending(s[1..]));
      InsertSorted(s[0], SortAscending(s[1..]))
  }

  /** A multiset has one ascending arrangement. */
  lemma {:induction false} SortedUnique(a: seq<uint16>, b: seq<uint16>)
    requires Sorted(a) && Sorted(b) && multiset(a) == multiset(b)
    ensures a == b
    decreases |a|
  {
    if a == [] {
      assert |multiset(b)| == 0;
    } else {
      assert a[0] in multiset(b);
      SortedTail(a);
      SortedTail(b);
      SortedHeads(a, b);
      MultisetTail(a);
      MultisetTail(b);
      SortedUnique(a[1..], b[1..]);
      assert a == [a[0]] + a[1..] && b == [b[0]] + b[1..];
    }
  }

  /** Two ascending arrangements of one multiset start alike. */
  lemma SortedHeads(a: seq<uint16>, b: seq<uint16>)
    requires a != [] && b != [] && multiset(a) == multiset(b)
    requires forall k :: 0 <= k < |a| ==> a[0] <= a[k]
    requires forall k :: 0 <= k < |b| ==> b[0] <= b[k]
    ensures a[0] == b[0]
  {
    assert a[0] in multiset(b) && b[0] in multiset(a);
  }

  /** The head of a sorted sequence is its least element, and its tail is sorted. */
  lemma SortedTail(a: seq<uint16>)
    requires Sorted(a) && a != []
    ensures Sorted(a[1..]) && forall k :: 0 <= k < |a| ==> a[0] <= a[k]
  {
    forall i, j | 0 <= i < j < |a[1..]| ensures a[1..][i] <= a[1..][j] {
      assert a[1..][i] == a[i + 1] && a[1..][j] == a[j + 1];
    }
  }

  /** Dropping the head removes one copy of it. */
  lemma MultisetTail(a: seq<uint16>)
    requires a != []
    ensures multiset(a[1..]) == multiset(a) - multiset{a[0]}
  {
    assert a == [a[0]] + a[1..];
  }

  /** Index of the first element equal to `x`. */
  function FirstIndex<T(==)>(s: seq<T>, x: T): (i: nat)
    requires x in s
    ensures i < |s| && s[i] == x && x !in s[..i]
    ensures forall k :: 0 <= k < i ==> s[k] != x
  {
    if s[0] == x then 0 else 1 + FirstIndex(s[1..], x)
  }

  /** Go's "overwrite element `i` with the last one, then truncate" removal. */
  function SwapRemove<T>(s: seq<T>, i: nat): (r: seq<T>)
    requires i < |s|
  {
    s[i := s[|s| - 1]][..|s| - 1]
  }

  lemma {:induction false} SwapRemoveContents<T>(s: seq<T>, i: nat)
    requires i < |s|
    ensures |SwapRemove(s, i)| == |s| - 1
    ensures multiset(SwapRemove(s, i)) == multiset(s) - multiset{s[i]}
    ensures forall k :: 0 <= k < |s| - 1 && k != i ==> SwapRemove(s, i)[k] == s[k]
  {
    var last := |s| - 1;
    var r := SwapRemove(s, i);
    if i == last {
      assert s == r + [s[i]];
    } else {
      assert s == s[..last] + [s[last]];
      assert r == s[..last][i := s[last]];
    }
  }
}
