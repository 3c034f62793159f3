/** Python string behaviour the core relies on: `str.isspace`, `str.strip`,
    `str.split(sep)`, `sep.join(parts)`, ASCII lower-casing and decimal
    rendering of integers (`str(n)` and the `{n:,}` format). */
module PyStrings {

  datatype Option<T> = None | Some(value: T)

  /** A value, or the message of the exception raised instead of it. */
  datatype Outcome<T> = Ok(value: T) | Err(message: string)

  /** CPython's whitespace test (Py_UNICODE_ISSPACE), used both by
      `str.strip()` / `str.isspace()` and by the regex class `\s`. */
  predicate IsSpace(c: char) {
    || c == ' '
    || ('\t' <= c <= '\r')
    || ('\U{1C}' <= c <= '\U{1F}')
    || c == '\U{85}' || c == '\U{A0}' || c == '\U{1680}'
    || ('\U{2000}' <= c <= '\U{200A}')
    || c == '\U{2028}' || c == '\U{2029}' || c == '\U{202F}'
    || c == '\U{205F}' || c == '\U{3000}'
  }

  /** Every character is whitespace (so `s.strip()` is empty). */
  predicate IsBlank(s: string) {
    forall i :: 0 <= i < |s| ==> IsSpace(s[i])
  }

  /** `s` contains no character `c`. */
  predicate NoChar(s: string, c: char) {
    forall i :: 0 <= i < |s| ==> s[i] != c
  }

  // ---------------------------------------------------------------- strip

  /** `s.lstrip()`: the suffix left after dropping leading whitespace. */
  function TrimLeft(s: string): (r: string)
    ensures |r| <= |s| && r == s[|s| - |r|..]
    ensures IsBlank(s[..|s| - |r|])
    ensures r != [] ==> !IsSpace(r[0])
  {
    if s != [] && IsSpace(s[0]) then TrimLeft(s[1..]) else s
  }

  /** `s.rstrip()`: the prefix left after dropping trailing whitespace. */
  function TrimRight(s: string): (r: string)
    ensures |r| <= |s| && r == s[..|r|]
    ensures IsBlank(s[|r|..])
    ensures r != [] ==> !IsSpace(r[|r| - 1])
  {
    if s != [] && IsSpace(s[|s| - 1]) then TrimRight(s[..|s| - 1]) else s
  }

  /** No whitespace at either end (what `s.strip()` returns). */
  predicate IsStripped(s: string) {
    s == [] || (!IsSpace(s[0]) && !IsSpace(s[|s| - 1]))
  }

  /** `s.strip()`. */
  function Strip(s: string): string {
    TrimRight(TrimLeft(s))
  }

  /** `s.strip()` has no whitespace at either end, and it is empty exactly
      when `s` is all whitespace. */
  lemma StripSpec(s: string)
    ensures IsStripped(Strip(s))
    ensures Strip(s) == [] <==> IsBlank(s)
  {
    var l := TrimLeft(s);
    var r := TrimRight(l);
    var a := |s| - |l|;
    if r == [] {
      assert IsBlank(l[|r|..]);
      assert l == [];
      forall i | 0 <= i < |s| ensures IsSpace(s[i]) {
        assert s[..a][i] == s[i];
      }
    } else {
      assert r[0] == l[0];
    }
  }

  /** `s.startswith(prefix)`. */
  predicate StartsWith(s: string, prefix: string) {
    |prefix| <= |s| && s[..|prefix|] == prefix
  }

  // ------------------------------------------------------------------ join

  /** `sep.join(parts)`. */
  function Join(sep: string, parts: seq<string>): string
    decreases |parts|
  {
    if |parts| == 0 then ""
    else if |parts| == 1 then parts[0]
    else parts[0] + sep + Join(sep, parts[1..])
  }

  /** A join of at least one non-empty first part is non-empty. */
  lemma JoinNonEmpty(sep: string, parts: seq<string>)
    requires |parts| > 0 && parts[0] != ""
    ensures Join(sep, parts) != ""
  {
    if |parts| > 1 {
      assert Join(sep, parts)[0] == parts[0][0];
    }
  }

  /** The first part always leads the joined string. */
  lemma JoinStartsWithFirst(sep: string, parts: seq<string>)
    requires |parts| > 0
    ensures |parts[0]| <= |Join(sep, parts)|
    ensures Join(sep, parts)[..|parts[0]|] == parts[0]
  {
  }

  // ----------------------------------------------------------------- split

  /** `sep` occurs in `s` starting at index `j`. */
  predicate OccursAt(s: string, sep: string, j: int) {
    0 <= j && j + |sep| <= |s| && s[j..j + |sep|] == sep
  }

  /** `sep` occurs nowhere in `s` (`sep not in s`). */
  predicate NoOccurrence(s: string, sep: string) {
    forall j :: 0 <= j < |s| ==> !OccursAt(s, sep, j)
  }

  lemma OccursAtTail(s: string, sep: string, j: int)
    requires |s| > 0 && 0 <= j
    ensures OccursAt(s[1..], sep, j) <==> OccursAt(s, sep, j + 1)
  {
    if 0 <= j && j + |sep| <= |s| - 1 {
      assert s[1..][j..j + |sep|] == s[j + 1..j + 1 + |sep|];
    }
  }

  /** `s.find(sep)`: the leftmost occurrence of a non-empty `sep`. */
  function Find(s: string, sep: string): (r: Option<nat>)
    requires |sep| > 0
    ensures r.Some? ==> OccursAt(s, sep, r.value)
    ensures r.Some? ==> forall j :: 0 <= j < r.value ==> !OccursAt(s, sep, j)
    ensures r.None? ==> NoOccurrence(s, sep)
    decreases |s|
  {
    if |s| < |sep| then None
    else if s[..|sep|] == sep then Some(0)
    else
      var t := Find(s[1..], sep);
      assert forall j :: 0 <= j ==> (OccursAt(s[1..], sep, j) <==> OccursAt(s, sep, j + 1)) by {
        forall j | 0 <= j ensures OccursAt(s[1..], sep, j) <==> OccursAt(s, sep, j + 1) {
          OccursAtTail(s, sep, j);
        }
      }
      assert !OccursAt(s, sep, 0);
      match t
      case None =>
        assert forall j :: !OccursAt(s, sep, j) by {
          forall j ensures !OccursAt(s, sep, j) {
            if j > 0 { assert !OccursAt(s[1..], sep, j - 1); }
          }
        }
        None
      case Some(k) =>
        assert forall j :: 0 <= j < k + 1 ==> !OccursAt(s, sep, j) by {
          forall j | 0 <= j < k + 1 ensures !OccursAt(s, sep, j) {
            if j > 0 { assert !OccursAt(s[1..], sep, j - 1); }
          }
        }
        Some(k + 1)
  }

  /** `s.split(sep)`: Python's left-to-right, non-overlapping split on a
      non-empty separator (an empty separator raises in Python; every caller
      here passes a literal). */
  function Split(s: string, sep: string): seq<string>
    requires |sep| > 0
    decreases |s|
  {
    match Find(s, sep)
    case None => [s]
    case Some(i) => [s[..i]] + Split(s[i + |sep|..], sep)
  }

  /** Joining the pieces of a split with the same separator gives back the
      input, and no piece contains the separator. */
  lemma {:induction false} SplitJoin(s: string, sep: string)
    requires |sep| > 0
    ensures |Split(s, sep)| > 0
    ensures Join(sep, Split(s, sep)) == s
    ensures forall k :: 0 <= k < |Split(s, sep)| ==> NoOccurrence(Split(s, sep)[k], sep)
    decreases |s|
  {
    match Find(s, sep)
    case None =>
    case Some(i) =>
      var rest := s[i + |sep|..];
      SplitJoin(rest, sep);
      assert s == s[..i] + sep + rest;
      var parts := Split(s, sep);
      assert parts == [s[..i]] + Split(rest, sep);
      forall j ensures !OccursAt(s[..i], sep, j) {
        if OccursAt(s[..i], sep, j) {
          assert s[..i][j..j + |sep|] == s[j..j + |sep|];
          assert OccursAt(s, sep, j);
        }
      }
  }

  /** A string without the separator splits into itself alone. */
  lemma SplitNoOccurrence(s: string, sep: string)
    requires |sep| > 0 && NoOccurrence(s, sep)
    ensures Split(s, sep) == [s]
  {
  }

  /** Number of occurrences of `c` in `s`. */
  function CountChar(s: string, c: char): nat {
    if s == [] then 0 else (if s[0] == c then 1 else 0) + CountChar(s[1..], c)
  }

  lemma CountCharAppend(a: string, b: string, c: char)
    ensures CountChar(a + b, c) == CountChar(a, c) + CountChar(b, c)
  {
    if a != [] {
      assert (a + b)[0] == a[0];
      assert (a + b)[1..] == a[1..] + b;
      CountCharAppend(a[1..], b, c);
    } else {
      assert a + b == b;
    }
  }

  lemma CountCharNone(s: string, c: char)
    requires NoChar(s, c)
    ensures CountChar(s, c) == 0
  {
    if s != [] { CountCharNone(s[1..], c); }
  }

  /** Splitting on a one-character separator yields one more piece than
      there are separator characters. */
  lemma {:induction false} SplitCharCount(s: string, c: char)
    ensures |Split(s, [c])| == CountChar(s, c) + 1
    decreases |s|
  {
    match Find(s, [c])
    case None =>
      forall i | 0 <= i < |s| ensures s[i] != c {
        assert !OccursAt(s, [c], i);
        assert s[i..i + 1] == [s[i]];
      }
      CountCharNone(s, c);
    case Some(i) =>
      var rest := s[i + 1..];
      SplitCharCount(rest, c);
      forall j | 0 <= j < i ensures s[..i][j] != c {
        assert !OccursAt(s, [c], j);
        assert s[j..j + 1] == [s[j]];
      }
      CountCharNone(s[..i], c);
      assert s == s[..i] + [c] + rest;
      CountCharAppend(s[..i] + [c], rest, c);
      CountCharAppend(s[..i], [c], c);
  }

  // -------------------------------------------------------------- casing

  /** ASCII `str.lower()`; for membership in a set of ASCII lower-case words
      this agrees with Python's Unicode lower-casing. */
  function AsciiLower(s: string): (r: string)
    ensures |r| == |s|
  {
    if s == [] then [] else [LowerChar(s[0])] + AsciiLower(s[1..])
  }

  /** One character lower-cased: `A`..`Z` become `a`..`z`, every other
      character stays. */
  function LowerChar(c: char): char {
    if 'A' <= c <= 'Z' then (c as int + 32) as char else c
  }

  /** `AsciiLower` works character by character. */
  lemma {:induction false} AsciiLowerChars(s: string)
    ensures |AsciiLower(s)| == |s|
    ensures forall i :: 0 <= i < |s| ==> AsciiLower(s)[i] == LowerChar(s[i])
  {
    if s != [] {
      AsciiLowerChars(s[1..]);
      forall i | 1 <= i < |s| ensures AsciiLower(s)[i] == LowerChar(s[i]) {
        assert s[1..][i - 1] == s[i];
      }
    }
  }

  /** Two strings that agree letter by letter up to ASCII case lower-case
      to the same string. */
  lemma AsciiLowerIgnoresCase(a: string, b: string)
    requires |a| == |b|
    requires forall i :: 0 <= i < |a| ==> LowerChar(a[i]) == LowerChar(b[i])
    ensures AsciiLower(a) == AsciiLower(b)
  {
    AsciiLowerChars(a);
    AsciiLowerChars(b);
  }

  // ------------------------------------------------------------- numbers

  function DigitChar(d: nat): char
    requires d < 10
  {
    "0123456789"[d]
  }

  /** `str(n)` for a non-negative integer. */
  function NatToString(n: nat): (r: string)
    ensures |r| > 0
  {
    if n < 10 then [DigitChar(n)] else NatToString(n / 10) + [DigitChar(n % 10)]
  }

  predicate IsDigit(c: char) {
    '0' <= c <= '9'
  }

  /** The number a string of decimal digits denotes, most significant
      digit first. */
  function DecimalValue(s: string): nat
    requires forall i :: 0 <= i < |s| ==> IsDigit(s[i])
  {
    if s == [] then 0
    else
      assert IsDigit(s[|s| - 1]);
      DecimalValue(s[..|s| - 1]) * 10 + (s[|s| - 1] as int - '0' as int)
  }

  lemma DigitCharValue(d: nat)
    requires d < 10
    ensures IsDigit(DigitChar(d)) && DigitChar(d) as int - '0' as int == d
  {
    if d == 0 {} else if d == 1 {} else if d == 2 {} else if d == 3 {} else if d == 4 {}
    else if d == 5 {} else if d == 6 {} else if d == 7 {} else if d == 8 {} else {}
  }

  /** `str(n)` is a string of decimal digits, without a leading zero except
      for zero itself, that reads back as `n`. */
  lemma {:induction false} NatToStringDigits(n: nat)
    ensures forall i :: 0 <= i < |NatToString(n)| ==> IsDigit(NatToString(n)[i])
    ensures DecimalValue(NatToString(n)) == n
    ensures NatToString(n)[0] == '0' <==> n == 0
  {
    if n < 10 {
      DigitCharValue(n);
      assert NatToString(n)[..0] == [];
    } else {
      var r := NatToString(n);
      NatToStringDigits(n / 10);
      DigitCharValue(n % 10);
      assert r[..|r| - 1] == NatToString(n / 10);
    }
  }

  /** `str(i)` for any integer. */
  function IntToString(i: int): string {
    if i < 0 then "-" + NatToString(-i) else NatToString(i)
  }

  /** `f"{n:,}"`: decimal with a comma between groups of three digits. */
  function GroupedNat(n: nat): string {
    if n < 1000 then NatToString(n)
    else GroupedNat(n / 1000) + "," + PaddedGroup(n % 1000)
  }

  /** A group after the first: three digits, zero-padded. */
  function PaddedGroup(low: nat): string
    requires low < 1000
  {
    (if low < 10 then "00" else if low < 100 then "0" else "") + NatToString(low)
  }

  /** `s` without its commas. */
  function RemoveCommas(s: string): string {
    if s == [] then "" else (if s[0] == ',' then "" else [s[0]]) + RemoveCommas(s[1..])
  }

  lemma {:induction false} RemoveCommasAppend(a: string, b: string)
    ensures RemoveCommas(a + b) == RemoveCommas(a) + RemoveCommas(b)
  {
    if a != [] {
      assert (a + b)[0] == a[0] && (a + b)[1..] == a[1..] + b;
      RemoveCommasAppend(a[1..], b);
      var hd := if a[0] == ',' then "" else [a[0]];
      calc {
        RemoveCommas(a + b);
        hd + RemoveCommas(a[1..] + b);
        hd + (RemoveCommas(a[1..]) + RemoveCommas(b));
        (hd + RemoveCommas(a[1..])) + RemoveCommas(b);
      }
    } else {
      assert a + b == b;
    }
  }

  lemma {:induction false} RemoveCommasDigits(s: string)
    requires forall i :: 0 <= i < |s| ==> IsDigit(s[i])
    ensures RemoveCommas(s) == s
  {
    if s != [] {
      RemoveCommasDigits(s[1..]);
    }
  }

  lemma NatToStringLength(n: nat)
    requires n < 1000
    ensures |NatToString(n)| == if n < 10 then 1 else if n < 100 then 2 else 3
  {
    if n >= 10 {
      NatToStringLength(n / 10);
    }
  }

  /** A padded group is the three decimal digits of `low`. */
  lemma PaddedGroupDigits(low: nat)
    requires low < 1000
    ensures PaddedGroup(low) == [DigitChar(low / 100), DigitChar(low / 10 % 10), DigitChar(low % 10)]
    ensures forall i :: 0 <= i < 3 ==> IsDigit(PaddedGroup(low)[i])
  {
    if low < 10 {
      OneDigitGroup(low);
    } else if low < 100 {
      TwoDigitGroup(low);
    } else {
      ThreeDigitGroup(low);
    }
    DigitCharValue(low / 100);
    DigitCharValue(low / 10 % 10);
    DigitCharValue(low % 10);
  }

  lemma OneDigitGroup(low: nat)
    requires low < 10
    ensures PaddedGroup(low) == [DigitChar(low / 100), DigitChar(low / 10 % 10), DigitChar(low % 10)]
  {
    assert low / 100 == 0 && low / 10 % 10 == 0 && low % 10 == low;
    assert DigitChar(0) == '0';
  }

  lemma TwoDigitGroup(low: nat)
    requires 10 <= low < 100
    ensures PaddedGroup(low) == [DigitChar(low / 100), DigitChar(low / 10 % 10), DigitChar(low % 10)]
  {
    assert low / 100 == 0 && low / 10 % 10 == low / 10 && low / 10 < 10;
    assert DigitChar(0) == '0';
    assert NatToString(low) == NatToString(low / 10) + [DigitChar(low % 10)];
  }

  lemma ThreeDigitGroup(low: nat)
    requires 100 <= low < 1000
    ensures PaddedGroup(low) == [DigitChar(low / 100), DigitChar(low / 10 % 10), DigitChar(low % 10)]
  {
    assert low / 10 / 10 == low / 100 && low / 100 < 10 && low / 10 >= 10;
    assert NatToString(low) == NatToString(low / 10) + [DigitChar(low % 10)];
    assert NatToString(low / 10) == NatToString(low / 100) + [DigitChar(low / 10 % 10)];
  }

  lemma ThreeDigitSplit(n: nat)
    requires n >= 1000
    ensures n / 10 / 10 / 10 == n / 1000
    ensures n % 10 == n % 1000 % 10
    ensures n / 10 % 10 == n % 1000 / 10 % 10
    ensures n / 10 / 10 % 10 == n % 1000 / 100
  {
  }

  /** The last three digits of `str(n)` are the padded `n % 1000`. */
  lemma LastGroup(n: nat)
    requires n >= 1000
    ensures NatToString(n) == NatToString(n / 1000) + PaddedGroup(n % 1000)
  {
    var n1 := n / 10;
    var n2 := n1 / 10;
    ThreeDigitSplit(n);
    PaddedGroupDigits(n % 1000);
    assert NatToString(n) == NatToString(n1) + [DigitChar(n % 10)];
    assert NatToString(n1) == NatToString(n2) + [DigitChar(n1 % 10)];
    assert NatToString(n2) == NatToString(n / 1000) + [DigitChar(n2 % 10)];
  }

  /** Removing the commas of `{n:,}` gives `str(n)`. */
  lemma {:induction false} GroupedNatUngroups(n: nat)
    ensures RemoveCommas(GroupedNat(n)) == NatToString(n)
  {
    if n < 1000 {
      NatToStringDigits(n);
      RemoveCommasDigits(NatToString(n));
    } else {
      GroupedNatUngroups(n / 1000);
      UngroupStep(n);
    }
  }

  lemma UngroupStep(n: nat)
    requires n >= 1000
    requires RemoveCommas(GroupedNat(n / 1000)) == NatToString(n / 1000)
    ensures RemoveCommas(GroupedNat(n)) == NatToString(n)
  {
    var t := PaddedGroup(n % 1000);
    assert GroupedNat(n) == GroupedNat(n / 1000) + ("," + t);
    RemoveCommasAppend(GroupedNat(n / 1000), "," + t);
    UngroupPaddedGroup(n % 1000);
    LastGroup(n);
  }

  lemma UngroupPaddedGroup(low: nat)
    requires low < 1000
    ensures RemoveCommas("," + PaddedGroup(low)) == PaddedGroup(low)
  {
    var t := PaddedGroup(low);
    PaddedGroupDigits(low);
    RemoveCommasDigits(t);
    assert ("," + t)[0] == ',' && ("," + t)[1..] == t;
  }

  /** `{n:,}` does not start with a comma, every other character is a
      digit, and a comma stands exactly where a multiple of four characters
      remain: every group after the first has three digits. */
  lemma {:induction false} GroupedNatCommas(n: nat)
    ensures |GroupedNat(n)| > 0 && GroupedNat(n)[0] != ','
    ensures var g := GroupedNat(n);
      forall i :: 0 <= i < |g| ==> (g[i] == ',' <==> (|g| - i) % 4 == 0) && (g[i] != ',' ==> IsDigit(g[i]))
  {
    if n < 1000 {
      NatToStringDigits(n);
      NatToStringLength(n);
    } else {
      var t := PaddedGroup(n % 1000);
      var h := GroupedNat(n / 1000);
      GroupedNatCommas(n / 1000);
      PaddedGroupDigits(n % 1000);
      var g := GroupedNat(n);
      assert g == h + "," + t;
      forall i | 0 <= i < |g|
        ensures (g[i] == ',' <==> (|g| - i) % 4 == 0) && (g[i] != ',' ==> IsDigit(g[i]))
      {
        if i < |h| {
          assert g[i] == h[i] && |g| - i == |h| - i + 4;
        } else if i > |h| {
          assert g[i] == t[i - |h| - 1];
        }
      }
    }
  }
}
