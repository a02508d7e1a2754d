// Text helpers shared by every module: the marker prefixes the tools use to
// signal failure inside a successful result, decimal and thousands-separated
// number rendering (`str(n)`, `f"{n:,}"`), and the `str.strip` / `str.split`
// pair the example client uses to cut a process's output into lines.
module Text {

  /** ❌, the prefix of every hard failure message. */
  const Cross: string := "\U{274C}"
  /** ⚠️ (warning sign plus variation selector), the prefix of a soft failure. */
  const Warning: string := "\U{26A0}\U{FE0F}"
  /** ✅ */
  const CheckMark: string := "\U{2705}"
  /** 📁 */
  const Folder: string := "\U{1F4C1}"
  /** 🎼 */
  const ScoreSign: string := "\U{1F3BC}"
  /** 🎵 */
  const MusicNote: string := "\U{1F3B5}"

  /** `s.startswith(prefix)` */
  predicate StartsWith(s: string, prefix: string) {
    |prefix| <= |s| && s[..|prefix|] == prefix
  }

  /** The test the tools apply to a sub-result: `s.startswith("❌") or s.startswith("⚠️")`. */
  predicate IsFailureText(s: string) {
    StartsWith(s, Cross) || StartsWith(s, Warning)
  }

  lemma StartsWithConcat(a: string, b: string)
    ensures StartsWith(a + b, a)
  {
    assert (a + b)[..|a|] == a;
  }

  lemma EndsWithConcat(a: string, b: string)
    ensures |b| <= |a + b| && (a + b)[|a + b| - |b|..] == b
  {
    assert (a + b)[|a|..] == b;
  }

  lemma StartsWithExtend(s: string, prefix: string, t: string)
    requires StartsWith(s, prefix)
    ensures StartsWith(s + t, prefix)
  {
    assert (s + t)[..|prefix|] == s[..|prefix|];
  }

  /** A text whose first character differs from the prefix's does not start with it. */
  lemma FirstCharDiffers(s: string, prefix: string)
    requires |s| > 0 && |prefix| > 0 && s[0] != prefix[0]
    ensures !StartsWith(s, prefix)
  {
    if |prefix| <= |s| {
      assert s[..|prefix|][0] == s[0];
    }
  }

  /** A text is a failure text exactly when its first character is ❌ or ⚠ followed by the selector. */
  lemma NotFailureText(s: string)
    requires |s| > 0 && s[0] != Cross[0] && s[0] != Warning[0]
    ensures !IsFailureText(s)
  {
    FirstCharDiffers(s, Cross);
    FirstCharDiffers(s, Warning);
  }

  lemma CrossIsFailure(rest: string)
    ensures StartsWith(Cross + rest, Cross) && IsFailureText(Cross + rest)
  {
    StartsWithConcat(Cross, rest);
  }

  lemma WarningIsFailure(rest: string)
    ensures StartsWith(Warning + rest, Warning) && IsFailureText(Warning + rest)
    ensures !StartsWith(Warning + rest, Cross)
  {
    StartsWithConcat(Warning, rest);
    FirstCharDiffers(Warning + rest, Cross);
  }

  /** A text that opens with ✅ is not a failure text. */
  lemma CheckMarkIsSuccess(rest: string)
    ensures StartsWith(CheckMark + rest, CheckMark)
    ensures !IsFailureText(CheckMark + rest) && !StartsWith(CheckMark + rest, Cross)
  {
    StartsWithConcat(CheckMark, rest);
    assert (CheckMark + rest)[0] == CheckMark[0];
    NotFailureText(CheckMark + rest);
  }

  // ---------------------------------------------------------------------------
  // Decimal numbers

  predicate IsDigit(c: char) {
    '0' <= c <= '9'
  }

  predicate AllDigits(s: string) {
    forall k :: 0 <= k < |s| ==> IsDigit(s[k])
  }

  function DigitValue(c: char): nat
    requires IsDigit(c)
  {
    (c as int) - ('0' as int)
  }

  function DigitChar(d: nat): (c: char)
    requires d < 10
    ensures IsDigit(c) && DigitValue(c) == d
  {
    (('0' as int) + d) as char
  }

  /** `str(n)` for a natural number: its decimal digits, without leading zeros. */
  function NatToString(n: nat): (s: string)
    ensures |s| > 0 && AllDigits(s)
    ensures s[0] == '0' ==> n == 0
    decreases n
  {
    if n < 10 then [DigitChar(n)] else NatToString(n / 10) + [DigitChar(n % 10)]
  }

  /** `str(i)` for any integer. */
  function IntToString(i: int): (s: string)
    ensures |s| > 0
    ensures i < 0 <==> s[0] == '-'
  {
    if i < 0 then "-" + NatToString(-i) else NatToString(i)
  }

  /** The value of a string of decimal digits (the inverse of NatToString). */
  function ParseNat(s: string): nat
    requires AllDigits(s)
    decreases |s|
  {
    if s == [] then 0 else ParseNat(s[..|s| - 1]) * 10 + DigitValue(s[|s| - 1])
  }

  /** The value of an optionally signed decimal string (the inverse of IntToString). */
  function ParseInt(s: string): int
    requires (|s| > 0 && s[0] == '-') ==> AllDigits(s[1..])
    requires (|s| > 0 && s[0] == '-') || AllDigits(s)
  {
    if |s| > 0 && s[0] == '-' then -(ParseNat(s[1..]) as int) else ParseNat(s)
  }

  lemma ParseNatSnoc(a: string, c: char)
    requires AllDigits(a) && IsDigit(c)
    ensures AllDigits(a + [c])
    ensures ParseNat(a + [c]) == ParseNat(a) * 10 + DigitValue(c)
  {
    assert (a + [c])[..|a|] == a;
  }

  lemma {:induction false} ParseNatToString(n: nat)
    ensures ParseNat(NatToString(n)) == n
    decreases n
  {
    if n < 10 {
      assert NatToString(n) == [] + [DigitChar(n)];
      ParseNatSnoc([], DigitChar(n));
    } else {
      ParseNatSnoc(NatToString(n / 10), DigitChar(n % 10));
      ParseNatToString(n / 10);
    }
  }

  /** Rendering an integer and reading it back gives the integer. */
  lemma IntToStringRoundTrip(i: int)
    ensures (|IntToString(i)| > 0 && IntToString(i)[0] == '-') ==> AllDigits(IntToString(i)[1..])
    ensures (|IntToString(i)| > 0 && IntToString(i)[0] == '-') || AllDigits(IntToString(i))
    ensures ParseInt(IntToString(i)) == i
  {
    if i < 0 {
      assert IntToString(i)[1..] == NatToString(-i);
      ParseNatToString(-i);
    } else {
      ParseNatToString(i);
    }
  }

  // ---------------------------------------------------------------------------
  // Thousands separators: f"{n:,}"

  function ThreeDigits(r: nat): (s: string)
    requires r < 1000
    ensures |s| == 3 && AllDigits(s)
  {
    [DigitChar(r / 100), DigitChar(r / 10 % 10), DigitChar(r % 10)]
  }

  /** `f"{n:,}"`: decimal digits with a comma before every group of three from the right. */
  function FormatThousands(n: nat): (s: string)
    ensures |s| > 0
    ensures n < 1000 ==> s == NatToString(n)
    decreases n
  {
    if n < 1000 then NatToString(n) else FormatThousands(n / 1000) + "," + ThreeDigits(n % 1000)
  }

  lemma ShortNatToString(n: nat)
    requires n < 1000
    ensures |NatToString(n)| <= 3
  {
    if n >= 10 {
      assert NatToString(n) == NatToString(n / 10) + [DigitChar(n % 10)];
      if n / 10 >= 10 {
        assert NatToString(n / 10) == NatToString(n / 10 / 10) + [DigitChar(n / 10 % 10)];
        assert n / 10 / 10 < 10;
      }
    }
  }

  /** In `f"{n:,}"` a comma stands at every fourth place from the right, and nowhere else. */
  lemma {:induction false} FormatThousandsGrouping(n: nat)
    ensures forall k :: 0 <= k < |FormatThousands(n)| ==>
              (FormatThousands(n)[k] == ',' <==> (|FormatThousands(n)| - k) % 4 == 0)
    decreases n
  {
    var s := FormatThousands(n);
    if n < 1000 {
      ShortNatToString(n);
      assert forall k :: 0 <= k < |s| ==> IsDigit(s[k]);
    } else {
      FormatThousandsGrouping(n / 1000);
      var h := FormatThousands(n / 1000);
      var t := ThreeDigits(n % 1000);
      assert s == h + "," + t;
      forall k | 0 <= k < |s|
        ensures s[k] == ',' <==> (|s| - k) % 4 == 0
      {
        if k < |h| {
          assert s[k] == h[k] && |s| - k == (|h| - k) + 4;
        } else if k > |h| {
          assert s[k] == t[k - |h| - 1] && IsDigit(t[k - |h| - 1]);
        }
      }
    }
  }

  function RemoveCommas(s: string): (r: string)
    ensures ',' !in r
  {
    if s == [] then [] else (if s[0] == ',' then [] else [s[0]]) + RemoveCommas(s[1..])
  }

  lemma {:induction false} RemoveCommasConcat(a: string, b: string)
    ensures RemoveCommas(a + b) == RemoveCommas(a) + RemoveCommas(b)
    decreases |a|
  {
    if a == [] {
      assert a + b == b;
    } else {
      assert (a + b)[1..] == a[1..] + b;
      RemoveCommasConcat(a[1..], b);
    }
  }

  lemma {:induction false} RemoveCommasDigits(s: string)
    requires AllDigits(s)
    ensures RemoveCommas(s) == s
    decreases |s|
  {
    if s != [] {
      RemoveCommasDigits(s[1..]);
    }
  }

  lemma ParseNatAppendThree(a: string, b: string)
    requires AllDigits(a) && AllDigits(b) && |b| == 3
    ensures AllDigits(a + b)
    ensures ParseNat(a + b) == ParseNat(a) * 1000 + ParseNat(b)
  {
    var a1 := a + [b[0]];
    var a2 := a1 + [b[1]];
    assert a + b == a2 + [b[2]];
    ParseNatSnoc(a, b[0]);
    ParseNatSnoc(a1, b[1]);
    ParseNatSnoc(a2, b[2]);
    assert b == ([] + [b[0]] + [b[1]]) + [b[2]];
    ParseNatSnoc([], b[0]);
    ParseNatSnoc([b[0]], b[1]);
    assert [] + [b[0]] + [b[1]] == [b[0], b[1]];
    ParseNatSnoc([b[0], b[1]], b[2]);
  }

  lemma ParseThreeDigits(r: nat)
    requires r < 1000
    ensures ParseNat(ThreeDigits(r)) == r
  {
    var h, t, u := r / 100, r / 10 % 10, r % 10;
    var s := ThreeDigits(r);
    assert s == ([] + [DigitChar(h)] + [DigitChar(t)]) + [DigitChar(u)];
    ParseNatSnoc([], DigitChar(h));
    assert [] + [DigitChar(h)] == [DigitChar(h)];
    ParseNatSnoc([DigitChar(h)], DigitChar(t));
    assert [DigitChar(h)] + [DigitChar(t)] == [DigitChar(h), DigitChar(t)];
    ParseNatSnoc([DigitChar(h), DigitChar(t)], DigitChar(u));
    assert r / 10 == 10 * h + t;
  }

  /** Dropping the separators from `f"{n:,}"` gives the digits of `n` back. */
  lemma {:induction false} FormatThousandsRoundTrip(n: nat)
    ensures AllDigits(RemoveCommas(FormatThousands(n)))
    ensures ParseNat(RemoveCommas(FormatThousands(n))) == n
    decreases n
  {
    if n < 1000 {
      RemoveCommasDigits(NatToString(n));
      ParseNatToString(n);
    } else {
      var head, tail := FormatThousands(n / 1000), ThreeDigits(n % 1000);
      assert FormatThousands(n) == (head + ",") + tail;
      RemoveCommasConcat(head + ",", tail);
      RemoveCommasConcat(head, ",");
      assert RemoveCommas(",") == [];
      RemoveCommasDigits(tail);
      var digits := RemoveCommas(head);
      assert RemoveCommas(FormatThousands(n)) == digits + tail;
      FormatThousandsRoundTrip(n / 1000);
      ParseNatAppendThree(digits, tail);
      ParseThreeDigits(n % 1000);
      assert ParseNat(digits + tail) == (n / 1000) * 1000 + n % 1000;
    }
  }

  // ---------------------------------------------------------------------------
  // Joining, splitting and stripping

  /** `sep.join(parts)` */
  function JoinWith(parts: seq<string>, sep: string): string
    decreases |parts|
  {
    if |parts| == 0 then ""
    else if |parts| == 1 then parts[0]
    else parts[0] + sep + JoinWith(parts[1..], sep)
  }

  /** `s.split(sep)` for a one-character separator: never empty, no piece holds the separator. */
  function Split(s: string, sep: char): (parts: seq<string>)
    ensures |parts| > 0
    ensures forall k :: 0 <= k < |parts| ==> sep !in parts[k]
    decreases |s|
  {
    if s == [] then [""]
    else
      var rest := Split(s[1..], sep);
      if s[0] == sep then [""] + rest else [[s[0]] + rest[0]] + rest[1..]
  }

  /** A separator-free piece followed by the separator is split off as it is. */
  lemma {:induction false} SplitCons(a: string, rest: string, sep: char)
    requires sep !in a
    ensures Split(a + [sep] + rest, sep) == [a] + Split(rest, sep)
    decreases |a|
  {
    var s := a + [sep] + rest;
    if a == [] {
      assert s[0] == sep && s[1..] == rest;
    } else {
      assert s[0] == a[0] && s[1..] == a[1..] + [sep] + rest;
      SplitCons(a[1..], rest, sep);
      assert [a[0]] + a[1..] == a;
    }
  }

  lemma {:induction false} SplitWithoutSep(a: string, sep: char)
    requires sep !in a
    ensures Split(a, sep) == [a]
    decreases |a|
  {
    if a != [] {
      SplitWithoutSep(a[1..], sep);
      assert [a[0]] + a[1..] == a;
    }
  }

  /** Joining separator-free pieces and splitting again gives the pieces back. */
  lemma {:induction false} SplitJoin(parts: seq<string>, sep: char)
    requires |parts| > 0
    requires forall k :: 0 <= k < |parts| ==> sep !in parts[k]
    ensures Split(JoinWith(parts, [sep]), sep) == parts
    decreases |parts|
  {
    if |parts| == 1 {
      SplitWithoutSep(parts[0], sep);
    } else {
      SplitJoin(parts[1..], sep);
      SplitCons(parts[0], JoinWith(parts[1..], [sep]), sep);
      assert [parts[0]] + parts[1..] == parts;
    }
  }

  /** Splitting and joining again with the same separator gives the text back. */
  lemma {:induction false} JoinSplit(s: string, sep: char)
    ensures JoinWith(Split(s, sep), [sep]) == s
    decreases |s|
  {
    if s != [] {
      var rest := Split(s[1..], sep);
      JoinSplit(s[1..], sep);
      if s[0] == sep {
        assert ([""] + rest)[1..] == rest;
      } else {
        var parts := [[s[0]] + rest[0]] + rest[1..];
        assert parts[1..] == rest[1..];
        if |rest| > 1 {
          assert JoinWith(rest, [sep]) == rest[0] + [sep] + JoinWith(rest[1..], [sep]);
        }
      }
    }
  }

  /** The characters `str.isspace` accepts. */
  predicate IsPySpace(c: char) {
    || c == ' '
    || ('\t' <= c <= '\r')
    || ('\U{1C}' <= c <= '\U{1F}')
    || c == '\U{85}' || c == '\U{A0}' || c == '\U{1680}'
    || ('\U{2000}' <= c <= '\U{200A}')
    || c == '\U{2028}' || c == '\U{2029}' || c == '\U{202F}' || c == '\U{205F}' || c == '\U{3000}'
  }

  /** `s.lstrip()`: the suffix left after dropping the leading whitespace. */
  function TrimStart(s: string): (r: string)
    ensures |r| <= |s| && r == s[|s| - |r|..]
    ensures forall k :: 0 <= k < |s| - |r| ==> IsPySpace(s[k])
    ensures |r| > 0 ==> !IsPySpace(r[0])
    decreases |s|
  {
    if |s| > 0 && IsPySpace(s[0]) then TrimStart(s[1..]) else s
  }

  /** `s.rstrip()`: the prefix left after dropping the trailing whitespace. */
  function TrimEnd(s: string): (r: string)
    ensures |r| <= |s| && r == s[..|r|]
    ensures forall k :: |r| <= k < |s| ==> IsPySpace(s[k])
    ensures |r| > 0 ==> !IsPySpace(r[|r| - 1])
    decreases |s|
  {
    if |s| > 0 && IsPySpace(s[|s| - 1]) then TrimEnd(s[..|s| - 1]) else s
  }

  /** `s.strip()` */
  function Strip(s: string): (r: string)
    ensures |r| > 0 ==> !IsPySpace(r[0]) && !IsPySpace(r[|r| - 1])
  {
    TrimEnd(TrimStart(s))
  }

  /** `r` is `s[i..j]`, and everything of `s` outside that slice is whitespace. */
  ghost predicate OuterTrim(s: string, r: string, i: int, j: int) {
    && 0 <= i <= j <= |s| && r == s[i..j]
    && (forall k :: 0 <= k < i ==> IsPySpace(s[k]))
    && (forall k :: j <= k < |s| ==> IsPySpace(s[k]))
  }

  /** Trimming the end of a suffix `t` of `s` leaves a slice of `s` with whitespace after it. */
  lemma TrimEndOfSuffix(s: string, t: string)
    requires |t| <= |s| && t == s[|s| - |t|..]
    ensures var i := |s| - |t|;
            TrimEnd(t) == s[i..i + |TrimEnd(t)|]
            && forall k :: i + |TrimEnd(t)| <= k < |s| ==> IsPySpace(s[k])
  {
    var i := |s| - |t|;
    var r := TrimEnd(t);
    assert forall k :: i <= k < |s| ==> s[k] == t[k - i];
  }

  /** `strip()` removes whitespace at both ends, and nothing else. */
  lemma StripOuter(s: string)
    ensures exists i, j :: OuterTrim(s, Strip(s), i, j)
  {
    var t := TrimStart(s);
    TrimEndOfSuffix(s, t);
    var i := |s| - |t|;
    assert OuterTrim(s, Strip(s), i, i + |Strip(s)|);
  }
}
