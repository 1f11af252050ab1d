/**
  The JavaScript string operations the bot relies on, over `seq<char>`:
  `endsWith`, `join`, `split` on one character, `trim`, `slice`, and the
  decimal rendering of integers inside template literals.
 */
module Strings {

  /** `s.endsWith(suffix)`. */
  predicate EndsWith(s: string, suffix: string) {
    |suffix| <= |s| && s[|s| - |suffix|..] == suffix
  }

  /** `parts.join(sep)`. */
  function Join(parts: seq<string>, sep: string): string {
    if |parts| == 0 then ""
    else if |parts| == 1 then parts[0]
    else parts[0] + sep + Join(parts[1..], sep)
  }

  /** The first index of `c` in `s`, or `|s|` when `c` does not occur. */
  function IndexOf(s: string, c: char): (r: nat)
    ensures r <= |s|
    ensures r < |s| ==> s[r] == c
    ensures forall k :: 0 <= k < r ==> s[k] != c
  {
    if |s| == 0 then 0
    else if s[0] == c then 0
    else 1 + IndexOf(s[1..], c)
  }

  /** `s.split(sep)` for a one-character separator: every occurrence splits, and the result is never empty. */
  function Split(s: string, sep: char): (parts: seq<string>)
    ensures |parts| >= 1
    ensures forall i :: 0 <= i < |parts| ==> sep !in parts[i]
    decreases |s|
  {
    var i := IndexOf(s, sep);
    if i == |s| then [s]
    else
      assert forall k :: 0 <= k < i ==> s[..i][k] != sep;
      [s[..i]] + Split(s[i + 1..], sep)
  }

  /** Joining the pieces of a split with the separator gives back the string. */
  lemma {:induction false} JoinSplit(s: string, sep: char)
    ensures Join(Split(s, sep), [sep]) == s
    decreases |s|
  {
    var i := IndexOf(s, sep);
    if i < |s| {
      var rest := Split(s[i + 1..], sep);
      JoinSplit(s[i + 1..], sep);
      JoinCons(s[..i], rest, [sep]);
      assert s == s[..i] + [sep] + s[i + 1..];
    }
  }

  /** Joining a list with at least two pieces: the first piece, the separator, then the join of the rest. */
  lemma JoinCons(p: string, rest: seq<string>, sep: string)
    requires |rest| >= 1
    ensures Join([p] + rest, sep) == p + sep + Join(rest, sep)
  {
    assert ([p] + rest)[1..] == rest;
  }

  /** Splitting a join of separator-free pieces gives back the pieces. */
  lemma {:induction false} SplitJoin(parts: seq<string>, sep: char)
    requires |parts| >= 1
    requires forall i :: 0 <= i < |parts| ==> sep !in parts[i]
    ensures Split(Join(parts, [sep]), sep) == parts
    decreases |parts|
  {
    var p := parts[0];
    if |parts| == 1 {
      assert forall k :: 0 <= k < |p| ==> p[k] != sep;
      assert IndexOf(p, sep) == |p|;
    } else {
      var rest := parts[1..];
      assert forall i :: 0 <= i < |rest| ==> sep !in rest[i] by {
        forall i | 0 <= i < |rest| ensures sep !in rest[i] {
          assert rest[i] == parts[i + 1];
        }
      }
      SplitJoin(rest, sep);
      SplitCons(p, sep, Join(rest, [sep]));
      assert parts == [p] + rest;
    }
  }

  /** Splitting `p + [sep] + t` with `sep` not in `p` puts `p` first and splits `t` for the rest. */
  lemma SplitCons(p: string, sep: char, t: string)
    requires sep !in p
    ensures Split(p + [sep] + t, sep) == [p] + Split(t, sep)
  {
    var s := p + [sep] + t;
    IndexOfAfterPrefix(p, sep, t);
    assert s[..|p|] == p;
    assert s[|p| + 1..] == t;
  }

  /** In `p + [c] + t` with `c` not in `p`, the first `c` sits right after `p`. */
  lemma {:induction false} IndexOfAfterPrefix(p: string, c: char, t: string)
    requires c !in p
    ensures IndexOf(p + [c] + t, c) == |p|
    decreases |p|
  {
    var s := p + [c] + t;
    if |p| > 0 {
      assert s[1..] == p[1..] + [c] + t;
      IndexOfAfterPrefix(p[1..], c, t);
    }
  }

  /** ECMAScript WhiteSpace and LineTerminator code points: what `String.prototype.trim` removes. */
  predicate IsJsWhitespace(c: char) {
    c == '\t' || c == '\n' || c == '\U{000B}' || c == '\U{000C}' || c == '\r' || c == ' '
    || c == '\U{00A0}' || c == '\U{1680}' || ('\U{2000}' <= c <= '\U{200A}')
    || c == '\U{2028}' || c == '\U{2029}' || c == '\U{202F}' || c == '\U{205F}'
    || c == '\U{3000}' || c == '\U{FEFF}'
  }

  function TrimStart(s: string): (r: string)
    ensures |r| <= |s| && r == s[|s| - |r|..]
    ensures |r| > 0 ==> !IsJsWhitespace(r[0])
    ensures forall k :: 0 <= k < |s| - |r| ==> IsJsWhitespace(s[k])
  {
    if |s| > 0 && IsJsWhitespace(s[0]) then TrimStart(s[1..]) else s
  }

  function TrimEnd(s: string): (r: string)
    ensures |r| <= |s| && r == s[..|r|]
    ensures |r| > 0 ==> !IsJsWhitespace(r[|r| - 1])
    ensures forall k :: |r| <= k < |s| ==> IsJsWhitespace(s[k])
  {
    if |s| > 0 && IsJsWhitespace(s[|s| - 1]) then TrimEnd(s[..|s| - 1]) else s
  }

  /** `s.trim()`. */
  function Trim(s: string): string {
    TrimEnd(TrimStart(s))
  }

  /** A string of whitespace only trims to the empty string, and only such a string does. */
  lemma TrimEmptyIff(s: string)
    ensures Trim(s) == "" <==> forall k :: 0 <= k < |s| ==> IsJsWhitespace(s[k])
  {
    var t := TrimStart(s);
    if |t| > 0 {
      assert t[0] == s[|s| - |t|];
      assert |TrimEnd(t)| > 0;
    }
  }

  // ---- UTF-16 code units ----

  /** The UTF-16 code units of one character: a surrogate pair above U+FFFF, else one unit. */
  function Utf16Units(c: char): (n: nat)
    ensures 1 <= n <= 2
    ensures n == 2 <==> c as int > 0xFFFF
  {
    if c as int > 0xFFFF then 2 else 1
  }

  /** `s.length`: UTF-16 code units, one or two per character. */
  function Utf16Length(s: string): (n: nat)
    ensures |s| <= n <= 2 * |s|
  {
    if |s| == 0 then 0 else Utf16Units(s[0]) + Utf16Length(s[1..])
  }

  /** On text without astral characters the UTF-16 length is the number of characters. */
  lemma {:induction false} Utf16LengthBmp(s: string)
    requires AllBmp(s)
    ensures Utf16Length(s) == |s|
    decreases |s|
  {
    if |s| > 0 {
      TailKeepsPlane(s);
      Utf16LengthBmp(s[1..]);
    }
  }

  /** The UTF-16 length of a concatenation is the sum of the lengths. */
  lemma {:induction false} Utf16LengthAppend(a: string, b: string)
    ensures Utf16Length(a + b) == Utf16Length(a) + Utf16Length(b)
    decreases |a|
  {
    if |a| > 0 {
      assert (a + b)[0] == a[0];
      assert (a + b)[1..] == a[1..] + b;
      Utf16LengthAppend(a[1..], b);
    } else {
      assert a + b == b;
    }
  }

  /**
    `s.slice(0, n)` counted in UTF-16 code units, kept to whole characters:
    characters are taken while their units still fit in `n`.
   */
  function Utf16Prefix(s: string, n: nat): string
    decreases |s|
  {
    if |s| == 0 || Utf16Units(s[0]) > n then ""
    else [s[0]] + Utf16Prefix(s[1..], n - Utf16Units(s[0]))
  }

  /**
    The cut is the longest prefix of `s` whose UTF-16 length is at most `n`: it
    is a prefix, it fits, the next character would not fit, and a string that
    fits is kept whole.
   */
  lemma {:induction false} Utf16PrefixMeaning(s: string, n: nat)
    ensures var p := Utf16Prefix(s, n);
            && p <= s
            && Utf16Length(p) <= n
            && (|p| < |s| ==> Utf16Length(p) + Utf16Units(s[|p|]) > n)
            && (Utf16Length(s) <= n ==> p == s)
    decreases |s|
  {
    if |s| > 0 && Utf16Units(s[0]) <= n {
      var rest := Utf16Prefix(s[1..], n - Utf16Units(s[0]));
      Utf16PrefixMeaning(s[1..], n - Utf16Units(s[0]));
      assert ([s[0]] + rest)[1..] == rest;
      assert |rest| < |s[1..]| ==> s[1..][|rest|] == s[|rest| + 1];
    }
  }

  /** Every character is in the Basic Multilingual Plane: one code unit each. */
  predicate AllBmp(s: string) {
    forall i :: 0 <= i < |s| ==> s[i] as int <= 0xFFFF
  }

  /** Every character is above U+FFFF: a surrogate pair each. */
  predicate AllAstral(s: string) {
    forall i :: 0 <= i < |s| ==> s[i] as int > 0xFFFF
  }

  lemma TailKeepsPlane(s: string)
    requires |s| > 0
    ensures AllBmp(s) ==> AllBmp(s[1..])
    ensures AllAstral(s) ==> AllAstral(s[1..])
  {
    forall i | 0 <= i < |s[1..]| ensures s[1..][i] == s[i + 1] {}
  }

  /** On text made only of astral characters the UTF-16 length is twice the number of characters. */
  lemma {:induction false} Utf16LengthAstral(s: string)
    requires AllAstral(s)
    ensures Utf16Length(s) == 2 * |s|
    decreases |s|
  {
    if |s| > 0 {
      TailKeepsPlane(s);
      Utf16LengthAstral(s[1..]);
    }
  }

  /** On text without astral characters the code-unit cut is the character cut. */
  lemma {:induction false} Utf16PrefixBmp(s: string, n: nat)
    requires AllBmp(s)
    ensures Utf16Prefix(s, n) == if |s| <= n then s else s[..n]
    decreases |s|
  {
    if |s| > 0 && n > 0 {
      TailKeepsPlane(s);
      assert Utf16Units(s[0]) == 1;
      Utf16PrefixBmp(s[1..], n - 1);
      if |s| > n {
        assert [s[0]] + s[1..][..n - 1] == s[..n];
      } else {
        assert [s[0]] + s[1..] == s;
      }
    }
  }

  /** On text made only of astral characters every character takes two units, so the cut keeps `n / 2` characters. */
  lemma {:induction false} Utf16PrefixAstral(s: string, n: nat)
    requires AllAstral(s)
    ensures Utf16Prefix(s, n) == if |s| <= n / 2 then s else s[..n / 2]
    decreases |s|
  {
    if |s| > 0 && n >= 2 {
      TailKeepsPlane(s);
      assert Utf16Units(s[0]) == 2;
      Utf16PrefixAstral(s[1..], n - 2);
      assert (n - 2) / 2 == n / 2 - 1;
      if |s| > n / 2 {
        assert [s[0]] + s[1..][..n / 2 - 1] == s[..n / 2];
      } else {
        assert [s[0]] + s[1..] == s;
      }
    }
  }

  predicate IsAsciiDigit(c: char) {
    '0' <= c <= '9'
  }

  predicate IsAsciiDigits(s: string) {
    forall k :: 0 <= k < |s| ==> IsAsciiDigit(s[k])
  }

  function DigitChar(d: nat): (c: char)
    requires d < 10
    ensures IsAsciiDigit(c) && c as int - '0' as int == d
  {
    ['0', '1', '2', '3', '4', '5', '6', '7', '8', '9'][d]
  }

  /** The decimal numeral of `n` without leading zeros, as `${n}` renders it. */
  function NatToDecimal(n: nat): (s: string)
    ensures |s| >= 1 && IsAsciiDigits(s)
    ensures |s| > 1 ==> s[0] != '0'
  {
    if n < 10 then [DigitChar(n)]
    else NatToDecimal(n / 10) + [DigitChar(n % 10)]
  }

  /** The value of a numeral of ASCII digits. */
  function DecimalValue(s: string): nat
    requires IsAsciiDigits(s)
  {
    if |s| == 0 then 0
    else 10 * DecimalValue(s[..|s| - 1]) + (s[|s| - 1] as int - '0' as int)
  }

  /** Reading back the numeral `NatToDecimal` wrote gives the number. */
  lemma {:induction false} DecimalRoundTrip(n: nat)
    ensures DecimalValue(NatToDecimal(n)) == n
  {
    if n >= 10 {
      var s := NatToDecimal(n);
      assert s[..|s| - 1] == NatToDecimal(n / 10);
      DecimalRoundTrip(n / 10);
    }
  }

  /** `${i}` for an integer-valued number. */
  function IntToDecimal(i: int): string {
    if i < 0 then "-" + NatToDecimal(-i) else NatToDecimal(i)
  }
}
