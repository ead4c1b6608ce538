/**
 * The JavaScript string operations the front end and the backend rely on,
 * written out over `seq<char>`: `trim`, truthiness and `||` on strings,
 * `Number#toString` / `parseInt` on non-negative integers, `padStart(2, '0')`,
 * `slice(-n)`, `split` on a character class, `join` and
 * "upper-case the first letter".
 */
module Text {
  import opened Wrappers

  // ---------------------------------------------------------------------------
  // White space and trim
  // ---------------------------------------------------------------------------

  /** The characters `String.prototype.trim` and the regular-expression class `\s` treat as white space. */
  predicate IsSpace(c: char)
  {
    c == ' ' || c == '\t' || c == '\n' || c == '\r' || c == '\U{000B}' || c == '\U{000C}'
    || c == '\U{00A0}' || c == '\U{1680}' || ('\U{2000}' <= c <= '\U{200A}')
    || c == '\U{2028}' || c == '\U{2029}' || c == '\U{202F}' || c == '\U{205F}'
    || c == '\U{3000}' || c == '\U{FEFF}'
  }

  /** Every character of `s` is white space (the empty string included). */
  predicate IsBlank(s: string)
  {
    forall i :: 0 <= i < |s| ==> IsSpace(s[i])
  }

  /** `s` with its leading white space removed. */
  function TrimStart(s: string): (r: string)
    decreases |s|
  {
    if |s| > 0 && IsSpace(s[0]) then TrimStart(s[1..]) else s
  }

  /** `TrimStart` removes a blank prefix and stops at the first character that is not white space. */
  lemma {:induction false} TrimStartSpec(s: string)
    ensures |TrimStart(s)| <= |s| && TrimStart(s) == s[|s| - |TrimStart(s)|..]
    ensures TrimStart(s) == [] || !IsSpace(TrimStart(s)[0])
    ensures IsBlank(s[..|s| - |TrimStart(s)|])
    decreases |s|
  {
    if |s| > 0 && IsSpace(s[0]) {
      var r := TrimStart(s[1..]);
      TrimStartSpec(s[1..]);
      assert s[1..][|s[1..]| - |r|..] == s[|s| - |r|..];
      assert forall i :: 1 <= i < |s| - |r| ==> s[i] == s[1..][..|s[1..]| - |r|][i - 1];
    }
  }

  /** `s` with its trailing white space removed. */
  function TrimEnd(s: string): (r: string)
    decreases |s|
  {
    if |s| > 0 && IsSpace(s[|s| - 1]) then TrimEnd(s[..|s| - 1]) else s
  }

  /** `TrimEnd` removes a blank suffix and stops at the last character that is not white space. */
  lemma {:induction false} TrimEndSpec(s: string)
    ensures |TrimEnd(s)| <= |s| && TrimEnd(s) == s[..|TrimEnd(s)|]
    ensures TrimEnd(s) == [] || !IsSpace(TrimEnd(s)[|TrimEnd(s)| - 1])
    ensures IsBlank(s[|TrimEnd(s)|..])
    decreases |s|
  {
    if |s| > 0 && IsSpace(s[|s| - 1]) {
      var r := TrimEnd(s[..|s| - 1]);
      TrimEndSpec(s[..|s| - 1]);
      assert forall i :: |r| <= i < |s| - 1 ==> s[i] == s[..|s| - 1][|r|..][i - |r|];
    }
  }

  /** JavaScript's `s.trim()`: the longest slice of `s` without white space at either end. */
  function Trim(s: string): string
  {
    TrimEnd(TrimStart(s))
  }

  /** The trimmed string is a slice of `s` with no white space at either end and only white space around it. */
  lemma TrimSpec(s: string)
    ensures var k := |s| - |TrimStart(s)|;
      && |TrimStart(s)| <= |s| && k + |Trim(s)| <= |s| && Trim(s) == s[k..k + |Trim(s)|]
      && IsBlank(s[..k]) && IsBlank(s[k + |Trim(s)|..])
    ensures Trim(s) == [] || (!IsSpace(Trim(s)[0]) && !IsSpace(Trim(s)[|Trim(s)| - 1]))
  {
    var t := TrimStart(s);
    var k := |s| - |t|;
    TrimStartSpec(s);
    TrimEndSpec(t);
    var r := Trim(s);
    assert t[..|r|] == s[k..k + |r|];
    assert t[|r|..] == s[k + |r|..];
  }

  /** A string that starts and ends with something other than white space trims to itself. */
  lemma TrimUnchanged(s: string)
    requires s == [] || (!IsSpace(s[0]) && !IsSpace(s[|s| - 1]))
    ensures Trim(s) == s
  {
  }

  /** `s.trim()` is empty exactly when `s` is blank, so `!s.trim()` tests for a blank string. */
  lemma TrimEmptyIffBlank(s: string)
    ensures Trim(s) == [] <==> IsBlank(s)
  {
    TrimSpec(s);
    var k := |s| - |TrimStart(s)|;
    if Trim(s) == [] {
      assert s == s[..k] + s[k..];
    } else {
      assert !IsSpace(s[k]) by { assert s[k] == Trim(s)[0]; }
    }
  }

  /** Trimming is idempotent. */
  lemma TrimIdempotent(s: string)
    ensures Trim(Trim(s)) == Trim(s)
  {
    TrimSpec(s);
    TrimUnchanged(Trim(s));
  }

  /** JavaScript truthiness of a string: only the empty string is falsy. */
  predicate Truthy(s: string)
  {
    s != []
  }

  /** JavaScript's `a || b` on two strings. */
  function OrElse(a: string, b: string): (r: string)
    ensures Truthy(a) ==> r == a
    ensures !Truthy(a) ==> r == b
  {
    if Truthy(a) then a else b
  }

  /** `s.endsWith(c)` for a single character. */
  predicate EndsWith(s: string, c: char)
  {
    |s| > 0 && s[|s| - 1] == c
  }

  // ---------------------------------------------------------------------------
  // Decimal numerals
  // ---------------------------------------------------------------------------

  predicate IsDigit(c: char)
  {
    '0' <= c <= '9'
  }

  function DigitChar(d: nat): (c: char)
    requires d < 10
    ensures IsDigit(c)
  {
    "0123456789"[d]
  }

  function DigitValue(c: char): (d: nat)
    requires IsDigit(c)
    ensures d < 10
  {
    c as int - '0' as int
  }

  lemma DigitRoundTrip(d: nat)
    requires d < 10
    ensures DigitValue(DigitChar(d)) == d
  {
  }

  /** A string made only of decimal digits, checked from its last character. */
  predicate AllDigits(s: string)
  {
    s == [] || (IsDigit(s[|s| - 1]) && AllDigits(s[..|s| - 1]))
  }

  /** `AllDigits` says of every character that it is a digit. */
  lemma {:induction false} AllDigitsMeans(s: string)
    ensures AllDigits(s) <==> forall i :: 0 <= i < |s| ==> IsDigit(s[i])
  {
    if s != [] {
      AllDigitsMeans(s[..|s| - 1]);
    }
  }

  /** `n.toString()` for a non-negative integer: its decimal numeral without leading zeros. */
  function NatToString(n: nat): (r: string)
    ensures |r| > 0 && AllDigits(r)
    ensures |r| > 1 ==> r[0] != '0'
  {
    if n < 10 then [DigitChar(n)]
    else
      var init := NatToString(n / 10);
      assert (init + [DigitChar(n % 10)])[..|init|] == init;
      init + [DigitChar(n % 10)]
  }

  /** The value of a string of decimal digits, most significant first. */
  function DigitsValue(s: string): nat
    requires AllDigits(s)
  {
    if s == [] then 0 else DigitsValue(s[..|s| - 1]) * 10 + DigitValue(s[|s| - 1])
  }

  /** `parseInt(s)` for text that is a plain decimal numeral; any other text does not parse. */
  function ParseNat(s: string): (r: Option<nat>)
    ensures r.Some? <==> |s| > 0 && AllDigits(s)
  {
    if |s| > 0 && AllDigits(s) then Some(DigitsValue(s)) else None
  }

  /** Reading back the numeral `toString` wrote gives the number again. */
  lemma {:induction false} ParseNatToString(n: nat)
    ensures ParseNat(NatToString(n)) == Some(n)
  {
    DigitsOfNatToString(n);
  }

  lemma {:induction false} DigitsOfNatToString(n: nat)
    ensures DigitsValue(NatToString(n)) == n
  {
    var s := NatToString(n);
    if n < 10 {
      DigitRoundTrip(n);
    } else {
      assert s[..|s| - 1] == NatToString(n / 10);
      DigitsOfNatToString(n / 10);
      DigitRoundTrip(n % 10);
    }
  }

  /** Two numbers with the same numeral are the same number. */
  lemma NatToStringInjective(m: nat, n: nat)
    requires NatToString(m) == NatToString(n)
    ensures m == n
  {
    ParseNatToString(m);
    ParseNatToString(n);
  }

  /**
   * `parseInt(text || '0')` for a counter kept in browser storage: the
   * number a decimal numeral denotes, 0 for the empty or absent text.
   */
  function CountOf(text: Option<string>): (n: nat)
    ensures text.None? || text == Some([]) ==> n == 0
  {
    match text
    case None => 0
    case Some(s) => match ParseNat(s) case Some(v) => v case None => 0
  }

  lemma CountOfToString(n: nat)
    ensures CountOf(Some(NatToString(n))) == n
  {
    ParseNatToString(n);
  }

  /** `s.padStart(2, '0')`. */
  function PadStart2(s: string): (r: string)
    ensures |s| >= 2 ==> r == s
    ensures |s| < 2 ==> |r| == 2 && r[2 - |s|..] == s && forall i :: 0 <= i < 2 - |s| ==> r[i] == '0'
  {
    if |s| >= 2 then s else seq(2 - |s|, _ => '0') + s
  }

  // ---------------------------------------------------------------------------
  // Sequences of strings
  // ---------------------------------------------------------------------------

  /** `xs.slice(-n)`: the last `n` elements, or all of them when there are fewer. */
  function LastN<T>(xs: seq<T>, n: nat): (r: seq<T>)
    ensures |r| == if |xs| <= n then |xs| else n
    ensures r == xs[|xs| - |r|..]
  {
    if |xs| <= n then xs else xs[|xs| - n..]
  }

  /** `xs.slice(0, -1)`: every element but the last (nothing for an empty sequence). */
  function AllButLast<T>(xs: seq<T>): (r: seq<T>)
    ensures |xs| > 0 ==> |r| == |xs| - 1 && xs == r + [xs[|xs| - 1]]
    ensures |xs| == 0 ==> r == []
  {
    if |xs| == 0 then [] else xs[..|xs| - 1]
  }

  /** `parts.join(sep)`. */
  function Join(parts: seq<string>, sep: string): string
  {
    if parts == [] then []
    else if |parts| == 1 then parts[0]
    else parts[0] + sep + Join(parts[1..], sep)
  }

  /** How many characters of `s` lie in `seps`. */
  function CountIn(s: string, seps: set<char>): nat
  {
    if s == [] then 0 else (if s[0] in seps then 1 else 0) + CountIn(s[1..], seps)
  }

  /** `s` with the characters in `seps` removed. */
  function Without(s: string, seps: set<char>): string
  {
    if s == [] then [] else (if s[0] in seps then [] else [s[0]]) + Without(s[1..], seps)
  }

  /** The concatenation of a sequence of strings. */
  function Concat(parts: seq<string>): string
  {
    if parts == [] then [] else parts[0] + Concat(parts[1..])
  }

  /** No character of `s` is in `seps`. */
  predicate FreeOf(s: string, seps: set<char>)
  {
    forall i :: 0 <= i < |s| ==> s[i] !in seps
  }

  /**
   * `s.split(re)` where `re` is a character class such as `/[._-]/` or the
   * single character `'@'`: the pieces between separators, empty pieces
   * included, so there is always one more piece than separators.
   */
  function SplitOn(s: string, seps: set<char>): (parts: seq<string>)
    ensures |parts| >= 1
    decreases |s|
  {
    if s == [] then [[]]
    else if s[0] in seps then [[]] + SplitOn(s[1..], seps)
    else
      var rest := SplitOn(s[1..], seps);
      [[s[0]] + rest[0]] + rest[1..]
  }

  /** The pieces contain no separator, there is one more piece than separators, and together they hold the other characters in order. */
  lemma {:induction false} SplitOnProperties(s: string, seps: set<char>)
    ensures forall k :: 0 <= k < |SplitOn(s, seps)| ==> FreeOf(SplitOn(s, seps)[k], seps)
    ensures |SplitOn(s, seps)| == CountIn(s, seps) + 1
    ensures Concat(SplitOn(s, seps)) == Without(s, seps)
    decreases |s|
  {
    if s != [] {
      var rest := SplitOn(s[1..], seps);
      SplitOnProperties(s[1..], seps);
      if s[0] !in seps {
        var parts := SplitOn(s, seps);
        assert parts[0] == [s[0]] + rest[0];
        assert parts[1..] == rest[1..];
        forall k | 0 <= k < |parts| ensures FreeOf(parts[k], seps) {
          if k == 0 {
            assert FreeOf(rest[0], seps);
          } else {
            assert parts[k] == rest[k];
          }
        }
        assert Concat(rest) == rest[0] + Concat(rest[1..]);
        assert Concat(parts) == parts[0] + Concat(parts[1..]);
      } else {
        var parts := SplitOn(s, seps);
        assert parts[1..] == rest;
        assert forall k :: 1 <= k < |parts| ==> parts[k] == rest[k - 1];
        assert Concat(parts) == [] + Concat(rest);
      }
    }
  }

  /** A string without separators is a single piece. */
  lemma {:induction false} SplitOnFree(s: string, seps: set<char>)
    requires FreeOf(s, seps)
    ensures SplitOn(s, seps) == [s]
    decreases |s|
  {
    if s != [] {
      SplitOnFree(s[1..], seps);
      assert [s[0]] + s[1..] == s;
    }
  }

  /** A separator-free piece followed by a separator comes off as the first piece. */
  lemma {:induction false} SplitOnAfterFree(a: string, c: char, b: string, seps: set<char>)
    requires FreeOf(a, seps) && c in seps
    ensures SplitOn(a + [c] + b, seps) == [a] + SplitOn(b, seps)
    decreases |a|
  {
    var s := a + [c] + b;
    if a == [] {
      assert s == [c] + b;
      assert s[1..] == b;
    } else {
      SplitOnAfterFree(a[1..], c, b, seps);
      assert s[0] == a[0];
      assert s[1..] == a[1..] + [c] + b;
      assert [a[0]] + a[1..] == a;
    }
  }

  /** With two pieces or more, the first piece runs up to the first separator and the rest is the split of what follows it. */
  lemma {:induction false} SplitOnFirst(s: string, seps: set<char>)
    requires |SplitOn(s, seps)| >= 2
    ensures |SplitOn(s, seps)[0]| < |s|
    ensures s[|SplitOn(s, seps)[0]|] in seps
    ensures s[..|SplitOn(s, seps)[0]|] == SplitOn(s, seps)[0]
    ensures SplitOn(s[|SplitOn(s, seps)[0]| + 1..], seps) == SplitOn(s, seps)[1..]
    decreases |s|
  {
    var parts := SplitOn(s, seps);
    if s[0] in seps {
      assert parts == [[]] + SplitOn(s[1..], seps);
    } else {
      var rest := SplitOn(s[1..], seps);
      assert parts == [[s[0]] + rest[0]] + rest[1..];
      SplitOnFirst(s[1..], seps);
      var n := |rest[0]|;
      assert s[1..][..n] == rest[0];
      assert s[..n + 1] == [s[0]] + s[1..][..n];
      assert s[n + 2..] == s[1..][n + 1..];
    }
  }

  /** A single piece is the whole string, which then holds no separator. */
  lemma {:induction false} SplitOnSingle(s: string, seps: set<char>)
    requires |SplitOn(s, seps)| == 1
    ensures SplitOn(s, seps) == [s] && FreeOf(s, seps)
    decreases |s|
  {
    if s != [] {
      var rest := SplitOn(s[1..], seps);
      assert s[0] !in seps;
      SplitOnSingle(s[1..], seps);
      assert [s[0]] + s[1..] == s;
    }
  }

  /** Joining two separator-free strings gives a separator-free string. */
  lemma FreeOfAppend(a: string, b: string, seps: set<char>)
    requires FreeOf(a, seps) && FreeOf(b, seps)
    ensures FreeOf(a + b, seps)
  {
    forall i | 0 <= i < |a + b| ensures (a + b)[i] !in seps {
      if i >= |a| {
        assert (a + b)[i] == b[i - |a|];
      }
    }
  }

  /** Decimal text holds no character outside the digits. */
  lemma NatToStringFreeOf(n: nat, seps: set<char>)
    requires forall c :: c in seps ==> !IsDigit(c)
    ensures FreeOf(NatToString(n), seps)
  {
  }

  /** `String.prototype.toUpperCase` on one character, for the Latin letters used in Spanish. */
  function ToUpper(c: char): char
  {
    if 'a' <= c <= 'z' then (c as int - 32) as char
    else if c == 'á' then 'Á'
    else if c == 'é' then 'É'
    else if c == 'í' then 'Í'
    else if c == 'ó' then 'Ó'
    else if c == 'ú' then 'Ú'
    else if c == 'ü' then 'Ü'
    else if c == 'ñ' then 'Ñ'
    else c
  }

  /** `s.charAt(0).toUpperCase() + s.slice(1)`. */
  function Capitalize(s: string): (r: string)
    ensures |r| == |s|
    ensures |s| > 0 ==> r[0] == ToUpper(s[0]) && r[1..] == s[1..]
  {
    if s == [] then [] else [ToUpper(s[0])] + s[1..]
  }
}
