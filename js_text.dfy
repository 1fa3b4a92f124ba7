/** The JavaScript string primitives the services rely on (`trim`, `toLowerCase`, `split`,
    `join`, `includes`, `startsWith`, `parseInt`, number-to-string), over strings of
    Unicode scalar values. */
module JsText {
  import opened Basics

  /** JavaScript truthiness of a string value that may be undefined. */
  predicate Truthy(field: Option<string>)
  {
    field.Some? && field.value != ""
  }

  /** WhiteSpace and LineTerminator code points of ECMA-262: what `trim` removes,
      what `parseInt` skips and what the regular-expression class `\s` matches. */
  predicate IsSpace(c: char)
  {
    || c == '\t' || c == '\n' || c == '\U{B}' || c == '\U{C}' || c == '\r' || c == ' '
    || c == '\U{A0}' || c == '\U{1680}' || ('\U{2000}' <= c <= '\U{200A}')
    || c == '\U{2028}' || c == '\U{2029}' || c == '\U{202F}' || c == '\U{205F}'
    || c == '\U{3000}' || c == '\U{FEFF}'
  }

  /** LineTerminator code points: the characters a regular-expression `.` does not match. */
  predicate IsLineTerminator(c: char)
  {
    c == '\n' || c == '\r' || c == '\U{2028}' || c == '\U{2029}'
  }

  predicate AllSpace(s: string)
  {
    forall i :: 0 <= i < |s| ==> IsSpace(s[i])
  }

  /** Neither the first nor the last character is white space: `trim` would change nothing. */
  predicate Trimmed(s: string)
  {
    s == [] || (!IsSpace(s[0]) && !IsSpace(s[|s| - 1]))
  }

  function TrimStart(s: string): (r: string)
    ensures |r| <= |s|
    ensures r == [] || !IsSpace(r[0])
  {
    if s != [] && IsSpace(s[0]) then TrimStart(s[1..]) else s
  }

  /** `TrimStart` drops a run of white space from the front and nothing else. */
  lemma {:induction false} TrimStartSlice(s: string)
    ensures TrimStart(s) == s[|s| - |TrimStart(s)|..]
    ensures AllSpace(s[..|s| - |TrimStart(s)|])
  {
    if s != [] && IsSpace(s[0]) {
      TrimStartSlice(s[1..]);
      assert s[1..][..|s| - 1 - |TrimStart(s)|] == s[1..|s| - |TrimStart(s)|];
    }
  }

  function TrimEnd(s: string): (r: string)
    ensures |r| <= |s|
    ensures r == [] || !IsSpace(r[|r| - 1])
  {
    if s != [] && IsSpace(s[|s| - 1]) then TrimEnd(s[..|s| - 1]) else s
  }

  /** `TrimEnd` drops a run of white space from the back and nothing else. */
  lemma {:induction false} TrimEndSlice(s: string)
    ensures TrimEnd(s) == s[..|TrimEnd(s)|]
    ensures AllSpace(s[|TrimEnd(s)|..])
  {
    if s != [] && IsSpace(s[|s| - 1]) {
      TrimEndSlice(s[..|s| - 1]);
      assert s[..|s| - 1][|TrimEnd(s)|..] == s[|TrimEnd(s)|..|s| - 1];
    }
  }

  /** `String.prototype.trim`: the longest slice of `s` between two runs of white space. */
  function Trim(s: string): (r: string)
    ensures Trimmed(r)
    ensures |r| <= |s|
  {
    TrimEndSlice(TrimStart(s));
    TrimEnd(TrimStart(s))
  }

  /** `Trim(s)` is the slice `s[i..j]`, and only white space lies outside it. */
  /** `trim()` is idempotent. */
  lemma TrimIdempotent(s: string)
    ensures Trim(Trim(s)) == Trim(s)
  {
    assert "" + Trim(s) + "" == Trim(s);
    TrimPadded("", Trim(s), "");
  }

  lemma TrimSlice(s: string) returns (i: nat, j: nat)
    ensures i <= j <= |s| && Trim(s) == s[i..j]
    ensures AllSpace(s[..i]) && AllSpace(s[j..])
  {
    var t := TrimStart(s);
    TrimStartSlice(s);
    TrimEndSlice(t);
    var k := |TrimEnd(t)|;
    i := |s| - |t|;
    j := i + k;
    assert t == s[i..];
    assert TrimEnd(t) == t[..k] == s[i..j];
    assert t[k..] == s[j..];
  }

  /** Trimming a trimmed text between white-space runs gives that text back. */
  lemma TrimPadded(a: string, c: string, b: string)
    requires AllSpace(a) && AllSpace(b) && Trimmed(c)
    ensures Trim(a + c + b) == c
  {
    var s := a + c + b;
    var i, j := TrimSlice(s);
    if c != [] {
      assert s[|a|] == c[0] && s[|a| + |c| - 1] == c[|c| - 1];
      assert s[..i] == s[..i] && s[j..] == s[j..];
      assert i <= |a|;
      assert |a| + |c| <= j;
      assert i == |a| by {
        assert Trim(s)[0] == s[i];
      }
      assert j == |a| + |c| by {
        assert Trim(s)[|Trim(s)| - 1] == s[j - 1];
      }
      assert s[i..j] == c;
    }
  }

  lemma SpacePrefixBefore(s: string, i: nat, k: nat)
    requires i <= |s| && k < |s| && AllSpace(s[..i]) && !IsSpace(s[k])
    ensures i <= k
  {
  }

  lemma SpaceSuffixAfter(s: string, j: nat, m: nat)
    requires j <= |s| && m < |s| && AllSpace(s[j..]) && !IsSpace(s[m])
    ensures m < j
  {
  }

  lemma IncludesSlice(s: string, i: nat, j: nat, a: nat, b: nat)
    requires i <= a <= b <= j <= |s|
    ensures Includes(s[i..j], s[a..b])
  {
    var t := s[i..j];
    assert |t[a - i..b - i]| == |s[a..b]|;
    forall x | 0 <= x < b - a
      ensures t[a - i..b - i][x] == s[a..b][x]
    {
      assert t[a - i + x] == s[a + x];
    }
    assert t[a - i..b - i] == s[a..b];
    IncludesAt(t, s[a..b], a - i);
  }

  /** Trimming never cuts into a stretch that has non-space text on both sides. */
  lemma TrimKeepsInterior(s: string, k: nat, a: nat, b: nat, m: nat)
    requires k < a <= b <= m < |s|
    requires !IsSpace(s[k]) && !IsSpace(s[m])
    ensures Includes(Trim(s), s[a..b])
  {
    var i, j := TrimSlice(s);
    SpacePrefixBefore(s, i, k);
    SpaceSuffixAfter(s, j, m);
    IncludesSlice(s, i, j, a, b);
  }

  /** One character of `toLowerCase`: the result is never an upper-case ASCII letter, an
      upper-case letter becomes a lower-case one, and any other character is kept. */
  function LowerChar(c: char): (d: char)
    ensures !('A' <= d <= 'Z')
    ensures 'A' <= c <= 'Z' ==> 'a' <= d <= 'z'
    ensures !('A' <= c <= 'Z') ==> d == c
  {
    if 'A' <= c <= 'Z' then (c as int + 32) as char else c
  }

  /** `toLowerCase` (and Python's `str.lower`) on the ASCII letters; other characters are kept. */
  function ToLower(s: string): (r: string)
    ensures |r| == |s|
    ensures forall i :: 0 <= i < |s| ==> r[i] == LowerChar(s[i])
  {
    seq(|s|, i requires 0 <= i < |s| => LowerChar(s[i]))
  }

  /** A string already in lower case. */
  predicate IsLower(s: string)
  {
    ToLower(s) == s
  }

  lemma ToLowerIdempotent(s: string)
    ensures IsLower(ToLower(s))
  {
  }

  lemma ToLowerAppend(a: string, b: string)
    ensures ToLower(a + b) == ToLower(a) + ToLower(b)
  {
  }

  predicate StartsWith(s: string, prefix: string)
  {
    |prefix| <= |s| && s[..|prefix|] == prefix
  }

  /** `String.prototype.includes`: `n` occurs somewhere in `h`. */
  predicate Includes(h: string, n: string)
    decreases |h|
  {
    StartsWith(h, n) || (h != [] && Includes(h[1..], n))
  }

  lemma {:induction false} IncludesAt(h: string, n: string, k: nat)
    requires k + |n| <= |h| && h[k..k + |n|] == n
    ensures Includes(h, n)
    decreases k
  {
    if k > 0 {
      assert h[1..][k - 1..k - 1 + |n|] == n;
      IncludesAt(h[1..], n, k - 1);
    }
  }

  lemma {:induction false} IncludesWitness(h: string, n: string) returns (k: nat)
    requires Includes(h, n)
    ensures k + |n| <= |h| && h[k..k + |n|] == n
    decreases |h|
  {
    if StartsWith(h, n) {
      k := 0;
    } else {
      var k' := IncludesWitness(h[1..], n);
      k := k' + 1;
      assert h[k..k + |n|] == h[1..][k'..k' + |n|];
    }
  }

  /** The empty string occurs in every string. */
  lemma IncludesEmpty(h: string)
    ensures Includes(h, "")
  {
    assert StartsWith(h, "");
  }

  lemma IncludesMiddle(p: string, m: string, q: string)
    ensures Includes(p + m + q, m)
  {
    assert (p + m + q)[|p|..|p| + |m|] == m;
    IncludesAt(p + m + q, m, |p|);
  }

  /** An occurrence of `n` contains each character of `n`. */
  lemma IncludesChar(h: string, n: string, c: char)
    requires Includes(h, n) && c in n
    ensures c in h
  {
    var k := IncludesWitness(h, n);
    var i :| 0 <= i < |n| && n[i] == c;
    assert h[k + i] == h[k..k + |n|][i];
  }

  /** `Array.prototype.join`. */
  function Join(parts: seq<string>, sep: string): string
  {
    if |parts| == 0 then ""
    else if |parts| == 1 then parts[0]
    else parts[0] + sep + Join(parts[1..], sep)
  }

  /** `String.prototype.split` with a one-character separator: the pieces between
      separators; there is always at least one. */
  function Split(s: string, sep: char): (parts: seq<string>)
    ensures |parts| >= 1
  {
    if s == [] then [""]
    else
      var rest := Split(s[1..], sep);
      if s[0] == sep then [""] + rest
      else [[s[0]] + rest[0]] + rest[1..]
  }

  /** No piece of a split holds the separator, and `Join` glues the pieces back. */
  lemma {:induction false} SplitPieces(s: string, sep: char)
    ensures forall i :: 0 <= i < |Split(s, sep)| ==> sep !in Split(s, sep)[i]
    ensures Join(Split(s, sep), [sep]) == s
  {
    if s != [] {
      SplitPieces(s[1..], sep);
      var rest := Split(s[1..], sep);
      if s[0] == sep {
        assert Join([""] + rest, [sep]) == [sep] + Join(rest, [sep]) by {
          assert ([""] + rest)[1..] == rest;
        }
      } else {
        var r := [[s[0]] + rest[0]] + rest[1..];
        assert Join(r, [sep]) == [s[0]] + Join(rest, [sep]) by {
          if |rest| > 1 {
            assert r[1..] == rest[1..];
            assert Join(rest, [sep]) == rest[0] + [sep] + Join(rest[1..], [sep]);
          }
        }
        assert s == [s[0]] + s[1..];
        assert forall i :: 1 <= i < |r| ==> r[i] == rest[i];
      }
    }
  }

  /** Splitting joined pieces gives the pieces back when none holds the separator. */
  lemma {:induction false} SplitJoin(parts: seq<string>, sep: char)
    requires |parts| >= 1
    requires forall i :: 0 <= i < |parts| ==> sep !in parts[i]
    ensures Split(Join(parts, [sep]), sep) == parts
    decreases |parts|, |parts[0]|
  {
    var p0 := parts[0];
    if p0 == [] {
      if |parts| > 1 {
        var j := Join(parts, [sep]);
        assert j == [sep] + Join(parts[1..], [sep]);
        assert j[1..] == Join(parts[1..], [sep]);
        SplitJoin(parts[1..], sep);
      }
    } else {
      var parts' := [p0[1..]] + parts[1..];
      assert forall i :: 0 <= i < |parts'| ==> sep !in parts'[i] by {
        forall i | 0 <= i < |parts'|
          ensures sep !in parts'[i]
        {
          if i == 0 {
            assert forall c :: c in p0[1..] ==> c in p0;
          } else {
            assert parts'[i] == parts[i];
          }
        }
      }
      SplitJoin(parts', sep);
      var j := Join(parts, [sep]);
      assert j == [p0[0]] + Join(parts', [sep]) by {
        if |parts| > 1 {
          assert parts'[1..] == parts[1..];
        }
      }
      assert j[0] == p0[0] && j[1..] == Join(parts', [sep]);
      assert p0[0] != sep;
      var rest := Split(j[1..], sep);
      assert rest == parts';
      assert Split(j, sep) == [[p0[0]] + rest[0]] + rest[1..];
      assert [p0[0]] + p0[1..] == p0;
      assert parts == [p0] + parts[1..];
    }
  }

  /** A line with no separator in it splits off as the first piece. */
  lemma SplitFirst(line: string, sep: char, rest: string)
    requires sep !in line
    ensures Split(line + [sep] + rest, sep) == [line] + Split(rest, sep)
  {
    var parts := Split(rest, sep);
    SplitPieces(rest, sep);
    assert Join([line] + parts, [sep]) == line + [sep] + rest by {
      assert ([line] + parts)[1..] == parts;
    }
    SplitJoin([line] + parts, sep);
  }

  /** The value of a digit character in any radix up to 36; 36 for any other character. */
  function DigitValue(c: char): (v: nat)
    ensures v <= 36
  {
    if '0' <= c <= '9' then c as int - '0' as int
    else if 'a' <= c <= 'z' then c as int - 'a' as int + 10
    else if 'A' <= c <= 'Z' then c as int - 'A' as int + 10
    else 36
  }

  /** The longest prefix of `s` made of digits of the given radix. */
  function DigitPrefix(s: string, radix: nat): (d: string)
    ensures StartsWith(s, d)
    ensures forall i :: 0 <= i < |d| ==> DigitValue(d[i]) < radix
    ensures |d| < |s| ==> DigitValue(s[|d|]) >= radix
  {
    if s != [] && DigitValue(s[0]) < radix then [s[0]] + DigitPrefix(s[1..], radix) else ""
  }

  /** The number written by a string of digits, most significant first. */
  function DigitsValue(d: string, radix: nat): nat
  {
    if d == [] then 0
    else DigitsValue(d[..|d| - 1], radix) * radix
         + (if DigitValue(d[|d| - 1]) < radix then DigitValue(d[|d| - 1]) else 0)
  }

  /** `parseInt(s)` without a radix argument: leading white space is skipped, then an
      optional sign; the longest run of digits that follows is the value. `None` is NaN. */
  function ParseInt(s: string): (r: Option<int>)
  {
    var t := TrimStart(s);
    if t != [] && t[0] == '-' then
      match ParseMagnitude(t[1..])
      case Some(v) => Some(-(v as int))
      case None => None
    else if t != [] && t[0] == '+' then ParseMagnitude(t[1..])
    else ParseMagnitude(t)
  }

  /** An unsigned `parseInt` numeral: a `0x`/`0X` prefix selects radix 16, otherwise 10. */
  function ParseMagnitude(u: string): (r: Option<int>)
    ensures r.Some? ==> r.value >= 0
  {
    if |u| >= 2 && u[0] == '0' && (u[1] == 'x' || u[1] == 'X') then ParseDigits(u[2..], 16)
    else ParseDigits(u, 10)
  }

  function ParseDigits(u: string, radix: nat): (r: Option<int>)
    ensures r.Some? ==> r.value >= 0
  {
    var digits := DigitPrefix(u, radix);
    if digits == [] then None else Some(DigitsValue(digits, radix))
  }

  predicate IsDecimalDigit(c: char)
  {
    '0' <= c <= '9'
  }

  /** The decimal numeral of `n` (what a template literal prints for a natural number). */
  function NatToString(n: nat): (r: string)
    ensures |r| >= 1
    ensures forall i :: 0 <= i < |r| ==> IsDecimalDigit(r[i])
  {
    var last := ['0' + (n % 10) as char];
    if n < 10 then last else NatToString(n / 10) + last
  }

  lemma {:induction false} NatToStringValue(n: nat)
    ensures DigitPrefix(NatToString(n), 10) == NatToString(n)
    ensures DigitsValue(NatToString(n), 10) == n
  {
    var r := NatToString(n);
    DigitPrefixAll(r, 10);
    if n >= 10 {
      NatToStringValue(n / 10);
      assert r[..|r| - 1] == NatToString(n / 10);
    }
  }

  lemma {:induction false} DigitPrefixAll(d: string, radix: nat)
    requires forall i :: 0 <= i < |d| ==> DigitValue(d[i]) < radix
    ensures DigitPrefix(d, radix) == d
  {
    if d != [] {
      DigitPrefixAll(d[1..], radix);
    }
  }

  lemma {:induction false} DigitPrefixStops(d: string, rest: string, radix: nat)
    requires forall i :: 0 <= i < |d| ==> DigitValue(d[i]) < radix
    requires rest == [] || DigitValue(rest[0]) >= radix
    ensures DigitPrefix(d + rest, radix) == d
  {
    if d != [] {
      assert (d + rest)[1..] == d[1..] + rest;
      DigitPrefixStops(d[1..], rest, radix);
    } else {
      assert d + rest == rest;
    }
  }

  lemma NumeralHead(r: string, rest: string)
    requires |r| >= 1 && forall i :: 0 <= i < |r| ==> IsDecimalDigit(r[i])
    requires rest == [] || (!IsDecimalDigit(rest[0]) && rest[0] != 'x' && rest[0] != 'X')
    ensures ParseInt(r + rest) == ParseDigits(r + rest, 10)
  {
    var s := r + rest;
    assert s[0] == r[0];
    assert !IsSpace(s[0]);
    assert TrimStart(s) == s;
    if |s| >= 2 {
      assert s[1] == if |r| >= 2 then r[1] else rest[0];
    }
  }

  /** `parseInt` reads back the numeral at the head of a text such as "30 minutes". */
  lemma ParseIntNumeral(n: nat, rest: string)
    requires rest == [] || (!IsDecimalDigit(rest[0]) && rest[0] != 'x' && rest[0] != 'X')
    ensures ParseInt(NatToString(n) + rest) == Some(n)
  {
    var r := NatToString(n);
    NumeralHead(r, rest);
    NatToStringValue(n);
    DigitPrefixStops(r, rest, 10);
  }
}
