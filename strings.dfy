/**
 * String operations shared by the client (JavaScript `trim`, `split`, `join`,
 * `includes`) and the server (Python `strip`, `lower`, `capitalize`, `in`,
 * `str.join`). Whitespace and case are ASCII only here: Python's `strip()`
 * also removes the separators U+001C to U+001F and Unicode spaces, JavaScript's
 * `trim()` removes Unicode spaces but not U+001C to U+001F, and both languages
 * change the case of non-ASCII letters.
 */
module Strings {

  /** Whitespace removed by `trim()` / `strip()`, restricted to ASCII. */
  predicate IsSpace(c: char) {
    c == ' ' || c == '\t' || c == '\n' || c == '\r' || c == '\U{B}' || c == '\U{C}'
  }

  /** A string with no whitespace at either end. */
  predicate IsTrimmed(s: string) {
    s == [] || (!IsSpace(s[0]) && !IsSpace(s[|s| - 1]))
  }

  predicate AllSpace(s: string) {
    forall i :: 0 <= i < |s| ==> IsSpace(s[i])
  }

  /** Drops leading whitespace: the result is a suffix of `s` that does not start with whitespace. */
  function TrimStart(s: string): (r: string)
    ensures |r| <= |s| && r == s[|s| - |r|..]
    ensures r != [] ==> !IsSpace(r[0])
  {
    if s != [] && IsSpace(s[0]) then TrimStart(s[1..]) else s
  }

  /** `s.trim()` in JavaScript, `s.strip()` in Python: whitespace is dropped from both ends. */
  function Trim(s: string): (r: string)
    ensures IsTrimmed(r)
    ensures |r| <= |s|
    decreases |s|
  {
    if s != [] && IsSpace(s[0]) then Trim(s[1..])
    else if s != [] && IsSpace(s[|s| - 1]) then Trim(s[..|s| - 1])
    else s
  }

  /** Trimming gives the empty string exactly for a blank string. */
  lemma {:induction false} TrimBlank(s: string)
    ensures AllSpace(s) <==> Trim(s) == []
    decreases |s|
  {
    if s != [] && IsSpace(s[0]) {
      TrimBlank(s[1..]);
      assert AllSpace(s) <==> AllSpace(s[1..]) by {
        assert forall i :: 1 <= i < |s| ==> s[i] == s[1..][i - 1];
      }
    } else if s != [] && IsSpace(s[|s| - 1]) {
      TrimBlank(s[..|s| - 1]);
      assert s[..|s| - 1][0] == s[0];
    }
  }

  /** Trimming only removes characters. */
  lemma {:induction false} TrimChars(s: string)
    ensures forall c :: c in Trim(s) ==> c in s
    decreases |s|
  {
    if s != [] && IsSpace(s[0]) {
      TrimChars(s[1..]);
      assert forall c :: c in s[1..] ==> c in s;
    } else if s != [] && IsSpace(s[|s| - 1]) {
      TrimChars(s[..|s| - 1]);
      assert forall c :: c in s[..|s| - 1] ==> c in s;
    }
  }

  lemma TrimOfTrimmed(s: string)
    requires IsTrimmed(s)
    ensures Trim(s) == s
  {
  }

  /** Whitespace in front of a string not starting with whitespace is exactly what `TrimStart` removes. */
  lemma {:induction false} TrimStartPadded(pad: string, x: string)
    requires AllSpace(pad) && (x == [] || !IsSpace(x[0]))
    ensures TrimStart(pad + x) == x
    decreases |pad|
  {
    if pad == [] {
      assert pad + x == x;
    } else {
      assert (pad + x)[1..] == pad[1..] + x;
      TrimStartPadded(pad[1..], x);
    }
  }

  /** Whitespace in front of an already trimmed string is exactly what trimming removes. */
  lemma {:induction false} TrimPadded(pad: string, x: string)
    requires AllSpace(pad) && IsTrimmed(x)
    ensures Trim(pad + x) == x
    decreases |pad|
  {
    if pad == [] {
      assert pad + x == x;
      TrimOfTrimmed(x);
    } else {
      assert (pad + x)[0] == pad[0];
      assert (pad + x)[1..] == pad[1..] + x;
      TrimPadded(pad[1..], x);
    }
  }

  /** Trims every element (`.map((s) => s.trim())`). */
  function MapTrim(xs: seq<string>): (r: seq<string>)
    ensures |r| == |xs|
    ensures forall i :: 0 <= i < |r| ==> r[i] == Trim(xs[i]) && IsTrimmed(r[i])
  {
    seq(|xs|, i requires 0 <= i < |xs| => Trim(xs[i]))
  }

  /** Trimming every element keeps out a character none of them holds. */
  lemma MapTrimFree(xs: seq<string>, c: char)
    requires forall i :: 0 <= i < |xs| ==> c !in xs[i]
    ensures forall i :: 0 <= i < |MapTrim(xs)| ==> c !in MapTrim(xs)[i]
  {
    forall i | 0 <= i < |xs|
      ensures c !in MapTrim(xs)[i]
    {
      TrimChars(xs[i]);
    }
  }

  /** ASCII case mapping of `str.lower()` / `toLowerCase()`. */
  function LowerChar(c: char): (r: char)
    ensures 'A' <= r <= 'Z' ==> false
  {
    if 'A' <= c <= 'Z' then (c as int + 32) as char else c
  }

  function UpperChar(c: char): (r: char)
    ensures 'a' <= r <= 'z' ==> false
  {
    if 'a' <= c <= 'z' then (c as int - 32) as char else c
  }

  function Lower(s: string): (r: string)
    ensures |r| == |s|
    ensures forall i :: 0 <= i < |r| ==> !('A' <= r[i] <= 'Z')
  {
    seq(|s|, i requires 0 <= i < |s| => LowerChar(s[i]))
  }

  predicate IsLower(s: string) {
    forall i :: 0 <= i < |s| ==> !('A' <= s[i] <= 'Z')
  }

  lemma LowerOfLower(s: string)
    requires IsLower(s)
    ensures Lower(s) == s
  {
  }

  /** Python's `str.capitalize()`: first character upper case, the rest lower case. */
  function Capitalize(s: string): (r: string)
    ensures |r| == |s|
    ensures forall i :: 1 <= i < |r| ==> !('A' <= r[i] <= 'Z')
  {
    if s == [] then [] else [UpperChar(s[0])] + Lower(s[1..])
  }

  predicate StartsWith(s: string, p: string) {
    |p| <= |s| && s[..|p|] == p
  }

  /** `sub in s` (Python), `s.includes(sub)` (JavaScript). */
  predicate Contains(s: string, sub: string)
    decreases |s|
  {
    StartsWith(s, sub) || (s != [] && Contains(s[1..], sub))
  }

  /** An occurrence at any position makes `Contains` true. */
  lemma {:induction false} ContainsAt(s: string, sub: string, i: nat)
    requires i + |sub| <= |s| && s[i..i + |sub|] == sub
    ensures Contains(s, sub)
  {
    if i > 0 {
      assert s[1..][i - 1..i - 1 + |sub|] == s[i..i + |sub|];
      ContainsAt(s[1..], sub, i - 1);
    }
  }

  /** A one-character needle is found exactly when the character occurs. */
  lemma {:induction false} ContainsChar(s: string, c: char)
    ensures Contains(s, [c]) <==> c in s
  {
    if s != [] {
      assert s == [s[0]] + s[1..];
      ContainsChar(s[1..], c);
    }
  }

  /**
   * `s.split(sep)` in JavaScript for a non-empty separator: the pieces between
   * the leftmost non-overlapping occurrences of `sep`, empty pieces included.
   */
  function Split(s: string, sep: string): (r: seq<string>)
    requires sep != []
    ensures |r| >= 1
    ensures StartsWith(s, r[0])
    decreases |s|
  {
    if StartsWith(s, sep) then [""] + Split(s[|sep|..], sep)
    else if s == [] then [""]
    else
      var rest := Split(s[1..], sep);
      [[s[0]] + rest[0]] + rest[1..]
  }

  /** `xs.join(sep)` in JavaScript, `sep.join(xs)` in Python. */
  function Join(xs: seq<string>, sep: string): string
    decreases |xs|
  {
    if |xs| == 0 then ""
    else if |xs| == 1 then xs[0]
    else xs[0] + sep + Join(xs[1..], sep)
  }

  /** Prefixes every element with `pad`. */
  function Padded(pad: string, ys: seq<string>): (r: seq<string>)
    ensures |r| == |ys|
    ensures forall i :: 0 <= i < |r| ==> r[i] == pad + ys[i]
  {
    seq(|ys|, i requires 0 <= i < |ys| => pad + ys[i])
  }

  lemma {:induction false} SplitNoSeparator(s: string, c: char)
    requires c !in s
    ensures Split(s, [c]) == [s]
    decreases |s|
  {
    if s != [] {
      SplitNoSeparator(s[1..], c);
      assert [s[0]] + s[1..] == s;
    }
  }

  /** A separator-free prefix is glued onto the first piece of what follows. */
  lemma {:induction false} SplitPrefix(p: string, s: string, c: char)
    requires c !in p
    ensures Split(p + s, [c]) == [p + Split(s, [c])[0]] + Split(s, [c])[1..]
    decreases |p|
  {
    if p == [] {
      var r := Split(s, [c]);
      assert p + s == s && p + r[0] == r[0];
      assert [r[0]] + r[1..] == r;
    } else {
      assert (p + s)[1..] == p[1..] + s;
      assert (p + s)[0] == p[0] && p[0] in p;
      assert !StartsWith(p + s, [c]);
      SplitPrefix(p[1..], s, c);
      assert [(p + s)[0]] + (p[1..] + Split(s, [c])[0]) == p + Split(s, [c])[0];
    }
  }

  lemma SplitLeadingSeparator(s: string, c: char)
    ensures Split([c] + s, [c]) == [""] + Split(s, [c])
  {
    assert StartsWith([c] + s, [c]);
    assert ([c] + s)[1..] == s;
  }

  /** The piece count is the separator count plus one. */
  lemma {:induction false} SplitCount(s: string, c: char)
    ensures |Split(s, [c])| == multiset(s)[c] + 1
    decreases |s|
  {
    if s != [] {
      assert s == [s[0]] + s[1..];
      assert multiset(s) == multiset([s[0]]) + multiset(s[1..]);
      SplitCount(s[1..], c);
    }
  }

  /** No piece contains the separator. */
  lemma {:induction false} SplitPiecesFree(s: string, c: char)
    ensures forall k :: 0 <= k < |Split(s, [c])| ==> c !in Split(s, [c])[k]
    decreases |s|
  {
    if s != [] {
      SplitPiecesFree(s[1..], c);
      var rest := Split(s[1..], [c]);
      if s[0] != c {
        assert Split(s, [c]) == [[s[0]] + rest[0]] + rest[1..];
        assert c !in [s[0]] + rest[0];
      }
    }
  }

  /**
   * Joining with `[c] + pad` and splitting on `c` gives back the first element,
   * then every other element with `pad` in front, provided no element holds `c`.
   */
  lemma {:induction false} SplitJoinPadded(xs: seq<string>, c: char, pad: string)
    requires |xs| >= 1
    requires forall i :: 0 <= i < |xs| ==> c !in xs[i]
    requires c !in pad
    ensures Split(Join(xs, [c] + pad), [c]) == [xs[0]] + Padded(pad, xs[1..])
    decreases |xs|
  {
    if |xs| == 1 {
      SplitNoSeparator(xs[0], c);
      assert Padded(pad, xs[1..]) == [];
    } else {
      var j := Join(xs[1..], [c] + pad);
      SplitJoinPadded(xs[1..], c, pad);
      assert Join(xs, [c] + pad) == xs[0] + ([c] + (pad + j));
      SplitPrefix(xs[0], [c] + (pad + j), c);
      SplitLeadingSeparator(pad + j, c);
      SplitPrefix(pad, j, c);
      assert xs[1..][1..] == xs[2..];
      assert Padded(pad, xs[1..]) == [pad + xs[1]] + Padded(pad, xs[2..]);
    }
  }

  /** Trimming undoes the padding when the padding is whitespace and the elements are trimmed. */
  lemma TrimUnpads(xs: seq<string>, pad: string)
    requires |xs| >= 1 && AllSpace(pad)
    requires forall i :: 0 <= i < |xs| ==> IsTrimmed(xs[i])
    ensures MapTrim([xs[0]] + Padded(pad, xs[1..])) == xs
  {
    var ys := [xs[0]] + Padded(pad, xs[1..]);
    var ts := MapTrim(ys);
    forall i | 0 <= i < |xs|
      ensures ts[i] == xs[i]
    {
      assert ts[i] == Trim(ys[i]);
      TrimElement(xs, pad, i);
    }
    SameElements(ts, xs);
  }

  lemma SameElements(a: seq<string>, b: seq<string>)
    requires |a| == |b| && forall i :: 0 <= i < |a| ==> a[i] == b[i]
    ensures a == b
  {
  }

  lemma TrimElement(xs: seq<string>, pad: string, i: nat)
    requires i < |xs| && AllSpace(pad)
    requires forall k :: 0 <= k < |xs| ==> IsTrimmed(xs[k])
    ensures Trim(([xs[0]] + Padded(pad, xs[1..]))[i]) == xs[i]
  {
    var ps := Padded(pad, xs[1..]);
    if i == 0 {
      assert ([xs[0]] + ps)[0] == xs[0];
      TrimOfTrimmed(xs[0]);
    } else {
      assert ([xs[0]] + ps)[i] == ps[i - 1] == pad + xs[1..][i - 1];
      assert xs[1..][i - 1] == xs[i];
      TrimPadded(pad, xs[i]);
    }
  }

  /**
   * Round trip used by the admin form and by `format_response`: join on
   * `[c] + pad`, split on `c`, trim every piece.
   */
  lemma SplitJoinTrimRoundTrip(xs: seq<string>, c: char, pad: string)
    requires |xs| >= 1 && AllSpace(pad) && c !in pad
    requires forall i :: 0 <= i < |xs| ==> c !in xs[i] && IsTrimmed(xs[i])
    ensures MapTrim(Split(Join(xs, [c] + pad), [c])) == xs
  {
    SplitJoinPadded(xs, c, pad);
    TrimUnpads(xs, pad);
  }

  predicate IsDigit(c: char) {
    '0' <= c <= '9'
  }

  function DigitChar(d: nat): (c: char)
    requires d < 10
    ensures IsDigit(c) && c as int - '0' as int == d
  {
    ('0' as int + d) as char
  }

  /** The decimal text of `n`, as `String(n)` and `f"{n}"` write it. */
  function Decimal(n: nat): (r: string)
    ensures |r| >= 1
    ensures forall i :: 0 <= i < |r| ==> IsDigit(r[i])
    decreases n
  {
    if n < 10 then [DigitChar(n)] else Decimal(n / 10) + [DigitChar(n % 10)]
  }

  predicate AllDigits(s: string) {
    forall i :: 0 <= i < |s| ==> IsDigit(s[i])
  }

  /** The number a string of decimal digits denotes. */
  function DigitsValue(ds: string): nat
    requires AllDigits(ds)
    decreases |ds|
  {
    if ds == [] then 0
    else DigitsValue(ds[..|ds| - 1]) * 10 + (ds[|ds| - 1] as int - '0' as int)
  }

  lemma {:induction false} DecimalValue(n: nat)
    ensures DigitsValue(Decimal(n)) == n
    decreases n
  {
    if n >= 10 {
      var d := Decimal(n);
      assert d[..|d| - 1] == Decimal(n / 10);
      DecimalValue(n / 10);
    }
  }

  /** The length of the longest prefix of `s` made of digits. */
  function LeadingDigits(s: string): (k: nat)
    ensures k <= |s| && AllDigits(s[..k])
    ensures k < |s| ==> !IsDigit(s[k])
    decreases |s|
  {
    if s != [] && IsDigit(s[0]) then
      var k := 1 + LeadingDigits(s[1..]);
      assert s[..k] == [s[0]] + s[1..][..k - 1];
      k
    else 0
  }

  lemma {:induction false} LeadingDigitsOfDigits(ds: string, rest: string)
    requires AllDigits(ds)
    requires rest == [] || !IsDigit(rest[0])
    ensures LeadingDigits(ds + rest) == |ds|
    decreases |ds|
  {
    if ds == [] {
      assert ds + rest == rest;
    } else {
      assert (ds + rest)[1..] == ds[1..] + rest;
      LeadingDigitsOfDigits(ds[1..], rest);
    }
  }
}
