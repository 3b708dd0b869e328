/**
 * The C string conventions serial2amqp.c relies on: NUL-terminated character
 * buffers, the `strlcpy` macro (an `snprintf(dst, size, "%s", src)`),
 * `strncat` into a fixed buffer, `atoi` and `%d` formatting.
 */
module CStrings {
  import opened Util

  const NUL: char := '\0'

  /** The C string a character buffer holds: everything before its first NUL, or all of it without one. */
  function CString(s: seq<char>): (r: string)
    ensures r <= s
    ensures NUL !in r
    ensures |r| < |s| ==> s[|r|] == NUL
  {
    if |s| == 0 || s[0] == NUL then [] else [s[0]] + CString(s[1..])
  }

  /** The three properties in CString's contract determine it. */
  lemma {:induction false} CStringUnique(s: seq<char>, r: string)
    requires r <= s && NUL !in r
    requires |r| < |s| ==> s[|r|] == NUL
    ensures CString(s) == r
  {
    assert |r| > 0 ==> r[0] in r;
    if |s| > 0 && s[0] != NUL {
      assert r[1..] <= s[1..];
      assert forall j :: 0 <= j < |r| - 1 ==> r[1..][j] == r[j + 1];
      CStringUnique(s[1..], r[1..]);
    }
  }

  /** A buffer whose NUL sits at `k` holds no more than `s[..k]`. */
  lemma CStringAtNul(s: seq<char>, k: nat)
    requires k < |s| && s[k] == NUL
    ensures CString(s) == CString(s[..k])
  {
    var r := CString(s[..k]);
    assert |r| < k ==> s[..k][|r|] == s[|r|];
    CStringUnique(s, r);
  }

  /** Without a NUL, the whole sequence is the C string. */
  lemma CStringOfNulFree(s: seq<char>)
    requires NUL !in s
    ensures CString(s) == s
  {
    CStringUnique(s, s);
  }

  /** The C string reaches at least as far as a NUL-free prefix. */
  lemma {:induction false} CStringCoversNulFreePrefix(s: seq<char>, i: nat)
    requires i <= |s| && NUL !in s[..i]
    ensures |CString(s)| >= i
  {
    if i > 0 {
      assert s[0] == s[..i][0];
      assert s[1..][..i - 1] == s[..i][1..];
      assert forall x :: x in s[..i][1..] ==> x in s[..i];
      CStringCoversNulFreePrefix(s[1..], i - 1);
    }
  }

  /**
   * What `snprintf(dst, size, "%s", src)` (the source's `strlcpy` macro) leaves
   * in a buffer of `size` bytes: the longest NUL-free prefix of `src` that
   * leaves room for the terminator.
   */
  function Copied(src: string, size: nat): (r: string)
    requires size >= 1
    ensures r <= src && NUL !in r
    ensures |r| < size
    ensures |r| < size - 1 ==> |r| == |src| || src[|r|] == NUL
  {
    var text := CString(src);
    text[..Min(|text|, size - 1)]
  }

  /** For a source without a NUL, the first min(|src|, size - 1) characters are kept. */
  lemma CopiedKeepsPrefix(src: string, size: nat)
    requires size >= 1 && NUL !in src
    ensures Copied(src, size) == src[..Min(|src|, size - 1)]
  {
    CStringOfNulFree(src);
  }

  /** A source that fits its buffer is copied whole. */
  lemma CopiedWhenFits(src: string, size: nat)
    requires NUL !in src && |src| < size
    ensures Copied(src, size) == src
  {
    CopiedKeepsPrefix(src, size);
  }

  /** Copying what was copied into a buffer of the same size changes nothing. */
  lemma CopiedIdempotent(src: string, size: nat)
    requires size >= 1
    ensures Copied(Copied(src, size), size) == Copied(src, size)
  {
    CopiedWhenFits(Copied(src, size), size);
  }

  /** `snprintf(dst, dst.Length, "%s", src)`: the source's `strlcpy`. */
  method Strlcpy(dst: array<char>, src: string)
    requires dst.Length >= 1
    modifies dst
    ensures CString(dst[..]) == Copied(src, dst.Length)
    ensures dst[|Copied(src, dst.Length)|] == NUL
    ensures forall j :: |Copied(src, dst.Length)| < j < dst.Length ==> dst[j] == old(dst[j])
  {
    var i := 0;
    while i < dst.Length - 1 && i < |src| && src[i] != NUL
      invariant 0 <= i <= dst.Length - 1 && i <= |src|
      invariant forall j :: 0 <= j < i ==> dst[j] == src[j] && src[j] != NUL
      invariant forall j :: i <= j < dst.Length ==> dst[j] == old(dst[j])
    {
      dst[i] := src[i];
      i := i + 1;
    }
    dst[i] := NUL;
    assert NUL !in src[..i];
    if i == |src| || src[i] == NUL {
      CStringUnique(src, src[..i]);
    } else {
      CStringCoversNulFreePrefix(src, i);
    }
    assert Copied(src, dst.Length) == src[..i];
    assert dst[..][..i] == src[..i];
    CStringUnique(dst[..], src[..i]);
  }

  /** `strlen`: the index of the first NUL. */
  method Strlen(s: array<char>) returns (d: nat)
    requires |CString(s[..])| < s.Length
    ensures d == |CString(s[..])|
  {
    ghost var text := CString(s[..]);
    d := 0;
    while s[d] != NUL
      invariant d <= |text|
      invariant s[..d] == text[..d]
      decreases |text| - d
    {
      d := d + 1;
    }
  }

  /**
   * `strncat(dst, src, n)`: appends at most `n` characters of the C string in
   * `src` to the C string in `dst`, then a NUL. C leaves an overflow of `dst`
   * undefined; the precondition is that it fits.
   */
  method Strncat(dst: array<char>, src: seq<char>, n: nat)
    requires |CString(dst[..])| + Min(n, |CString(src)|) < dst.Length
    modifies dst
    ensures CString(dst[..]) == old(CString(dst[..])) + CString(src)[..Min(n, |CString(src)|)]
  {
    ghost var before := CString(dst[..]);
    ghost var added := CString(src)[..Min(n, |CString(src)|)];
    var d := Strlen(dst);
    assert dst[..d] == before;
    var i := 0;
    while i < n && i < |src| && src[i] != NUL
      invariant 0 <= i <= |added|
      invariant dst[..d] == before
      invariant dst[d..d + i] == added[..i]
      decreases |added| - i
    {
      dst[d + i] := src[i];
      i := i + 1;
    }
    assert i == |added|;
    dst[d + i] := NUL;
    assert dst[..][..d + i] == before + added;
    CStringUnique(dst[..], before + added);
  }

  // ---------------------------------------------------------------- atoi, %d

  /** `isspace` in the C locale. */
  predicate IsSpace(c: char)
  {
    c == ' ' || c == '\t' || c == '\n' || c == '\U{B}' || c == '\U{C}' || c == '\r'
  }

  predicate IsDigit(c: char)
  {
    '0' <= c <= '9'
  }

  predicate AllDigits(s: string)
  {
    forall i :: 0 <= i < |s| ==> IsDigit(s[i])
  }

  function DigitChar(d: nat): (c: char)
    requires d < 10
    ensures IsDigit(c)
  {
    (('0' as int) + d) as char
  }

  function DigitValue(c: char): (d: nat)
    requires IsDigit(c)
    ensures d < 10 && DigitChar(d) == c
  {
    (c as int) - ('0' as int)
  }

  /** The text after the leading white space. */
  function SkipSpace(s: string): (r: string)
    ensures |r| <= |s| && r == s[|s| - |r|..]
    ensures |r| > 0 ==> !IsSpace(r[0])
    ensures forall i :: 0 <= i < |s| - |r| ==> IsSpace(s[i])
  {
    if |s| > 0 && IsSpace(s[0]) then SkipSpace(s[1..]) else s
  }

  /** The number a string of decimal digits denotes. */
  function DecimalValue(ds: string): (n: nat)
    requires AllDigits(ds)
  {
    if |ds| == 0 then 0 else 10 * DecimalValue(ds[..|ds| - 1]) + DigitValue(ds[|ds| - 1])
  }

  /** The digits at the front of `s`, accumulated onto `acc` one at a time up to the first non-digit. */
  function DigitsValue(s: string, acc: nat): (n: nat)
    ensures acc <= n
  {
    if |s| > 0 && IsDigit(s[0]) then DigitsValue(s[1..], 10 * acc + DigitValue(s[0])) else acc
  }

  /**
   * `atoi`: leading white space, an optional sign, then as many digits as
   * follow; anything after them is ignored, and no digits give 0. The result
   * is the exact value (C leaves values beyond `int` undefined).
   */
  function Atoi(s: string): (n: int)
  {
    if |s| > 0 && IsSpace(s[0]) then Atoi(s[1..])
    else if |s| > 0 && s[0] == '-' then -(DigitsValue(s[1..], 0) as int)
    else if |s| > 0 && s[0] == '+' then DigitsValue(s[1..], 0)
    else DigitsValue(s, 0)
  }

  /** The decimal digits of `n`, as `%u` prints them. */
  function NatToString(n: nat): (r: string)
    ensures |r| > 0 && AllDigits(r)
  {
    if n < 10 then [DigitChar(n)] else NatToString(n / 10) + [DigitChar(n % 10)]
  }

  /** `n` as `%d` prints it. */
  function IntToString(n: int): (r: string)
    ensures |r| > 0
  {
    if n < 0 then "-" + NatToString(-n) else NatToString(n)
  }

  lemma {:induction false} DecimalValueOfNatToString(n: nat)
    ensures DecimalValue(NatToString(n)) == n
  {
    if n >= 10 {
      var s := NatToString(n);
      assert s[..|s| - 1] == NatToString(n / 10);
      DecimalValueOfNatToString(n / 10);
    }
  }

  /**
   * Reading digits onto the value of the digits `p` already read gives the
   * value of all of them, wherever the digits stop.
   */
  lemma {:induction false} DigitsValueReads(p: string, ds: string, rest: string)
    requires AllDigits(p) && AllDigits(ds)
    requires |rest| > 0 ==> !IsDigit(rest[0])
    ensures DigitsValue(ds + rest, DecimalValue(p)) == DecimalValue(p + ds)
    decreases |ds|
  {
    if |ds| == 0 {
      assert ds + rest == rest;
      assert p + ds == p;
    } else {
      var q := p + [ds[0]];
      assert q[..|q| - 1] == p;
      assert (ds + rest)[0] == ds[0];
      assert (ds + rest)[1..] == ds[1..] + rest;
      DigitsValueReads(q, ds[1..], rest);
      assert q + ds[1..] == p + ds;
    }
  }

  /** Digits followed by a non-digit read back as their value. */
  lemma AtoiOfDigits(digits: string, rest: string)
    requires |digits| > 0 && AllDigits(digits)
    requires |rest| > 0 ==> !IsDigit(rest[0])
    ensures Atoi(digits + rest) == DecimalValue(digits)
  {
    var s := digits + rest;
    assert s[0] == digits[0];
    DigitsValueReads([], digits, rest);
    assert [] + digits == digits;
  }

  /** A minus sign, digits and a non-digit read back as the negated value. */
  lemma AtoiOfNegative(digits: string, rest: string)
    requires AllDigits(digits)
    requires |rest| > 0 ==> !IsDigit(rest[0])
    ensures Atoi("-" + (digits + rest)) == -(DecimalValue(digits) as int)
  {
    var s := "-" + (digits + rest);
    assert s[0] == '-';
    assert s[1..] == digits + rest;
    DigitsValueReads([], digits, rest);
    assert [] + digits == digits;
  }

  /** A leading `+` is read and the digits after it give their value. */
  lemma AtoiOfPlus(digits: string, rest: string)
    requires AllDigits(digits)
    requires |rest| > 0 ==> !IsDigit(rest[0])
    ensures Atoi("+" + (digits + rest)) == DecimalValue(digits)
  {
    var s := "+" + (digits + rest);
    assert s[0] == '+';
    assert s[1..] == digits + rest;
    DigitsValueReads([], digits, rest);
    assert [] + digits == digits;
  }

  /** Leading white space does not change what `atoi` reads. */
  lemma {:induction false} AtoiSkipsSpace(ws: string, s: string)
    requires forall i :: 0 <= i < |ws| ==> IsSpace(ws[i])
    ensures Atoi(ws + s) == Atoi(s)
    decreases |ws|
  {
    if |ws| == 0 {
      assert ws + s == s;
    } else {
      assert (ws + s)[0] == ws[0];
      assert (ws + s)[1..] == ws[1..] + s;
      AtoiSkipsSpace(ws[1..], s);
    }
  }

  /**
   * `atoi` reads back what `%d` prints, whatever non-digit text follows it
   * (so "5672" gives 5672 and "-1x" gives -1).
   */
  lemma {:induction false} AtoiReadsIntToString(n: int, rest: string)
    requires |rest| > 0 ==> !IsDigit(rest[0])
    ensures Atoi(IntToString(n) + rest) == n
  {
    if n < 0 {
      var digits := NatToString(-n);
      DecimalValueOfNatToString(-n);
      assert IntToString(n) + rest == "-" + (digits + rest);
      AtoiOfNegative(digits, rest);
    } else {
      DecimalValueOfNatToString(n);
      AtoiOfDigits(NatToString(n), rest);
    }
  }

  /** A text that does not start with a sign or digit after white space reads as 0. */
  lemma {:induction false} AtoiWithoutDigits(s: string)
    requires var t := SkipSpace(s); |t| == 0 || !(IsDigit(t[0]) || t[0] == '-' || t[0] == '+')
    ensures Atoi(s) == 0
    decreases |s|
  {
    if |s| > 0 && IsSpace(s[0]) {
      assert SkipSpace(s) == SkipSpace(s[1..]);
      AtoiWithoutDigits(s[1..]);
    } else {
      assert SkipSpace(s) == s;
    }
  }
}
