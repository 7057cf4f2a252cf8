/**
 * Values and helpers shared by the portal's components: optional values,
 * results, the chip colours MUI offers, ASCII case mapping, substring search,
 * removal of records by id, and the decimal printing and `parseInt` parsing
 * of integers that the pages rely on.
 */
module Common {

  datatype Option<+T> = None | Some(value: T)

  datatype Result<+T, +E> = Ok(value: T) | Err(error: E)

  /** The colours a MUI `Chip` is given by the status helpers. */
  datatype ChipColor = Success | Error | Warning | Info | Default

  /** A snackbar message: its text and whether its severity is 'success'. */
  datatype Notice = Notice(text: string, success: bool)

  // ---------------------------------------------------------------------
  // Case mapping (ASCII letters only)
  // ---------------------------------------------------------------------

  function LowerChar(c: char): char
  {
    if 'A' <= c <= 'Z' then (c as int + 32) as char else c
  }

  function UpperChar(c: char): char
  {
    if 'a' <= c <= 'z' then (c as int - 32) as char else c
  }

  /** `String.prototype.toLowerCase` on ASCII text. */
  function Lower(s: string): (r: string)
    ensures |r| == |s|
    ensures forall i :: 0 <= i < |s| ==> r[i] == LowerChar(s[i])
  {
    seq(|s|, i requires 0 <= i < |s| => LowerChar(s[i]))
  }

  /** `String.prototype.toUpperCase` on ASCII text. */
  function Upper(s: string): (r: string)
    ensures |r| == |s|
    ensures forall i :: 0 <= i < |s| ==> r[i] == UpperChar(s[i])
  {
    seq(|s|, i requires 0 <= i < |s| => UpperChar(s[i]))
  }

  // ---------------------------------------------------------------------
  // Substring search
  // ---------------------------------------------------------------------

  /** `needle` occurs in `hay` starting at position `i`. */
  ghost predicate OccursAt(hay: string, needle: string, i: int)
  {
    0 <= i && i + |needle| <= |hay| && hay[i..i + |needle|] == needle
  }

  /** `String.prototype.includes`, scanning start positions left to right. */
  function Contains(hay: string, needle: string): (b: bool)
    ensures b <==> exists i :: OccursAt(hay, needle, i)
    decreases |hay|
  {
    if |needle| <= |hay| && hay[..|needle|] == needle then
      assert OccursAt(hay, needle, 0);
      true
    else if hay == [] then
      assert forall i :: !OccursAt(hay, needle, i);
      false
    else
      var rest := Contains(hay[1..], needle);
      assert forall i :: OccursAt(hay[1..], needle, i) <==> OccursAt(hay, needle, i + 1) by {
        forall i ensures OccursAt(hay[1..], needle, i) <==> OccursAt(hay, needle, i + 1) {
          if 0 <= i && i + |needle| <= |hay| - 1 {
            assert hay[1..][i..i + |needle|] == hay[i + 1..i + 1 + |needle|];
          }
        }
      }
      assert !OccursAt(hay, needle, 0);
      assert rest ==> exists i :: OccursAt(hay, needle, i) by {
        if rest {
          var i :| OccursAt(hay[1..], needle, i);
          assert OccursAt(hay, needle, i + 1);
        }
      }
      assert (exists i :: OccursAt(hay, needle, i)) ==> rest by {
        if exists i :: OccursAt(hay, needle, i) {
          var i :| OccursAt(hay, needle, i);
          assert i != 0;
          assert OccursAt(hay[1..], needle, i - 1);
        }
      }
      rest
  }

  /** The empty query occurs in every text, so an empty search keeps everything. */
  lemma EmptyNeedleOccurs(hay: string)
    ensures Contains(hay, "")
  {
    assert OccursAt(hay, "", 0);
  }

  // ---------------------------------------------------------------------
  // Removing records by id: `list.filter(x => x.id !== id)`
  // ---------------------------------------------------------------------

  /** The elements of `s` whose key differs from `x`, in their original order. */
  function Without<T>(s: seq<T>, key: T -> int, x: int): (r: seq<T>)
    ensures |r| <= |s|
    ensures forall i :: 0 <= i < |r| ==> r[i] in s && key(r[i]) != x
    ensures forall i :: 0 <= i < |s| && key(s[i]) != x ==> s[i] in r
  {
    if s == [] then []
    else if key(s[0]) == x then Without(s[1..], key, x)
    else [s[0]] + Without(s[1..], key, x)
  }

  /** Filtering distributes over concatenation: relative order is kept. */
  lemma {:induction false} WithoutAppend<T>(a: seq<T>, b: seq<T>, key: T -> int, x: int)
    ensures Without(a + b, key, x) == Without(a, key, x) + Without(b, key, x)
  {
    if a == [] {
      assert a + b == b;
    } else {
      assert (a + b)[0] == a[0];
      assert (a + b)[1..] == a[1..] + b;
      WithoutAppend(a[1..], b, key, x);
    }
  }

  /** Removing an id that no element carries changes nothing. */
  lemma {:induction false} WithoutAbsent<T>(s: seq<T>, key: T -> int, x: int)
    requires forall i :: 0 <= i < |s| ==> key(s[i]) != x
    ensures Without(s, key, x) == s
  {
    if s != [] {
      WithoutAbsent(s[1..], key, x);
    }
  }

  // ---------------------------------------------------------------------
  // Filtering: `list.filter(keep)`
  // ---------------------------------------------------------------------

  /** The elements of `s` that satisfy `keep`, in their original order. */
  function Filter<T(==)>(s: seq<T>, keep: T -> bool): (r: seq<T>)
    ensures |r| <= |s|
    ensures forall i :: 0 <= i < |r| ==> r[i] in s && keep(r[i])
    ensures forall i :: 0 <= i < |s| && keep(s[i]) ==> s[i] in r
  {
    if s == [] then []
    else if keep(s[0]) then [s[0]] + Filter(s[1..], keep)
    else Filter(s[1..], keep)
  }

  /** Filtering distributes over concatenation, so the relative order of what is kept does not change. */
  lemma {:induction false} FilterAppend<T>(a: seq<T>, b: seq<T>, keep: T -> bool)
    ensures Filter(a + b, keep) == Filter(a, keep) + Filter(b, keep)
  {
    if a == [] {
      assert a + b == b;
    } else {
      assert (a + b)[0] == a[0];
      assert (a + b)[1..] == a[1..] + b;
      FilterAppend(a[1..], b, keep);
    }
  }

  /** When every element passes, filtering keeps the whole list. */
  lemma {:induction false} FilterAll<T>(s: seq<T>, keep: T -> bool)
    requires forall i :: 0 <= i < |s| ==> keep(s[i])
    ensures Filter(s, keep) == s
  {
    if s != [] {
      FilterAll(s[1..], keep);
    }
  }

  // ---------------------------------------------------------------------
  // Decimal integers: template-literal printing and `parseInt`
  // ---------------------------------------------------------------------

  predicate IsDigit(c: char)
  {
    '0' <= c <= '9'
  }

  predicate AllDigits(s: string)
  {
    forall i :: 0 <= i < |s| ==> IsDigit(s[i])
  }

  function DigitChar(d: nat): char
    requires d < 10
  {
    ('0' as int + d) as char
  }

  /** The value of a string of decimal digits. */
  function DigitsValue(s: string): nat
    requires AllDigits(s)
  {
    if s == [] then 0
    else DigitsValue(s[..|s| - 1]) * 10 + (s[|s| - 1] as int - '0' as int)
  }

  /** A non-negative number as JavaScript prints it in a template literal. */
  function NatToString(n: nat): (r: string)
    ensures |r| > 0 && AllDigits(r)
  {
    if n < 10 then [DigitChar(n)] else NatToString(n / 10) + [DigitChar(n % 10)]
  }

  /** Length of the longest prefix of `s` made of decimal digits. */
  function DigitPrefixLen(s: string): (k: nat)
    ensures k <= |s| && AllDigits(s[..k])
    ensures k < |s| ==> !IsDigit(s[k])
  {
    if s == [] || !IsDigit(s[0]) then 0
    else
      var k := 1 + DigitPrefixLen(s[1..]);
      assert s[..k] == [s[0]] + s[1..][..k - 1];
      k
  }

  predicate IsSpace(c: char)
  {
    c == ' ' || c == '\t' || c == '\n' || c == '\r'
  }

  function TrimStart(s: string): (r: string)
    ensures |r| <= |s|
    ensures r == [] || !IsSpace(r[0])
  {
    if s != [] && IsSpace(s[0]) then TrimStart(s[1..]) else s
  }

  /**
   * `parseInt(s)` without a radix: leading white space is skipped, one sign
   * is accepted, and the longest run of digits that follows is read; with no
   * digit the result is NaN, written None.
   */
  function ParseInt(s: string): (r: Option<int>)
    ensures r.None? <==> (var t := TrimStart(s);
                          var u := if t != [] && (t[0] == '-' || t[0] == '+') then t[1..] else t;
                          u == [] || !IsDigit(u[0]))
  {
    ParseSigned(TrimStart(s))
  }

  /** `parseInt` once the blanks are skipped: an optional sign, then the digit run. */
  function ParseSigned(t: string): Option<int>
  {
    if t != [] && (t[0] == '-' || t[0] == '+') then ReadDigits(t[1..], t[0] == '-')
    else ReadDigits(t, false)
  }

  /** The longest run of leading digits as a number, negated when `negative`; None without a digit. */
  function ReadDigits(u: string, negative: bool): Option<int>
  {
    var k := DigitPrefixLen(u);
    if k == 0 then None
    else
      var v: int := DigitsValue(u[..k]);
      Some(if negative then -v else v)
  }

  lemma {:induction false} DigitsValueOfNatToString(n: nat)
    ensures DigitsValue(NatToString(n)) == n
  {
    var s := NatToString(n);
    if n >= 10 {
      DigitsValueOfNatToString(n / 10);
      assert s[..|s| - 1] == NatToString(n / 10);
    }
  }

  /** Printing a number and parsing it back yields the number. */
  lemma ParseIntOfNatToString(n: nat)
    ensures ParseInt(NatToString(n)) == Some(n)
    ensures ParseInt("-" + NatToString(n)) == Some(-(n as int))
  {
    var s := NatToString(n);
    assert DigitPrefixLen(s) == |s| by { AllDigitsPrefixLen(s); }
    assert s[..|s|] == s;
    DigitsValueOfNatToString(n);
    var m := "-" + s;
    assert TrimStart(m) == m;
    assert m[1..] == s;
  }

  lemma {:induction false} AllDigitsPrefixLen(s: string)
    requires AllDigits(s)
    ensures DigitPrefixLen(s) == |s|
  {
    if s != [] {
      AllDigitsPrefixLen(s[1..]);
    }
  }

  /** Leading white space is skipped up to the first character that is not blank. */
  lemma {:induction false} TrimStartSkipsBlanks(ws: string, x: string)
    requires forall i :: 0 <= i < |ws| ==> IsSpace(ws[i])
    requires x == [] || !IsSpace(x[0])
    ensures TrimStart(ws + x) == x
  {
    if ws == [] {
      assert ws + x == x;
    } else {
      assert (ws + x)[1..] == ws[1..] + x;
      TrimStartSkipsBlanks(ws[1..], x);
    }
  }

  /** A run of digits followed by a non-digit (or nothing) is exactly the digit prefix. */
  lemma {:induction false} DigitPrefixLenOfRun(d: string, rest: string)
    requires AllDigits(d)
    requires rest == [] || !IsDigit(rest[0])
    ensures DigitPrefixLen(d + rest) == |d|
  {
    if d == [] {
      assert d + rest == rest;
    } else {
      assert (d + rest)[1..] == d[1..] + rest;
      DigitPrefixLenOfRun(d[1..], rest);
    }
  }

  /**
   * What `parseInt` reads: after blanks and an optional sign, the run of
   * digits up to the first non-digit, negated for '-'; the rest is ignored
   * ("12px" reads 12, " -7 " reads -7).
   */
  lemma ParseIntReadsDigitRun(ws: string, sign: string, d: string, rest: string)
    requires forall i :: 0 <= i < |ws| ==> IsSpace(ws[i])
    requires sign == "" || sign == "+" || sign == "-"
    requires d != [] && AllDigits(d)
    requires rest == [] || !IsDigit(rest[0])
    ensures ParseInt(ws + sign + d + rest) ==
            Some(if sign == "-" then -(DigitsValue(d) as int) else DigitsValue(d) as int)
  {
    var x := sign + d + rest;
    assert ws + sign + d + rest == ws + x;
    if sign == "" {
      assert x == d + rest && x[0] == d[0];
      TrimStartSkipsBlanks(ws, x);
      ParseSignedUnsigned(d, rest);
    } else {
      assert x == [sign[0]] + (d + rest);
      TrimStartSkipsBlanks(ws, x);
      ParseSignedSigned(sign[0], d, rest);
    }
  }

  lemma ParseSignedUnsigned(d: string, rest: string)
    requires d != [] && AllDigits(d)
    requires rest == [] || !IsDigit(rest[0])
    ensures ParseSigned(d + rest) == Some(DigitsValue(d) as int)
  {
    ReadDigitsRun(d, rest, false);
    assert (d + rest)[0] == d[0];
  }

  lemma ParseSignedSigned(c: char, d: string, rest: string)
    requires c == '+' || c == '-'
    requires d != [] && AllDigits(d)
    requires rest == [] || !IsDigit(rest[0])
    ensures ParseSigned([c] + (d + rest)) == Some(if c == '-' then -(DigitsValue(d) as int) else DigitsValue(d) as int)
  {
    ReadDigitsRun(d, rest, c == '-');
    assert ([c] + (d + rest))[1..] == d + rest;
  }

  lemma ReadDigitsRun(d: string, rest: string, negative: bool)
    requires d != [] && AllDigits(d)
    requires rest == [] || !IsDigit(rest[0])
    ensures ReadDigits(d + rest, negative) ==
            Some(if negative then -(DigitsValue(d) as int) else DigitsValue(d) as int)
  {
    DigitPrefixLenOfRun(d, rest);
    assert (d + rest)[..|d|] == d;
  }

  /** Distinct numbers print differently. */
  lemma NatToStringInjective(m: nat, n: nat)
    requires NatToString(m) == NatToString(n)
    ensures m == n
  {
    DigitsValueOfNatToString(m);
    DigitsValueOfNatToString(n);
  }
}
