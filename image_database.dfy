/** File names of image databases (common/image_database.h): route images
    are numbered, grid images are named by their signed (x, y, z) cell. The
    `printf` conversions `%05d` and `%+05d` and the truncation of
    `snprintf` into a fixed buffer are written out over strings. */
module ImageDatabase {
  import opened IntTypes
  import NatArith

  /** 10^k. */
  function Pow10(k: nat): (p: nat)
    ensures p >= 1
  {
    if k == 0 then 1 else 10 * Pow10(k - 1)
  }

  predicate IsDigit(c: char)
  {
    '0' <= c <= '9'
  }

  predicate AllDigits(s: string)
  {
    forall k :: 0 <= k < |s| ==> IsDigit(s[k])
  }

  function DigitChar(d: nat): (c: char)
    requires d < 10
    ensures IsDigit(c) && c as int - '0' as int == d
  {
    (48 + d) as char
  }

  /** The shortest decimal numeral of n, as `printf` writes it. */
  function Digits(n: nat): (s: string)
    ensures 1 <= |s| && AllDigits(s)
    ensures n > 0 ==> s[0] != '0'
  {
    if n < 10 then [DigitChar(n)] else Digits(n / 10) + [DigitChar(n % 10)]
  }

  /** The number a string of decimal digits denotes, leading zeros
      allowed: the reading is independent of how the numeral was written. */
  function DigitsValue(s: string): nat
    requires AllDigits(s)
  {
    if |s| == 0 then 0
    else DigitsValue(s[..|s| - 1]) * 10 + (s[|s| - 1] as int - '0' as int)
  }

  /** k copies of '0'. */
  function Zeros(k: nat): (z: string)
    ensures |z| == k && AllDigits(z) && forall i :: 0 <= i < k ==> z[i] == '0'
  {
    seq(k, _ => '0')
  }

  /** The zero flag with a field width: zeros in front of s up to `width`
      characters. */
  function ZeroPadTo(s: string, width: nat): (r: string)
    ensures |r| == if |s| < width then width else |s|
  {
    if |s| < width then Zeros(width - |s|) + s else s
  }

  /** `snprintf(buf, size, …)`: at most size - 1 characters are kept, the
      last byte of the buffer holding the terminator. */
  function Snprintf(s: string, size: nat): (r: string)
    requires size > 0
    ensures |r| < size
    ensures |s| < size ==> r == s
  {
    if |s| < size then s else s[..size - 1]
  }

  /** `%05d`: a minus sign for negative values, then the magnitude padded
      with zeros so that sign and digits fill at least five characters. */
  function FormatZeroPadded5(v: int): string
  {
    if v < 0 then "-" + ZeroPadTo(Digits(-v), 4) else ZeroPadTo(Digits(v), 5)
  }

  /** `%+05d`: the sign is always written, then the magnitude padded with
      zeros to at least four digits. */
  function FormatSignedZeroPadded5(v: int): string
  {
    (if v < 0 then "-" else "+") + ZeroPadTo(Digits(if v < 0 then -v else v), 4)
  }

  /** An `unsigned int` passed for `%d`: its bits are read as a 32-bit
      two's-complement `int`. */
  function AsSigned32(u: u32): (v: int)
    ensures -TwoTo31 <= v < TwoTo31
    ensures (v - u) % TwoTo32 == 0
    ensures u < TwoTo31 ==> v == u
  {
    if u < TwoTo31 then u else u - TwoTo32
  }

  /** `getRouteDatabaseFilename`, as written: `%05d` of the unsigned
      route index into a 22-byte buffer. */
  function RouteFilename(routeIndex: u32): (r: string)
    ensures |r| < 22
  {
    Snprintf("image_" + FormatZeroPadded5(AsSigned32(routeIndex)) + ".png", 22)
  }

  /** `getRouteDatabaseFilename` with the conversion that matches the
      argument's type (`%05u`). */
  function RouteFilenameCorrected(routeIndex: u32): (r: string)
    ensures |r| < 22
  {
    Snprintf("image_" + ZeroPadTo(Digits(routeIndex), 5) + ".png", 22)
  }

  /** The `zeroPad` lambda: `%+05d` into a 12-byte buffer. */
  function ZeroPad(value: i32): (r: string)
    ensures |r| < 12
  {
    Snprintf(FormatSignedZeroPadded5(value), 12)
  }

  /** `getImageDatabaseFilename`. */
  function ImageFilename(x: i32, y: i32, z: i32): (r: string)
    ensures |r| >= 10 && r[..6] == "image_" && r[|r| - 4..] == ".png"
    ensures r[6..|r| - 4] == ZeroPad(x) + "_" + ZeroPad(y) + "_" + ZeroPad(z)
  {
    var fields := ZeroPad(x) + "_" + ZeroPad(y) + "_" + ZeroPad(z);
    var r := "image_" + fields + ".png";
    assert r[..6] == "image_" && r[6..|r| - 4] == fields && r[|r| - 4..] == ".png";
    r
  }

  // ---------------------------------------------------------------------
  // Numerals

  /** A number below 10^k has at most k digits. */
  lemma {:induction false} DigitsLength(n: nat, k: nat)
    requires 1 <= k && n < Pow10(k)
    ensures |Digits(n)| <= k
  {
    if n >= 10 {
      assert n < Pow10(k - 1) * 10;
      assert (n / 10) * 10 <= n;
      NatArith.MulCancelLess(n / 10, Pow10(k - 1), 10);
      DigitsLength(n / 10, k - 1);
    }
  }

  /** Reading back a numeral gives the number: `Digits` loses nothing. */
  lemma {:induction false} DigitsRoundTrip(n: nat)
    ensures DigitsValue(Digits(n)) == n
  {
    if n >= 10 {
      var s := Digits(n);
      assert s[..|s| - 1] == Digits(n / 10);
      DigitsRoundTrip(n / 10);
    }
  }

  /** A leading zero does not change the value of a numeral. */
  lemma {:induction false} LeadingZeroValue(s: string)
    requires AllDigits(s)
    ensures AllDigits(['0'] + s) && DigitsValue(['0'] + s) == DigitsValue(s)
  {
    if |s| > 0 {
      var t := ['0'] + s;
      assert t[..|t| - 1] == ['0'] + s[..|s| - 1];
      LeadingZeroValue(s[..|s| - 1]);
    }
  }

  /** Zero padding does not change the value of a numeral. */
  lemma {:induction false} ZeroPadValue(s: string, k: nat)
    requires AllDigits(s)
    ensures AllDigits(Zeros(k) + s) && DigitsValue(Zeros(k) + s) == DigitsValue(s)
  {
    if k > 0 {
      ZeroPadValue(s, k - 1);
      var t := Zeros(k - 1) + s;
      LeadingZeroValue(t);
      assert Zeros(k) + s == ['0'] + t;
      calc {
        DigitsValue(Zeros(k) + s);
        DigitsValue(['0'] + t);
        DigitsValue(t);
      }
    } else {
      assert Zeros(k) + s == s;
    }
  }

  /** The padded magnitude is a numeral of at least `width` digits whose
      value is n. */
  lemma PaddedDigits(n: nat, width: nat)
    ensures var p := ZeroPadTo(Digits(n), width);
            AllDigits(p) && width <= |p| && DigitsValue(p) == n
  {
    DigitsRoundTrip(n);
    if |Digits(n)| < width {
      ZeroPadValue(Digits(n), width - |Digits(n)|);
    }
  }

  /** Every 32-bit magnitude, 2^31 included, has at most ten digits. */
  lemma Magnitude32Digits(n: nat)
    requires n <= TwoTo31
    ensures |Digits(n)| <= 10
  {
    assert Pow10(10) == 10000000000;
    DigitsLength(n, 10);
  }

  // ---------------------------------------------------------------------
  // Route database

  /** The 22-byte buffer holds every route file name: at most 21
      characters, so `snprintf` never truncates. */
  lemma RouteFilenameFits(routeIndex: u32)
    ensures var full := "image_" + FormatZeroPadded5(AsSigned32(routeIndex)) + ".png";
            |full| <= 21 && RouteFilename(routeIndex) == full
  {
    var v := AsSigned32(routeIndex);
    Magnitude32Digits(if v < 0 then -v else v);
  }

  /** For indices below 2^31 the route file name is "image_", the
      decimal index zero-padded to at least five digits, and ".png". */
  lemma RouteFilenameShape(routeIndex: u32)
    requires routeIndex < TwoTo31
    ensures var digits := ZeroPadTo(Digits(routeIndex), 5);
            RouteFilename(routeIndex) == "image_" + digits + ".png" &&
            AllDigits(digits) && 5 <= |digits| && DigitsValue(digits) == routeIndex
  {
    RouteFilenameFits(routeIndex);
    PaddedDigits(routeIndex, 5);
  }

  /** Indices below 100000 give file names of exactly 15 characters. */
  lemma RouteFilenameLength(routeIndex: u32)
    requires routeIndex < 100000
    ensures |RouteFilename(routeIndex)| == 15
  {
    assert Pow10(5) == 100000;
    DigitsLength(routeIndex, 5);
    RouteFilenameShape(routeIndex);
  }

  /** As written, every index from 2^31 on (2147483648, say) is printed
      with a minus sign where the corrected name has a digit. */
  lemma RouteFilenameAsWrittenNegative(routeIndex: u32)
    requires routeIndex >= TwoTo31
    ensures RouteFilename(routeIndex)[6] == '-'
    ensures IsDigit(RouteFilenameCorrected(routeIndex)[6])
  {
    RouteFilenameFits(routeIndex);
    RouteFilenameCorrectedShape(routeIndex);
    var digits := ZeroPadTo(Digits(routeIndex), 5);
    assert RouteFilenameCorrected(routeIndex)[6] == digits[0];
  }

  /** With `%05u` every index is printed as its own decimal, zero-padded,
      and the buffer still fits. */
  lemma RouteFilenameCorrectedShape(routeIndex: u32)
    ensures var digits := ZeroPadTo(Digits(routeIndex), 5);
            RouteFilenameCorrected(routeIndex) == "image_" + digits + ".png" &&
            AllDigits(digits) && 5 <= |digits| && DigitsValue(digits) == routeIndex
  {
    assert Pow10(10) == 10000000000;
    DigitsLength(routeIndex, 10);
    PaddedDigits(routeIndex, 5);
  }

  /** Distinct route indices give distinct corrected file names. */
  lemma RouteFilenameCorrectedInjective(i: u32, j: u32)
    requires RouteFilenameCorrected(i) == RouteFilenameCorrected(j)
    ensures i == j
  {
    RouteFilenameCorrectedShape(i);
    RouteFilenameCorrectedShape(j);
    var di, dj := ZeroPadTo(Digits(i), 5), ZeroPadTo(Digits(j), 5);
    var s := RouteFilenameCorrected(i);
    assert di == s[6..|s| - 4];
    assert dj == s[6..|s| - 4];
  }

  // ---------------------------------------------------------------------
  // Grid database

  /** The 12-byte buffer of `zeroPad` holds every `int`, and the field is
      an explicit sign followed by at least four digits whose value is the
      magnitude of the argument. */
  lemma ZeroPadShape(value: i32)
    ensures var p := ZeroPad(value);
            p == FormatSignedZeroPadded5(value) && 5 <= |p| <= 11 &&
            p[0] == (if value < 0 then '-' else '+') &&
            AllDigits(p[1..]) && DigitsValue(p[1..]) == Magnitude(value)
  {
    var m := Magnitude(value);
    Magnitude32Digits(m);
    PaddedDigits(m, 4);
    var f := FormatSignedZeroPadded5(value);
    assert f[1..] == ZeroPadTo(Digits(m), 4);
  }

  /** |value|, outside the range of `i32` for its minimum. */
  function Magnitude(value: i32): (m: nat)
    ensures value >= 0 ==> m == value
    ensures value < 0 ==> m == -(value as int)
  {
    if value < 0 then -(value as int) else value
  }

  /** The field determines the value. */
  lemma ZeroPadInjective(v: i32, w: i32)
    requires ZeroPad(v) == ZeroPad(w)
    ensures v == w
  {
    ZeroPadShape(v);
    ZeroPadShape(w);
  }

  /** A field contains no underscore, so the separators can be found. */
  lemma ZeroPadHasNoSeparator(value: i32)
    ensures '_' !in ZeroPad(value)
  {
    ZeroPadShape(value);
    var p := ZeroPad(value);
    forall k | 1 <= k < |p|
      ensures p[k] != '_'
    {
      assert p[k] == p[1..][k - 1];
    }
  }

  /** The position of the first `sep` in s. */
  function FirstIndex(s: string, sep: char): (i: nat)
    requires sep in s
    ensures i < |s| && s[i] == sep
  {
    if s[0] == sep then 0 else 1 + FirstIndex(s[1..], sep)
  }

  /** The first separator after a separator-free prefix is the one that
      follows it. */
  lemma {:induction false} FirstIndexAfter(a: string, b: string, sep: char)
    requires sep !in a
    ensures sep in a + [sep] + b && FirstIndex(a + [sep] + b, sep) == |a|
  {
    var s := a + [sep] + b;
    assert s[|a|] == sep;
    if |a| > 0 {
      assert s[1..] == a[1..] + [sep] + b;
      FirstIndexAfter(a[1..], b, sep);
    }
  }

  /** Splitting at the first separator: a prefix free of the separator is
      determined by the string. */
  lemma SplitAtSeparator(a: string, b: string, c: string, d: string, sep: char)
    requires sep !in a && sep !in c
    requires a + [sep] + b == c + [sep] + d
    ensures a == c && b == d
  {
    var s := a + [sep] + b;
    FirstIndexAfter(a, b, sep);
    FirstIndexAfter(c, d, sep);
    assert a == s[..|a|];
    assert c == s[..|c|];
    assert b == s[|a| + 1..];
    assert d == s[|c| + 1..];
  }

  /** The three underscore-joined fields of a grid file name are
      determined by the joined string, when the first two contain no
      underscore. */
  lemma GridFieldsDetermined(p: string, q: string, r: string, p': string, q': string, r': string)
    requires '_' !in p && '_' !in q && '_' !in p' && '_' !in q'
    requires p + "_" + q + "_" + r == p' + "_" + q' + "_" + r'
    ensures p == p' && q == q' && r == r'
  {
    var rest, rest' := q + "_" + r, q' + "_" + r';
    assert p + "_" + q + "_" + r == p + "_" + rest;
    assert p' + "_" + q' + "_" + r' == p' + "_" + rest';
    SplitAtSeparator(p, rest, p', rest', '_');
    SplitAtSeparator(q, r, q', r', '_');
  }

  /** Distinct grid cells give distinct file names: the signed fields are
      separated by underscores they cannot contain. */
  lemma ImageFilenameInjective(x: i32, y: i32, z: i32, x': i32, y': i32, z': i32)
    requires ImageFilename(x, y, z) == ImageFilename(x', y', z')
    ensures x == x' && y == y' && z == z'
  {
    ZeroPadHasNoSeparator(x);
    ZeroPadHasNoSeparator(y);
    ZeroPadHasNoSeparator(x');
    ZeroPadHasNoSeparator(y');
    var n, n' := ImageFilename(x, y, z), ImageFilename(x', y', z');
    assert n[6..|n| - 4] == n'[6..|n'| - 4];
    GridFieldsDetermined(ZeroPad(x), ZeroPad(y), ZeroPad(z), ZeroPad(x'), ZeroPad(y'), ZeroPad(z'));
    ZeroPadInjective(x, x');
    ZeroPadInjective(y, y');
    ZeroPadInjective(z, z');
  }

  /** Route image 42 as the route database names it. */
  lemma RouteFilenameExample()
    ensures RouteFilename(42) == "image_00042.png"
  {
    RouteFilenameShape(42);
    assert Digits(42) == Digits(4) + [DigitChar(2)];
    assert ZeroPadTo("42", 5) == "00042";
  }

  /** A one-digit value is padded with three zeros behind its sign. */
  lemma ZeroPadOneDigit(value: i32)
    requires -10 < value < 10
    ensures ZeroPad(value) == (if value < 0 then "-" else "+") + "000" + [DigitChar(Magnitude(value))]
  {
    assert Zeros(3) == "000";
  }

  /** Grid cell (7, -5, 0) as the grid database names it. */
  lemma ImageFilenameExample()
    ensures ImageFilename(7, -5, 0) == "image_+0007_-0005_+0000.png"
  {
    ZeroPadOneDigit(7);
    ZeroPadOneDigit(-5);
    ZeroPadOneDigit(0);
  }
}
