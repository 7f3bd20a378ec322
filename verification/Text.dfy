/**
 Strings as the Rust code sees them: byte lengths of UTF-8 text and the binary
 order of keys. A `char` is a Unicode scalar value, and UTF-8 preserves the order
 of scalar values, so comparing characters is comparing bytes.
 */
module Text {
  /** The number of bytes UTF-8 uses for one scalar value. */
  function Utf8Len(c: char): nat {
    if c as int < 0x80 then 1 else if c as int < 0x800 then 2 else if c as int < 0x1_0000 then 3 else 4
  }

  /** One byte carries 7 bits of a scalar value, two carry 11, three 16, and four the rest. */
  lemma Utf8Capacity(c: char)
    ensures Utf8Len(c) == 1 <==> c as int < 128
    ensures Utf8Len(c) == 2 <==> 128 <= c as int < 128 * 16
    ensures Utf8Len(c) == 3 <==> 128 * 16 <= c as int < 256 * 256
    ensures Utf8Len(c) == 4 <==> 256 * 256 <= c as int
  {
  }

  /** `str::len`: the length of the UTF-8 encoding. */
  function Bytes(s: string): nat {
    if s == "" then 0 else Utf8Len(s[0]) + Bytes(s[1..])
  }

  lemma {:induction false} BytesConcat(a: string, b: string)
    ensures Bytes(a + b) == Bytes(a) + Bytes(b)
  {
    if a == "" {
      assert a + b == b;
    } else {
      assert (a + b)[1..] == a[1..] + b;
      BytesConcat(a[1..], b);
    }
  }

  /** `a < b` for keys of a `BTreeMap<String, _>` and for SQLite's binary collation. */
  predicate Less(a: string, b: string) {
    if b == "" then false
    else if a == "" then true
    else a[0] < b[0] || (a[0] == b[0] && Less(a[1..], b[1..]))
  }

  predicate AtMost(a: string, b: string) {
    a == b || Less(a, b)
  }

  lemma {:induction false} LessTransitive(a: string, b: string, c: string)
    requires Less(a, b) && Less(b, c)
    ensures Less(a, c)
  {
    if a != "" && a[0] == b[0] && b[0] == c[0] {
      LessTransitive(a[1..], b[1..], c[1..]);
    }
  }

  lemma {:induction false} LessTotal(a: string, b: string)
    ensures Less(a, b) || a == b || Less(b, a)
    ensures !(Less(a, b) && Less(b, a))
    ensures !Less(a, a)
  {
    if a != "" && b != "" {
      LessTotal(a[1..], b[1..]);
      if a[0] == b[0] && a[1..] == b[1..] {
        assert a == [a[0]] + a[1..] == [b[0]] + b[1..] == b;
      }
    }
    IrreflexiveLess(a);
  }

  lemma {:induction false} IrreflexiveLess(a: string)
    ensures !Less(a, a)
  {
    if a != "" {
      IrreflexiveLess(a[1..]);
    }
  }

  /** Every extension of a prefix comes at or after it. */
  lemma {:induction false} PrefixAtMost(p: string, s: string)
    requires p <= s
    ensures AtMost(p, s)
  {
    if p == "" {
      if s != "" {}
    } else {
      PrefixAtMost(p[1..], s[1..]);
      if p[1..] == s[1..] {
        assert p == [p[0]] + p[1..] == [s[0]] + s[1..] == s;
      }
    }
  }

  /** Strings carrying a prefix form an interval: nothing without it lies between. */
  lemma {:induction false} PrefixInterval(p: string, x: string, s: string)
    requires p <= s && AtMost(p, x) && AtMost(x, s)
    ensures p <= x
  {
    if x == s {
      return;
    }
    if p != "" && p != x {
      assert x != "";
      assert p[0] == s[0];
      assert x[0] == p[0];
      var p', x', s' := p[1..], x[1..], s[1..];
      assert p' <= s';
      PrefixInterval(p', x', s');
      assert p == [p[0]] + p' && x == [x[0]] + x';
    }
  }

  /** The half-open range from `p/` to `p0`, as queried over binary-collated paths. */
  predicate InSlashRange(p: string, s: string) {
    AtMost(p + "/", s) && Less(s, p + "0")
  }

  /** `'0'` is the successor of `'/'`: the range selects exactly the strings under `p/`. */
  lemma {:induction false} SlashRangeIsPrefix(p: string, s: string)
    ensures InSlashRange(p, s) <==> p + "/" <= s
  {
    if p == "" {
      SlashRangeAtRoot(s);
    } else if s != "" && s[0] == p[0] {
      SlashRangeIsPrefix(p[1..], s[1..]);
      assert (p + "/")[1..] == p[1..] + "/" && (p + "0")[1..] == p[1..] + "0";
      var q := p[1..] + "/";
      assert s == [s[0]] + s[1..] && p + "/" == [p[0]] + q;
      assert p + "/" == s <==> q == s[1..];
      assert p + "/" <= s <==> q <= s[1..];
    } else {
      assert (p + "/")[0] == p[0] && (p + "0")[0] == p[0];
    }
  }

  lemma SlashRangeAtRoot(s: string)
    ensures InSlashRange("", s) <==> "/" <= s
  {
    assert "" + "/" == "/" && "" + "0" == "0";
    if s != "" {
      assert Less(s, "0") <==> s[0] < '0' || (s[0] == '0' && Less(s[1..], ""));
      assert Less("/", s) <==> '/' < s[0] || (s[0] == '/' && Less("", s[1..]));
      if s[0] == '/' && s[1..] == "" {
        assert s == "/";
      }
      assert '/' as int + 1 == '0' as int;
    }
  }

  // ---------------------------------------------------------------- decimal numerals

  function Decimal(n: nat): string {
    if n < 10 then ["0123456789"[n]] else Decimal(n / 10) + ["0123456789"[n % 10]]
  }

  lemma {:induction false} DecimalInjective(a: nat, b: nat)
    requires Decimal(a) == Decimal(b)
    ensures a == b
    decreases a
  {
    DecimalLength(a);
    DecimalLength(b);
    var da, db := Decimal(a), Decimal(b);
    assert da[|da| - 1] == "0123456789"[a % 10] && db[|db| - 1] == "0123456789"[b % 10];
    if a >= 10 {
      assert da[..|da| - 1] == Decimal(a / 10) && db[..|db| - 1] == Decimal(b / 10);
      DecimalInjective(a / 10, b / 10);
    }
  }

  lemma DecimalLength(n: nat)
    ensures |Decimal(n)| >= 1 && (n >= 10 <==> |Decimal(n)| >= 2)
  {
  }

  predicate Digits(s: string) {
    forall i :: 0 <= i < |s| ==> '0' <= s[i] <= '9'
  }

  function ParseNat(s: string): nat
    requires Digits(s)
  {
    if s == "" then 0 else 10 * ParseNat(s[..|s| - 1]) + (s[|s| - 1] as int - '0' as int)
  }

  /** Reading back what was written gives the number. */
  lemma {:induction false} DecimalReads(n: nat)
    ensures Digits(Decimal(n)) && ParseNat(Decimal(n)) == n
    ensures n > 0 ==> Decimal(n)[0] != '0'
    decreases n
  {
    DecimalLength(n);
    var d := Decimal(n);
    var last := "0123456789"[n % 10];
    assert last as int - '0' as int == n % 10;
    if n >= 10 {
      DecimalReads(n / 10);
      assert d[..|d| - 1] == Decimal(n / 10) && d[|d| - 1] == last;
      assert d[0] == Decimal(n / 10)[0];
    } else {
      assert d == [last] && d[..0] == "";
    }
  }

  /** Digits without a leading zero are the numeral of the number they read as. */
  lemma {:induction false} NumeralWrites(s: string)
    requires Digits(s) && s != "" && (|s| > 1 ==> s[0] != '0')
    ensures Decimal(ParseNat(s)) == s
    decreases |s|
  {
    hide Decimal;
    var front, last := s[..|s| - 1], s[|s| - 1];
    var digit := last as int - '0' as int;
    assert s == front + [last];
    DigitChar(last);
    assert ParseNat(s) == 10 * ParseNat(front) + digit;
    if |s| > 1 {
      NumeralWrites(front);
      NumeralPositive(front);
      DecimalGrows(ParseNat(front), digit);
    } else {
      assert front == "";
      DecimalDigit(digit);
    }
  }

  lemma DecimalDigit(digit: nat)
    requires digit < 10
    ensures Decimal(digit) == ["0123456789"[digit]]
  {
  }

  lemma DigitChar(c: char)
    requires '0' <= c <= '9'
    ensures "0123456789"[c as int - '0' as int] == c
  {
  }

  /** One more digit at the end of a numeral. */
  lemma DecimalGrows(n: nat, digit: nat)
    requires n > 0 && digit < 10
    ensures Decimal(10 * n + digit) == Decimal(n) + ["0123456789"[digit]]
  {
    assert (10 * n + digit) / 10 == n && (10 * n + digit) % 10 == digit;
  }

  lemma {:induction false} NumeralPositive(s: string)
    requires Digits(s) && s != "" && s[0] != '0'
    ensures ParseNat(s) > 0
    decreases |s|
  {
    if |s| > 1 {
      NumeralPositive(s[..|s| - 1]);
    }
  }
}
