// The text forms the scraper reads and writes: zero-padded numbers, tab-separated records, range
// names, and the byte order of Go strings.
module Text {
  import opened Ranges
  import opened Sorting

  predicate IsDigit(c: char) {
    '0' <= c <= '9'
  }

  predicate AllDigits(s: string) {
    forall i :: 0 <= i < |s| ==> IsDigit(s[i])
  }

  function Digits(n: nat): (s: string)
    ensures |s| > 0 && AllDigits(s)
    ensures s[0] == '0' <==> n == 0
  {
    if n < 10 then [('0' as int + n) as char]
    else Digits(n / 10) + [('0' as int + n % 10) as char]
  }

  function Zeros(k: nat): (s: string)
    ensures |s| == k && forall i :: 0 <= i < k ==> s[i] == '0'
  {
    seq(k, _ => '0')
  }

  // fmt's %0<width>d.
  function Pad(n: nat, width: nat): (s: string)
    ensures |s| >= width && |s| > 0 && AllDigits(s)
  {
    var d := Digits(n);
    if |d| < width then Zeros(width - |d|) + d else d
  }

  // strings.TrimLeft(s, "0")
  function TrimZeros(s: string): (t: string)
    ensures t == "" || t[0] != '0'
  {
    if s != "" && s[0] == '0' then TrimZeros(s[1..]) else s
  }

  function Value(s: string): nat
    requires AllDigits(s)
  {
    if s == "" then 0
    else Value(s[..|s| - 1]) * 10 + (s[|s| - 1] as int - '0' as int)
  }

  // base.MustParseBlknum: a syntax error (the empty string is one) gives 0, an overflow the maximum.
  function ParseUint(s: string): (n: nat)
    ensures n <= NOPOSN
  {
    if s == "" || !AllDigits(s) then 0
    else if Value(s) <= NOPOSN then Value(s)
    else NOPOSN
  }

  lemma {:induction false} ValueOfDigits(n: nat)
    ensures Value(Digits(n)) == n
  {
    if n >= 10 {
      ValueOfDigits(n / 10);
      var d := Digits(n);
      assert d[..|d| - 1] == Digits(n / 10);
    }
  }

  lemma {:induction false} TrimPadding(k: nat, s: string)
    ensures TrimZeros(Zeros(k) + s) == TrimZeros(s)
  {
    if k == 0 {
      assert Zeros(k) + s == s;
    } else {
      assert (Zeros(k) + s)[1..] == Zeros(k - 1) + s;
      TrimPadding(k - 1, s);
    }
  }

  // Block zero is printed as zeros only; stripped of them it is the empty string, which parses to 0.
  lemma {:induction false} ParsePad(n: nat, width: nat)
    requires n <= NOPOSN
    ensures ParseUint(TrimZeros(Pad(n, width))) == n
  {
    var d := Digits(n);
    if |d| < width {
      TrimPadding(width - |d|, d);
    }
    ValueOfDigits(n);
    if n == 0 {
      assert d == "0" && TrimZeros(d[1..]) == "";
    }
  }

  function Pow10(k: nat): (p: nat)
    ensures p >= 1
  {
    if k == 0 then 1 else 10 * Pow10(k - 1)
  }

  lemma {:induction false} DigitsLength(n: nat, width: nat)
    requires width > 0
    ensures |Digits(n)| <= width <==> n < Pow10(width)
  {
    if n < 10 {
      assert Pow10(width) >= 10;
    } else if width == 1 {
      assert Pow10(1) == 10 && |Digits(n)| == |Digits(n / 10)| + 1;
    } else {
      DigitsLength(n / 10, width - 1);
      assert n / 10 < Pow10(width - 1) <==> n < 10 * Pow10(width - 1);
    }
  }

  lemma {:induction false} ValuePadding(k: nat, s: string)
    requires AllDigits(s)
    ensures AllDigits(Zeros(k) + s) && Value(Zeros(k) + s) == Value(s)
    decreases |s| + k
  {
    var z := Zeros(k) + s;
    if s != "" {
      assert z[..|z| - 1] == Zeros(k) + s[..|s| - 1];
      ValuePadding(k, s[..|s| - 1]);
    } else if k > 0 {
      assert z[..|z| - 1] == Zeros(k - 1) + s;
      ValuePadding(k - 1, s);
    }
  }

  lemma {:induction false} PadExact(n: nat, width: nat)
    requires 0 < width && n < Pow10(width)
    ensures |Pad(n, width)| == width && Value(Pad(n, width)) == n
  {
    DigitsLength(n, width);
    ValueOfDigits(n);
    if |Digits(n)| < width {
      ValuePadding(width - |Digits(n)|, Digits(n));
    }
  }

  // The decimal digits of a padded number, from the last one on.
  lemma {:induction false} DigitOf(n: nat, k: nat)
    requires k < |Digits(n)|
    ensures Digits(n)[|Digits(n)| - 1 - k] as int == 48 + n / Pow10(k) % 10
  {
    if k == 0 {
      assert n / 1 == n;
    } else {
      assert n >= 10;
      DigitOf(n / 10, k - 1);
      DivDiv(n, Pow10(k - 1));
      assert Digits(n)[|Digits(n)| - 1 - k] == Digits(n / 10)[|Digits(n / 10)| - 1 - (k - 1)];
    }
  }

  lemma DivDiv(n: nat, m: nat)
    requires m > 0
    ensures n / (10 * m) == (n / 10) / m
  {
    var q, r := n / (10 * m), n % (10 * m);
    assert n == 10 * m * q + r;
    var q', r' := (n / 10) / m, (n / 10) % m;
    assert n / 10 == m * q' + r';
    assert n == 10 * (m * q' + r') + n % 10;
    assert 10 * m * q' <= n < 10 * m * q' + 10 * m;
    SameQuotient(n, 10 * m, q, q');
  }

  lemma SameQuotient(n: nat, d: nat, q: int, q': int)
    requires d > 0 && d * q <= n < d * q + d && d * q' <= n < d * q' + d
    ensures q == q'
  {
    assert d * (q - q') == d * q - d * q' && d * (q' - q) == d * q' - d * q;
    if q > q' {
      AtLeastOnce(d, q - q');
    } else if q < q' {
      AtLeastOnce(d, q' - q);
    }
  }

  lemma AtLeastOnce(d: nat, times: nat)
    requires times >= 1
    ensures d * times >= d
  {
  }

  // %0<width>d: at least `width` characters, each the decimal digit of its place.
  lemma PadMeans(n: nat, width: nat, k: nat)
    requires k < |Pad(n, width)|
    ensures Pad(n, width)[|Pad(n, width)| - 1 - k] as int == 48 + n / Pow10(k) % 10
    ensures |Pad(n, width)| > width ==> Pad(n, width)[0] != '0' || n == 0
  {
    hide Digits, Pow10;
    var d := Digits(n);
    if k < |d| {
      DigitOf(n, k);
      assert Pad(n, width)[|Pad(n, width)| - 1 - k] == d[|d| - 1 - k];
    } else {
      DigitsLength(n, |d|);
      PowGrows(|d|, k);
      Small(n, Pow10(k));
      assert Pad(n, width)[|Pad(n, width)| - 1 - k] == Zeros(width - |d|)[width - 1 - k];
    }
  }

  lemma Small(n: nat, m: nat)
    requires n < m
    ensures n / m == 0
  {
  }

  lemma {:induction false} PowGrows(j: nat, k: nat)
    requires j <= k
    ensures Pow10(j) <= Pow10(k)
    decreases k
  {
    if j < k {
      PowGrows(j, k - 1);
    }
  }

  lemma {:induction false} TrimValue(s: string)
    requires AllDigits(s)
    ensures AllDigits(TrimZeros(s)) && Value(TrimZeros(s)) == Value(s)
  {
    if s != "" && s[0] == '0' {
      TrimValue(s[1..]);
      ValuePadding(1, s[1..]);
      assert Zeros(1) + s[1..] == s;
    }
  }

  lemma {:induction false} TrimDigits(s: string)
    ensures AllDigits(s) <==> AllDigits(TrimZeros(s))
  {
    if s != "" && s[0] == '0' {
      TrimDigits(s[1..]);
      assert s == [s[0]] + s[1..];
      assert AllDigits(s[1..]) ==> AllDigits(s);
    }
  }

  // A number field: decimal digits, leading zeros or not, give their value, which cannot exceed the
  // largest uint64; anything else gives zero.
  lemma NumberMeans(s: string)
    ensures ParseUint(TrimZeros(s)) ==
            if forall i :: 0 <= i < |s| ==> '0' <= s[i] <= '9'
            then (if Value(s) > 18446744073709551615 then 18446744073709551615 else Value(s))
            else 0
  {
    TrimDigits(s);
    if AllDigits(s) {
      TrimValue(s);
    }
  }

  // ---- The order of Go strings ----

  predicate StringLeq(s: string, t: string) {
    if s == "" then true
    else if t == "" then false
    else if s[0] != t[0] then s[0] < t[0]
    else StringLeq(s[1..], t[1..])
  }

  lemma {:induction false} LeqAntisymmetric(s: string, t: string)
    requires StringLeq(s, t) && StringLeq(t, s)
    ensures s == t
  {
    if s != "" && t != "" {
      LeqAntisymmetric(s[1..], t[1..]);
      assert s == [s[0]] + s[1..] && t == [t[0]] + t[1..];
    }
  }

  lemma {:induction false} LeqTransitive(s: string, t: string, u: string)
    requires StringLeq(s, t) && StringLeq(t, u)
    ensures StringLeq(s, u)
  {
    if s != "" && s[0] == t[0] && t[0] == u[0] {
      LeqTransitive(s[1..], t[1..], u[1..]);
    }
  }

  lemma {:induction false} LeqTotal(s: string, t: string)
    ensures StringLeq(s, t) || StringLeq(t, s)
  {
    if s != "" && t != "" && s[0] == t[0] {
      LeqTotal(s[1..], t[1..]);
    }
  }

  lemma StringOrderIsTotal()
    ensures TotalOrder(StringLeq)
  {
    forall s, t ensures StringLeq(s, t) || StringLeq(t, s) { LeqTotal(s, t); }
    forall s, t | StringLeq(s, t) && StringLeq(t, s) ensures s == t { LeqAntisymmetric(s, t); }
    forall s, t, u | StringLeq(s, t) && StringLeq(t, u) ensures StringLeq(s, u) { LeqTransitive(s, t, u); }
  }

  // Equally long first fields decide; if they are the same, the rest decides.
  lemma {:induction false} LeqByField(a: string, b: string, x: string, y: string)
    requires |a| == |b|
    ensures StringLeq(a + x, b + y) <==> if a == b then StringLeq(x, y) else StringLeq(a, b)
  {
    if a == "" {
      assert a + x == x && b + y == y;
    } else {
      assert (a + x)[1..] == a[1..] + x && (b + y)[1..] == b[1..] + y;
      LeqByField(a[1..], b[1..], x, y);
      assert a == [a[0]] + a[1..] && b == [b[0]] + b[1..];
    }
  }

  // Digit strings of one length are ordered as the numbers they denote.
  lemma {:induction false} DigitOrder(s: string, t: string)
    requires AllDigits(s) && AllDigits(t) && |s| == |t|
    ensures StringLeq(s, t) <==> Value(s) <= Value(t)
    ensures s == t <==> Value(s) == Value(t)
  {
    if s != "" {
      var k := |s| - 1;
      DigitOrder(s[..k], t[..k]);
      LeqByField(s[..k], t[..k], [s[k]], [t[k]]);
      assert s == s[..k] + [s[k]] && t == t[..k] + [t[k]];
    }
  }

  lemma PadOrder(m: nat, n: nat, width: nat)
    requires 0 < width && m < Pow10(width) && n < Pow10(width)
    ensures StringLeq(Pad(m, width), Pad(n, width)) <==> m <= n
    ensures Pad(m, width) == Pad(n, width) <==> m == n
    ensures |Pad(m, width)| == |Pad(n, width)| == width
  {
    PadExact(m, width);
    PadExact(n, width);
    DigitOrder(Pad(m, width), Pad(n, width));
  }

  // FileRange.String
  function RangeName(r: FileRange): string {
    Pad(r.first, 9) + ("-" + Pad(r.last, 9))
  }

  // For block numbers of at most nine digits, range names sort as (first, last) pairs do.
  lemma RangeOrder(a: FileRange, b: FileRange)
    requires a.first < 1_000_000_000 && a.last < 1_000_000_000
    requires b.first < 1_000_000_000 && b.last < 1_000_000_000
    ensures StringLeq(RangeName(a), RangeName(b)) <==> RangeLeq(a, b)
    ensures RangeName(a) == RangeName(b) <==> a == b
  {
    assert Pow10(9) == 1_000_000_000;
    PadOrder(a.first, b.first, 9);
    PadOrder(a.last, b.last, 9);
    LeqByField(Pad(a.first, 9), Pad(b.first, 9), "-" + Pad(a.last, 9), "-" + Pad(b.last, 9));
    LeqByField("-", "-", Pad(a.last, 9), Pad(b.last, 9));
    assert RangeName(a)[..9] == Pad(a.first, 9) && RangeName(b)[..9] == Pad(b.first, 9);
    assert RangeName(a)[10..] == Pad(a.last, 9) && RangeName(b)[10..] == Pad(b.last, 9);
  }

  // ---- Fields ----

  // strings.Split for a one-character separator
  function Split(s: string, sep: char): (parts: seq<string>)
    ensures |parts| > 0
    ensures forall i :: 0 <= i < |parts| ==> sep !in parts[i]
  {
    if s == "" then [""]
    else
      var rest := Split(s[1..], sep);
      if s[0] == sep then [""] + rest else [[s[0]] + rest[0]] + rest[1..]
  }

  lemma {:induction false} SplitField(field: string, sep: char)
    requires sep !in field
    ensures Split(field, sep) == [field]
  {
    if field != "" {
      SplitField(field[1..], sep);
      assert [field[0]] + field[1..] == field;
      assert Split(field[1..], sep)[1..] == [];
    }
  }

  lemma {:induction false} SplitJoin(field: string, rest: string, sep: char)
    requires sep !in field
    ensures Split(field + ([sep] + rest), sep) == [field] + Split(rest, sep)
  {
    var s := field + ([sep] + rest);
    if field == "" {
      assert s == [sep] + rest && s[1..] == rest;
    } else {
      SplitJoin(field[1..], rest, sep);
      assert s[1..] == field[1..] + ([sep] + rest);
      assert [field[0]] + field[1..] == field;
    }
  }

  // The fields of a string are what the separators leave.
  lemma {:induction false} SplitCount(s: string, sep: char)
    ensures |Split(s, sep)| == multiset(s)[sep] + 1
  {
    if s != "" {
      SplitCount(s[1..], sep);
      assert s == [s[0]] + s[1..];
      assert multiset(s) == multiset{s[0]} + multiset(s[1..]);
    }
  }

  function LowerChar(c: char): char {
    if 'A' <= c <= 'Z' then (c as int + 32) as char else c
  }

  // strings.ToLower on ASCII text
  function ToLower(s: string): (t: string)
    ensures |t| == |s| && forall i :: 0 <= i < |s| ==> t[i] == LowerChar(s[i])
  {
    seq(|s|, i requires 0 <= i < |s| => LowerChar(s[i]))
  }
}
