/** Text helpers: decimal numerals, positions of characters, and the order of texts. */
module Text {

  predicate IsDigit(c: char) {
    '0' <= c <= '9'
  }

  predicate AllDigits(s: string) {
    s != "" && forall i :: 0 <= i < |s| ==> IsDigit(s[i])
  }

  function DigitValue(c: char): (value: nat)
    requires IsDigit(c)
    ensures value < 10
  {
    c as int - '0' as int
  }

  /** The number a digit string denotes; the empty string denotes zero. */
  function NumeralValue(s: string): nat
    requires forall i :: 0 <= i < |s| ==> IsDigit(s[i])
  {
    if s == "" then 0
    else 10 * NumeralValue(s[..|s| - 1]) + DigitValue(s[|s| - 1])
  }

  function DigitChar(digit: nat): (c: char)
    requires digit < 10
    ensures IsDigit(c) && DigitValue(c) == digit
  {
    ('0' as int + digit) as char
  }

  function Decimal(n: nat): (s: string)
    ensures AllDigits(s)
  {
    if n < 10 then [DigitChar(n)] else Decimal(n / 10) + [DigitChar(n % 10)]
  }

  lemma NumeralAppend(s: string, c: char)
    requires (forall i :: 0 <= i < |s| ==> IsDigit(s[i])) && IsDigit(c)
    ensures NumeralValue(s + [c]) == 10 * NumeralValue(s) + DigitValue(c)
  {
    assert (s + [c])[..|s + [c]| - 1] == s;
  }

  lemma {:induction false} DecimalValue(n: nat)
    ensures NumeralValue(Decimal(n)) == n
  {
    if n < 10 {
      NumeralAppend("", DigitChar(n));
      assert Decimal(n) == "" + [DigitChar(n)];
    } else {
      DecimalValue(n / 10);
      NumeralAppend(Decimal(n / 10), DigitChar(n % 10));
    }
  }

  const DIGITS := "0123456789"

  function Power10(k: nat): (p: nat)
    ensures p > 0
  {
    if k == 0 then 1 else 10 * Power10(k - 1)
  }

  /** Digit characters mean what they show. */
  lemma DigitTable(d: nat)
    requires d < 10
    ensures DigitChar(d) == DIGITS[d] && IsDigit(DIGITS[d]) && DigitValue(DIGITS[d]) == d
  {
  }

  lemma DividedAgain(n: nat, p: nat)
    requires p > 0
    ensures n / 10 / p == n / (10 * p)
  {
    var q, r := n / (10 * p), n % (10 * p);
    assert n == 10 * (p * q) + r && 0 <= r < 10 * p;
    assert n / 10 == p * q + r / 10 && 0 <= r / 10 < p;
    Quotient(n / 10, p, q, r / 10);
  }

  /** A multiple of `p` closer to zero than `p` is zero. */
  lemma Multiple(p: int, d: int)
    requires p > 0 && -p < p * d < p
    ensures d == 0
  {
    AtLeastOnce(p, d);
    AtLeastOnce(p, -d);
    assert p * -d == -(p * d);
  }

  lemma {:induction false} AtLeastOnce(p: int, d: int)
    requires p > 0
    ensures d > 0 ==> p * d >= p
    decreases if d > 0 then d else 0
  {
    if d > 1 {
      AtLeastOnce(p, d - 1);
      assert p * d == p * (d - 1) + p;
    }
  }

  lemma Quotient(n: nat, p: nat, q: nat, r: nat)
    requires n == p * q + r && r < p
    ensures n / p == q
  {
    var d := n / p;
    assert n == p * d + n % p;
    assert p * (q - d) == n % p - r;
    Multiple(p, q - d);
  }

  lemma Shifted(n: nat, k: nat)
    requires k > 0
    ensures n / Power10(k) == n / 10 / Power10(k - 1)
  {
    DividedAgain(n, Power10(k - 1));
  }

  /** The digit of a printed number at place `k` from the right. */
  lemma {:induction false} DigitAt(n: nat, k: nat)
    requires k < |Decimal(n)|
    ensures Decimal(n)[|Decimal(n)| - 1 - k] == DIGITS[n / Power10(k) % 10]
    decreases k
  {
    if k == 0 {
      DigitTable(n % 10);
    } else {
      Shifted(n, k);
      DigitAt(n / 10, k - 1);
      PrintedFront(n);
    }
  }

  lemma PrintedFront(n: nat)
    requires |Decimal(n)| > 1
    ensures n >= 10 && Decimal(n)[..|Decimal(n)| - 1] == Decimal(n / 10)
  {
  }

  lemma {:induction false} NoLeadingZero(n: nat)
    ensures n < Power10(|Decimal(n)|) && (n > 0 ==> Decimal(n)[0] != '0')
  {
    if n >= 10 {
      NoLeadingZero(n / 10);
    } else {
      assert Power10(1) == 10 * Power10(0);
    }
  }

  /** A printed number shows its decimal digits, the last one first, and no leading zero. */
  lemma DecimalDigits(n: nat)
    ensures n < Power10(|Decimal(n)|) && (n > 0 ==> Decimal(n)[0] != '0')
    ensures forall k :: 0 <= k < |Decimal(n)| ==> Decimal(n)[|Decimal(n)| - 1 - k] == DIGITS[n / Power10(k) % 10]
  {
    NoLeadingZero(n);
    forall k | 0 <= k < |Decimal(n)| ensures Decimal(n)[|Decimal(n)| - 1 - k] == DIGITS[n / Power10(k) % 10] {
      DigitAt(n, k);
    }
  }

  /** The number a digit string shows, each digit counted by its place. */
  function Positional(s: string): int
    requires forall i :: 0 <= i < |s| ==> IsDigit(s[i])
  {
    if s == "" then 0 else (s[0] as int - '0' as int) * Power10(|s| - 1) + Positional(s[1..])
  }

  lemma {:induction false} PositionalAppend(s: string, c: char)
    requires (forall i :: 0 <= i < |s| ==> IsDigit(s[i])) && IsDigit(c)
    ensures Positional(s + [c]) == 10 * Positional(s) + (c as int - '0' as int)
    decreases |s|
  {
    if s == "" {
      assert ("" + [c])[1..] == "" && Power10(0) == 1;
    } else {
      var first, rest := s[0] as int - '0' as int, s[1..];
      PositionalAppend(rest, c);
      assert (s + [c])[0] == s[0] && (s + [c])[1..] == rest + [c];
      assert Power10(|s|) == 10 * Power10(|rest|);
      TimesTen(first, Power10(|rest|));
    }
  }

  lemma TimesTen(digit: int, p: int)
    ensures digit * (10 * p) == 10 * (digit * p)
  {
  }

  /** Reading from the left and counting by place agree on every digit string, leading zeros included. */
  lemma {:induction false} NumeralIsPositional(s: string)
    requires forall i :: 0 <= i < |s| ==> IsDigit(s[i])
    ensures NumeralValue(s) == Positional(s)
    decreases |s|
  {
    if s != "" {
      var front := s[..|s| - 1];
      NumeralIsPositional(front);
      PositionalAppend(front, s[|s| - 1]);
      assert s == front + [s[|s| - 1]];
    }
  }

  /** Distinct numbers print differently. */
  lemma DecimalInjective(m: nat, n: nat)
    requires Decimal(m) == Decimal(n)
    ensures m == n
  {
    DecimalValue(m);
    DecimalValue(n);
  }

  /** Two texts that agree, each cut at its first slash, agree on both sides of the cut. */
  lemma SameBeforeSlash(s: string, t: string, x: string, y: string)
    requires '/' !in s && '/' !in t && s + x == t + y && x != "" && y != "" && x[0] == '/' && y[0] == '/'
    ensures s == t && x == y
  {
    assert (s + x)[|s|] == '/' && (t + y)[|t|] == '/';
    assert forall i :: 0 <= i < |t| ==> (t + y)[i] == t[i] != '/';
    assert forall i :: 0 <= i < |s| ==> (s + x)[i] == s[i] != '/';
    assert |s| == |t|;
    assert (s + x)[..|s|] == s && (t + y)[..|t|] == t;
    assert (s + x)[|s|..] == x && (t + y)[|t|..] == y;
  }

  lemma SameAfterPrefix(prefix: string, x: string, y: string)
    requires prefix + x == prefix + y
    ensures x == y
  {
    assert (prefix + x)[|prefix|..] == x && (prefix + y)[|prefix|..] == y;
  }

  lemma SameBeforeSuffix(suffix: string, x: string, y: string)
    requires x + suffix == y + suffix
    ensures x == y
  {
    assert (x + suffix)[..|x|] == x && (y + suffix)[..|y|] == y;
  }

  /** Position of the last occurrence, or -1; `std::string::npos + 1` is then 0 as well. */
  function LastIndexOf(s: string, c: char): (k: int)
    ensures -1 <= k < |s|
    ensures k >= 0 ==> s[k] == c
    ensures forall i :: k < i < |s| ==> s[i] != c
  {
    if s == "" then -1
    else if s[|s| - 1] == c then |s| - 1
    else LastIndexOf(s[..|s| - 1], c)
  }

  // ----------------------------------------------------------------- order

  /** `std::string`'s order: lexicographic by byte. */
  predicate Less(a: string, b: string) {
    b != "" && (a == "" || a[0] < b[0] || (a[0] == b[0] && Less(a[1..], b[1..])))
  }

  /** The texts agree before position `k`, and there the first ends or has the smaller character. */
  predicate DiffersAt(a: string, b: string, k: nat) {
    k <= |a| && k < |b| && a[..k] == b[..k] && (k == |a| || a[k] < b[k])
  }

  lemma SameHead(a: string, b: string, k: nat)
    requires DiffersAt(a, b, k)
    ensures k > 0 ==> a[0] == b[0]
  {
    if k > 0 {
      assert a[..k][0] == a[0] && b[..k][0] == b[0];
    }
  }

  /** One text is less than another exactly when it is a proper prefix of it or smaller where they first differ. */
  lemma {:induction false} LessIffDiffers(a: string, b: string)
    ensures Less(a, b) <==> exists k: nat :: DiffersAt(a, b, k)
    decreases |a|
  {
    if a != "" && b != "" && a[0] == b[0] {
      LessIffDiffers(a[1..], b[1..]);
      if Less(a[1..], b[1..]) {
        var k: nat :| DiffersAt(a[1..], b[1..], k);
        assert a[..k + 1] == [a[0]] + a[1..][..k] && b[..k + 1] == [b[0]] + b[1..][..k];
        assert DiffersAt(a, b, k + 1);
      }
      if k: nat :| DiffersAt(a, b, k) {
        assert k > 0;
        assert a[1..][..k - 1] == a[..k][1..] && b[1..][..k - 1] == b[..k][1..];
        assert DiffersAt(a[1..], b[1..], k - 1);
      }
    } else {
      if Less(a, b) {
        assert DiffersAt(a, b, 0);
      }
      if k: nat :| DiffersAt(a, b, k) {
        SameHead(a, b, k);
      }
    }
  }

  lemma {:induction false} LessTrichotomy(a: string, b: string)
    ensures a != b ==> Less(a, b) || Less(b, a)
    ensures !(Less(a, b) && Less(b, a))
    decreases |a| + |b|
  {
    if a != "" && b != "" && a[0] == b[0] {
      LessTrichotomy(a[1..], b[1..]);
      assert a == [a[0]] + a[1..] && b == [b[0]] + b[1..];
    }
  }

  lemma {:induction false} LessTransitive(a: string, b: string, c: string)
    requires Less(a, b) && Less(b, c)
    ensures Less(a, c)
    decreases |a|
  {
    if a != "" && a[0] == b[0] && b[0] == c[0] {
      LessTransitive(a[1..], b[1..], c[1..]);
    }
  }

  lemma {:induction false} LeastText(texts: set<string>) returns (least: string)
    requires texts != {}
    ensures least in texts && forall other :: other in texts && other != least ==> Less(least, other)
    decreases |texts|
  {
    var text :| text in texts;
    var rest := texts - {text};
    if rest == {} {
      least := text;
      assert texts == {text};
    } else {
      var least' := LeastText(rest);
      LessTrichotomy(text, least');
      least := if Less(text, least') then text else least';
      forall other | other in texts && other != least ensures Less(least, other) {
        if other != text && least == text {
          LessTransitiveOrEqual(text, least', other);
        }
      }
    }
  }

  lemma LessTransitiveOrEqual(a: string, b: string, c: string)
    requires Less(a, b) && (b == c || Less(b, c))
    ensures Less(a, c)
  {
    if b != c {
      LessTransitive(a, b, c);
    }
  }

  predicate IsLeast(text: string, texts: set<string>) {
    text in texts && forall other :: other in texts && other != text ==> Less(text, other)
  }

  lemma OneLeast(texts: set<string>)
    requires texts != {}
    ensures exists text :: IsLeast(text, texts)
    ensures forall a, b :: IsLeast(a, texts) && IsLeast(b, texts) ==> a == b
  {
    var least := LeastText(texts);
    assert IsLeast(least, texts);
    forall a, b | IsLeast(a, texts) && IsLeast(b, texts) ensures a == b {
      LessTrichotomy(a, b);
    }
  }

  /** The texts of a set in ascending order. */
  function Ascending(texts: set<string>): (s: seq<string>)
    ensures forall text :: text in s <==> text in texts
    ensures forall i, j :: 0 <= i < j < |s| ==> Less(s[i], s[j])
    decreases |texts|
  {
    if texts == {} then []
    else
      OneLeast(texts);
      var least :| least in texts && IsLeast(least, texts);
      [least] + Ascending(texts - {least})
  }
}
