/**
 The version of a migration, as it stands before the first underscore of its file name.
 */
module MigrationNames {
  import opened Wrappers

  const TWO63 := 0x8000_0000_0000_0000

  /** What comes before the first underscore. */
  function Cut(name: string): Option<string> {
    if name == "" then None
    else if name[0] == '_' then Some("")
    else match Cut(name[1..]) case Some(rest) => Some([name[0]] + rest) case None => None
  }

  predicate IsDigit(c: char) { '0' <= c <= '9' }

  function DigitValue(c: char): nat
    requires IsDigit(c)
  {
    c as int - '0' as int
  }

  predicate Digits(s: string) {
    s == "" || (Digits(s[..|s| - 1]) && IsDigit(s[|s| - 1]))
  }

  function Number(s: string): nat
    requires Digits(s)
  {
    if s == "" then 0 else 10 * Number(s[..|s| - 1]) + DigitValue(s[|s| - 1])
  }

  predicate Signed(s: string) { s != "" && (s[0] == '+' || s[0] == '-') }

  function Unsigned(s: string): string { if Signed(s) then s[1..] else s }

  /** A decimal number with an optional sign that fits 64 bits, as Go's standard library reads it. */
  function Atoi(s: string): Option<int> {
    var digits := Unsigned(s);
    if digits == "" || !Digits(digits) then None
    else
      var n: int := Number(digits);
      var v := if s[0] == '-' then -n else n;
      if -TWO63 <= v < TWO63 then Some(v) else None
  }

  function Version(name: string): Option<int> {
    match Cut(name) case Some(prefix) => Atoi(prefix) case None => None
  }

  // ---------- Which names hold which version ----------

  function Digit(d: nat): char
    requires d < 10
  {
    (d + '0' as int) as char
  }

  /** The usual way to write a number. */
  function Decimal(n: nat): string {
    if n < 10 then [Digit(n)] else Decimal(n / 10) + [Digit(n % 10)]
  }

  function Zeros(k: nat): string { seq(k, i => '0') }

  lemma {:induction false} NumberOfDecimal(n: nat)
    ensures Decimal(n) != "" && Digits(Decimal(n)) && Number(Decimal(n)) == n
    decreases n
  {
    if n >= 10 {
      NumberOfDecimal(n / 10);
      assert Decimal(n)[..|Decimal(n)| - 1] == Decimal(n / 10);
    } else {
      assert Decimal(n)[..0] == "";
    }
  }

  lemma {:induction false} NumberOfPadded(k: nat, s: string)
    requires Digits(s)
    ensures Digits(Zeros(k) + s) && Number(Zeros(k) + s) == Number(s)
    decreases |s|, k
  {
    if s != "" {
      var front := s[..|s| - 1];
      NumberOfPadded(k, front);
      assert (Zeros(k) + s)[..|Zeros(k) + s| - 1] == Zeros(k) + front;
    } else if k > 0 {
      NumberOfPadded(k - 1, s);
      assert (Zeros(k) + s)[..k - 1] == Zeros(k - 1) + s;
    }
  }

  /** Any digits are some zeros and the usual way to write their number. */
  lemma {:induction false} PaddingOf(s: string) returns (k: nat)
    requires s != "" && Digits(s)
    ensures s == Zeros(k) + Decimal(Number(s))
    decreases |s|
  {
    var front, n := s[..|s| - 1], Number(s);
    assert s == front + [s[|s| - 1]] && [s[|s| - 1]] == [Digit(n % 10)];
    if Number(front) == 0 {
      k := |front|;
      ZerosOnly(front);
    } else {
      k := PaddingOf(front);
      assert n / 10 == Number(front) && n >= 10;
    }
  }

  lemma {:induction false} ZerosOnly(s: string)
    requires Digits(s) && Number(s) == 0
    ensures s == Zeros(|s|)
    decreases |s|
  {
    if s != "" {
      ZerosOnly(s[..|s| - 1]);
      assert s == s[..|s| - 1] + [s[|s| - 1]];
    }
  }

  lemma {:induction false} CutAt(prefix: string, title: string)
    requires '_' !in prefix
    ensures Cut(prefix + "_" + title) == Some(prefix)
    decreases |prefix|
  {
    var name := prefix + "_" + title;
    if prefix == "" {
      assert name[0] == '_';
    } else {
      assert prefix[0] in prefix && prefix == [prefix[0]] + prefix[1..];
      CutAt(prefix[1..], title);
      assert name[1..] == prefix[1..] + "_" + title && name[0] == prefix[0];
    }
  }

  lemma {:induction false} CutIsPrefix(name: string) returns (title: string)
    requires Cut(name).Some?
    ensures name == Cut(name).value + "_" + title && '_' !in Cut(name).value
    decreases |name|
  {
    if name[0] == '_' {
      title := name[1..];
    } else {
      title := CutIsPrefix(name[1..]);
      assert name == [name[0]] + name[1..];
    }
  }

  /** An optional sign, zeros, and the number as usual. */
  function Spelled(sign: string, zeros: nat, v: int): string {
    sign + (Zeros(zeros) + Decimal(if v < 0 then -v else v))
  }

  predicate SignFor(sign: string, v: int) {
    (sign == "" && v >= 0) || (sign == "+" && v >= 0) || (sign == "-" && v <= 0)
  }

  lemma {:induction false} DigitsOnly(s: string)
    requires Digits(s)
    ensures forall i | 0 <= i < |s| :: IsDigit(s[i])
    decreases |s|
  {
    if s != "" { DigitsOnly(s[..|s| - 1]); }
  }

  lemma AtoiOfSigned(sign: string, digits: string)
    requires sign == "" || sign == "+" || sign == "-"
    requires digits != "" && Digits(digits)
    ensures Unsigned(sign + digits) == digits && '_' !in sign + digits
    ensures (sign + digits)[0] == '-' <==> sign == "-"
  {
    DigitsOnly(digits);
    if sign == "" { assert sign + digits == digits; } else { assert (sign + digits)[1..] == digits; }
  }

  lemma AtoiOf(s: string, v: int)
    requires Unsigned(s) != "" && Digits(Unsigned(s)) && Number(Unsigned(s)) == (if v < 0 then -v else v)
    requires -TWO63 <= v < TWO63 && (v < 0 ==> s[0] == '-') && (v > 0 ==> s[0] != '-')
    ensures Atoi(s) == Some(v)
  {}

  lemma AtoiOfSpelled(sign: string, zeros: nat, v: int)
    requires SignFor(sign, v) && -TWO63 <= v < TWO63
    ensures Atoi(Spelled(sign, zeros, v)) == Some(v) && '_' !in Spelled(sign, zeros, v)
  {
    var n := if v < 0 then -v else v;
    var digits := Zeros(zeros) + Decimal(n);
    NumberOfDecimal(n);
    NumberOfPadded(zeros, Decimal(n));
    AtoiOfSigned(sign, digits);
    AtoiOf(sign + digits, v);
  }

  lemma SpelledOfAtoi(s: string) returns (sign: string, zeros: nat)
    requires Atoi(s).Some?
    ensures SignFor(sign, Atoi(s).value) && -TWO63 <= Atoi(s).value < TWO63
    ensures s == Spelled(sign, zeros, Atoi(s).value)
  {
    var digits := Unsigned(s);
    sign := if Signed(s) then [s[0]] else "";
    zeros := PaddingOf(digits);
    assert s == sign + digits;
    DigitsOnly(digits);
  }

  /** A file name holds a version exactly if it is, with a sign or zeros in front or none, that number,
      an underscore and anything: so two names differing in zeros alone have one version. */
  lemma VersionIsSpelled(name: string, v: int)
    ensures Version(name) == Some(v)
       <==> (-TWO63 <= v < TWO63
             && exists sign, zeros, title ::
                  SignFor(sign, v) && name == Spelled(sign, zeros, v) + "_" + title)
  {
    if Version(name) == Some(v) {
      var title := CutIsPrefix(name);
      var sign, zeros := SpelledOfAtoi(Cut(name).value);
      assert SignFor(sign, v) && name == Spelled(sign, zeros, v) + "_" + title;
    }
    if -TWO63 <= v < TWO63 {
      if sign: string, zeros: nat, title: string :|
        SignFor(sign, v) && name == Spelled(sign, zeros, v) + "_" + title
      {
        AtoiOfSpelled(sign, zeros, v);
        CutAt(Spelled(sign, zeros, v), title);
      }
    }
  }
}
