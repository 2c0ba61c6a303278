// Decimal rendering of integers, as f-strings do it: {n}, {n:03d}.
module DecimalText {

  function Digit(d: nat): char
    requires d < 10
  {
    ('0' as int + d) as char
  }

  function Digits(n: nat): string {
    if n < 10 then [Digit(n)] else Digits(n / 10) + [Digit(n % 10)]
  }

  function Signed(n: int): string {
    if n < 0 then "-" + Digits(-n) else Digits(n)
  }

  // {n:03d}: at least three characters, padded on the left with zeros.
  function Pad3(n: nat): string {
    if n < 10 then "00" + Digits(n)
    else if n < 100 then "0" + Digits(n)
    else Digits(n)
  }

  // Reading a numeral back.
  function Value(s: string): int {
    if s == "" then 0 else Value(s[..|s| - 1]) * 10 + (s[|s| - 1] as int - '0' as int)
  }

  lemma {:induction false} ValueOfDigits(n: nat)
    ensures Value(Digits(n)) == n
  {
    if n >= 10 {
      var head := Digits(n / 10);
      assert Digits(n)[..|Digits(n)| - 1] == head;
      ValueOfDigits(n / 10);
    } else {
      assert [Digit(n)][..0] == "";
    }
  }

  lemma {:induction false} ValueSkipsZero(s: string)
    ensures Value("0" + s) == Value(s)
  {
    if s == "" {
      assert "0"[..0] == "";
      assert "0" + s == "0";
    } else {
      assert ("0" + s)[..|"0" + s| - 1] == "0" + s[..|s| - 1];
      ValueSkipsZero(s[..|s| - 1]);
    }
  }

  lemma ValueOfPad3(n: nat)
    ensures Value(Pad3(n)) == n
  {
    ValueOfDigits(n);
    ValueSkipsZero(Digits(n));
    ValueSkipsZero("0" + Digits(n));
    assert "0" + ("0" + Digits(n)) == "00" + Digits(n);
  }

  lemma {:induction false} DigitsAreDigits(n: nat)
    ensures forall c <- Digits(n) :: '0' <= c <= '9'
  {
    if n >= 10 {
      DigitsAreDigits(n / 10);
    }
  }

  // Digits only, without a zero in front of another digit.
  predicate Natural(s: string) {
    s != "" && (forall c <- s :: '0' <= c <= '9') && (|s| > 1 ==> s[0] != '0')
  }

  lemma {:induction false} DigitsAreNatural(n: nat)
    ensures Natural(Digits(n)) && '0' <= Digits(n)[0] <= '9' && (Digits(n)[0] == '0' ==> n == 0)
  {
    DigitsAreDigits(n);
    if n >= 10 {
      DigitsAreNatural(n / 10);
    }
  }

  lemma DigitsOf(head: nat, d: nat)
    requires head > 0 && d < 10
    ensures Digits(head * 10 + d) == Digits(head) + [Digit(d)]
  {
    assert (head * 10 + d) / 10 == head;
  }

  lemma NaturalFront(s: string)
    requires Natural(s) && |s| > 1
    ensures Natural(s[..|s| - 1]) && s[0] == s[..|s| - 1][0]
  {
    var front := s[..|s| - 1];
    forall c | c in front
      ensures '0' <= c <= '9'
    {
      assert c in s;
    }
  }

  lemma {:induction false} NaturalIsDigits(s: string)
    requires Natural(s)
    ensures Value(s) >= 0 && s == Digits(Value(s)) && (Value(s) == 0 ==> s == "0")
  {
    var last := s[|s| - 1];
    assert last in s;
    if |s| == 1 {
      assert s == [last] && s[..0] == "";
    } else {
      NaturalFront(s);
      NaturalIsDigits(s[..|s| - 1]);
      DigitsOf(Value(s[..|s| - 1]), last as int - '0' as int);
      assert s == s[..|s| - 1] + [last];
    }
  }

  /** The text of a natural number is the only numeral without needless zeros that reads back as it. */
  lemma {:induction false} DigitsExactly(s: string, n: nat)
    ensures s == Digits(n) <==> Natural(s) && Value(s) == n
  {
    DigitsAreNatural(n);
    ValueOfDigits(n);
    if Natural(s) {
      NaturalIsDigits(s);
    }
  }

  // Reading an integer back: a minus sign and a numeral, or a numeral.
  function Integer(s: string): int {
    if s != "" && s[0] == '-' then -Value(s[1..]) else Value(s)
  }

  lemma SignedReads(n: int)
    ensures Integer(Signed(n)) == n && Natural(if n < 0 then Signed(n)[1..] else Signed(n))
  {
    var m := if n < 0 then -n else n;
    DigitsAreNatural(m);
    ValueOfDigits(m);
  }

  // The padded text: digits that read back as the number, at least three, and no zero in front of more than three.
  lemma Pad3Exactly(n: nat)
    ensures Value(Pad3(n)) == n && (forall c <- Pad3(n) :: '0' <= c <= '9')
    ensures |Pad3(n)| >= 3 && (|Pad3(n)| > 3 ==> Pad3(n)[0] != '0')
  {
    ValueOfPad3(n);
    DigitsAreNatural(n);
    if n >= 10 {
      DigitsAreNatural(n / 10);
      assert |Digits(n)| == |Digits(n / 10)| + 1;
      assert n < 100 <==> |Digits(n / 10)| == 1;
    }
  }
}
