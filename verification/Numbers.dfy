// strconv.Itoa and strconv.Atoi on Go's 64-bit int.
module Numbers {
  import opened Wrappers

  const MIN_INT: int := -0x8000_0000_0000_0000
  const MAX_INT: int := 0x7FFF_FFFF_FFFF_FFFF

  function Digit(n: int): char
    requires 0 <= n < 10
  {
    '0' + n as char
  }

  function Digits(n: nat): (s: string)
    ensures s != "" && forall c | c in s :: '0' <= c <= '9'
  {
    if n < 10 then [Digit(n)] else Digits(n / 10) + [Digit(n % 10)]
  }

  function Itoa(n: int): string {
    if n < 0 then "-" + Digits(-n) else Digits(n)
  }

  // The value of a string of decimal digits.
  function Value(s: string): (r: Option<int>)
    ensures r.Some? ==> r.value >= 0
  {
    if s == "" then None
    else
      var c := s[|s| - 1];
      if !('0' <= c <= '9') then None
      else if |s| == 1 then Some(c as int - '0' as int)
      else
        match Value(s[..|s| - 1])
        case None => None
        case Some(v) => Some(10 * v + (c as int - '0' as int))
  }

  // An optional sign, digits, and a result that fits.
  function Atoi(s: string): Option<int> {
    var signed := s != "" && (s[0] == '-' || s[0] == '+');
    match Value(if signed then s[1..] else s)
    case None => None
    case Some(v) =>
      var n := if signed && s[0] == '-' then -v else v;
      if MIN_INT <= n <= MAX_INT then Some(n) else None
  }

  lemma {:induction false} ValueOfDigits(n: nat)
    ensures Value(Digits(n)) == Some(n)
  {
    if n >= 10 {
      ValueOfDigits(n / 10);
      var s := Digits(n / 10) + [Digit(n % 10)];
      assert s[..|s| - 1] == Digits(n / 10);
    }
  }

  // Digits carry no sign.
  lemma Unsigned(n: nat)
    ensures Digits(n)[0] != '-' && Digits(n)[0] != '+'
  {
    assert Digits(n)[0] in Digits(n);
  }

  lemma AtoiNegative(n: int)
    requires MIN_INT <= n < 0
    ensures Atoi("-" + Digits(-n)) == Some(n)
  {
    ValueOfDigits(-n);
    assert ("-" + Digits(-n))[1..] == Digits(-n);
  }

  lemma AtoiOfItoa(n: int)
    requires MIN_INT <= n <= MAX_INT
    ensures Atoi(Itoa(n)) == Some(n)
  {
    if n < 0 {
      AtoiNegative(n);
    } else {
      ValueOfDigits(n);
      Unsigned(n);
    }
  }

  lemma ItoaText(n: int)
    ensures forall c | c in Itoa(n) :: c == '-' || '0' <= c <= '9'
  {
  }

  predicate IsDigit(c: char) {
    '0' <= c <= '9'
  }

  // A string has a value exactly when it is a nonempty string of digits.
  lemma {:induction false} ValueIff(s: string)
    ensures Value(s).Some? <==> s != "" && forall c | c in s :: IsDigit(c)
  {
    if s != "" {
      var front, c := s[..|s| - 1], s[|s| - 1];
      assert s == front + [c];
      assert c in s && forall x :: x in s <==> x in front || x == c;
      if front != "" {
        ValueIff(front);
      }
    }
  }

  // Leading zeros do not count.
  lemma {:induction false} LeadingZero(s: string)
    requires s != ""
    ensures Value("0" + s) == Value(s)
  {
    var z := "0" + s;
    assert z[..|z| - 1] == "0" + s[..|s| - 1] && z[|z| - 1] == s[|s| - 1];
    if |s| > 1 {
      LeadingZero(s[..|s| - 1]);
    } else {
      assert s[..0] == "" && z[..1] == "0";
      assert Value("0") == Some(0);
    }
  }

  // A plus sign is allowed, and a number that does not fit is refused.
  lemma AtoiOfDigits(n: int)
    requires n >= 0
    ensures Atoi(Digits(n)) == if n <= MAX_INT then Some(n) else None
    ensures Atoi("+" + Digits(n)) == if n <= MAX_INT then Some(n) else None
  {
    ValueOfDigits(n);
    Unsigned(n);
    assert ("+" + Digits(n))[1..] == Digits(n);
  }
}
