/** Numbers as decimal text: `strconv.Itoa`, and `strconv.Atoi` with its error dropped. */
module Decimal {
  import opened Common

  function Itoa(n: nat): (r: string)
    ensures |r| >= 1
  {
    if n < 10 then ['0' + n as char] else Itoa(n / 10) + ['0' + (n % 10) as char]
  }

  predicate IsDigit(c: char) {
    '0' <= c <= '9'
  }

  function DigitValue(c: char): nat
    requires IsDigit(c)
  {
    (c - '0') as int
  }

  function Digits(s: string, acc: int): Option<int> {
    if s == [] then Some(acc)
    else if IsDigit(s[0]) then Digits(s[1..], 10 * acc + DigitValue(s[0]))
    else None
  }

  /** Whatever is not a number reads as zero. */
  function Atoi(s: string): int {
    var sign := s != [] && (s[0] == '-' || s[0] == '+');
    var digits := if sign then s[1..] else s;
    var n := if digits == [] then None else Digits(digits, 0);
    if n.None? then 0
    else if sign && s[0] == '-' then 0 - n.value
    else n.value
  }

  lemma {:induction false} DigitsAppend(s: string, t: string, acc: int)
    ensures Digits(s + t, acc) == if Digits(s, acc).None? then None else Digits(t, Digits(s, acc).value)
    decreases s
  {
    if s == [] {
      assert s + t == t;
    } else {
      assert (s + t)[0] == s[0] && (s + t)[1..] == s[1..] + t;
      if IsDigit(s[0]) {
        DigitsAppend(s[1..], t, 10 * acc + DigitValue(s[0]));
      }
    }
  }

  /** The last digit counts ones and whatever stands before it tens. */
  lemma LastDigitCountsOnes(s: string, c: char)
    requires s != [] && IsDigit(c) && forall x :: x in s ==> IsDigit(x)
    ensures Atoi(s + [c]) == 10 * Atoi(s) + DigitValue(c)
    ensures Atoi([c]) == DigitValue(c)
  {
    AllDigitsRead(s, 0);
    DigitsAppend(s, [c], 0);
    assert s[0] in s && (s + [c])[0] == s[0];
    assert [c][1..] == [] && Digits([c], 0) == Digits([c][1..], DigitValue(c));
  }

  lemma {:induction false} AllDigitsRead(s: string, acc: int)
    requires forall x :: x in s ==> IsDigit(x)
    ensures Digits(s, acc).Some?
    decreases s
  {
    if s != [] {
      assert s[0] in s;
      AllDigitsRead(s[1..], 10 * acc + DigitValue(s[0]));
    }
  }

  lemma {:induction false} ItoaIsDigits(n: nat)
    ensures forall c :: c in Itoa(n) ==> IsDigit(c)
    ensures Digits(Itoa(n), 0) == Some(n)
  {
    if n >= 10 {
      ItoaIsDigits(n / 10);
      DigitsAppend(Itoa(n / 10), ['0' + (n % 10) as char], 0);
    }
  }

  /** Reading undoes writing, with and without a sign. */
  lemma AtoiReadsItoa(n: nat)
    ensures Atoi(Itoa(n)) == n && Atoi("-" + Itoa(n)) == 0 - (n as int) && Atoi("+" + Itoa(n)) == n
  {
    ItoaIsDigits(n);
    assert Itoa(n)[0] in Itoa(n);
    assert ("-" + Itoa(n))[1..] == Itoa(n) && ("+" + Itoa(n))[1..] == Itoa(n);
  }

  /** Text with anything but digits after an optional sign, a percentage for one, reads as zero. */
  lemma OtherTextReadsZero(s: string, i: nat)
    requires i < |s| && !IsDigit(s[i]) && (i > 0 || (s[0] != '-' && s[0] != '+'))
    ensures Atoi(s) == 0
  {
    var sign := s[0] == '-' || s[0] == '+';
    if sign {
      NonDigitStops(s[1..], i-1, 0);
    } else {
      NonDigitStops(s, i, 0);
    }
  }

  lemma {:induction false} NonDigitStops(s: string, i: nat, acc: int)
    requires i < |s| && !IsDigit(s[i])
    ensures Digits(s, acc).None?
    decreases s
  {
    if i > 0 && IsDigit(s[0]) {
      NonDigitStops(s[1..], i-1, 10 * acc + DigitValue(s[0]));
    }
  }
}
