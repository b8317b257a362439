/**
 * Ticket numbers of the form PREFIX-digits: reading the sequence value back out of a
 * stored number, rendering a value zero-padded to six digits, and the allocator that
 * picks the next free value for a prefix.
 */
module Numbering {
  import opened Wrappers

  /** `padStart(6, '0')`: the minimum width of the sequence part of a ticket number. */
  const Width: nat := 6

  predicate IsDigit(c: char) {
    '0' <= c <= '9'
  }

  predicate AllDigits(s: string) {
    forall i :: 0 <= i < |s| ==> IsDigit(s[i])
  }

  function DigitChar(d: nat): (c: char)
    requires d < 10
    ensures IsDigit(c)
  {
    ('0' as int + d) as char
  }

  function DigitValue(c: char): (d: nat)
    requires IsDigit(c)
    ensures d < 10 && DigitChar(d) == c
  {
    c as int - '0' as int
  }

  /** `parseInt(run, 10)` of a run of decimal digits (leading zeros allowed). */
  function DigitsValue(s: string): nat
    requires AllDigits(s)
    decreases |s|
  {
    if s == [] then 0 else 10 * DigitsValue(s[..|s| - 1]) + DigitValue(s[|s| - 1])
  }

  /** A run of digits reads as 0 exactly when every digit is `0`. */
  lemma {:induction false} DigitsValueZero(s: string)
    requires AllDigits(s)
    ensures DigitsValue(s) == 0 <==> forall i :: 0 <= i < |s| ==> s[i] == '0'
    decreases |s|
  {
    if s != [] {
      var init := s[..|s| - 1];
      DigitsValueZero(init);
      assert forall i :: 0 <= i < |init| ==> init[i] == s[i];
    }
  }

  /** `String(n)` for a natural number: its decimal digits without leading zeros. */
  function Decimal(n: nat): (s: string)
    ensures 1 <= |s| && AllDigits(s)
    ensures DigitsValue(s) == n
    ensures s[0] == '0' ==> n == 0
  {
    if n < 10 then [DigitChar(n)]
    else
      var s := Decimal(n / 10) + [DigitChar(n % 10)];
      assert s[..|s| - 1] == Decimal(n / 10);
      s
  }

  function Zeros(k: nat): (z: string)
    ensures |z| == k && AllDigits(z)
    ensures forall i :: 0 <= i < k ==> z[i] == '0'
  {
    if k == 0 then [] else Zeros(k - 1) + ['0']
  }

  /** Leading zeros do not change the value of a digit run. */
  lemma {:induction false} LeadingZerosIgnored(k: nat, s: string)
    requires AllDigits(s)
    ensures AllDigits(Zeros(k) + s) && DigitsValue(Zeros(k) + s) == DigitsValue(s)
    decreases |s|, k
  {
    var z := Zeros(k);
    if s == [] {
      assert z + s == z;
      if k > 0 {
        assert z[..|z| - 1] == Zeros(k - 1);
        LeadingZerosIgnored(k - 1, s);
        assert Zeros(k - 1) + s == Zeros(k - 1);
      }
    } else {
      var t := s[..|s| - 1];
      assert (z + s)[..|z + s| - 1] == z + t;
      LeadingZerosIgnored(k, t);
    }
  }

  /** `String(n).padStart(6, '0')`: at least six digits, never truncated, and it reads back as `n`. */
  function Padded(n: nat): (s: string)
    ensures AllDigits(s) && DigitsValue(s) == n
  {
    var d := Decimal(n);
    if |d| >= Width then d
    else
      LeadingZerosIgnored(Width - |d|, d);
      Zeros(Width - |d|) + d
  }

  /** Padding only adds zeros in front: the width is max(6, digits) and the digits of `n` end the string. */
  lemma PaddedNeverTruncates(n: nat)
    ensures var d := Decimal(n);
      && |Padded(n)| == (if |d| < Width then Width else |d|)
      && Padded(n)[|Padded(n)| - |d|..] == d
      && forall i :: 0 <= i < |Padded(n)| - |d| ==> Padded(n)[i] == '0'
  {
  }

  /** The number given to the ticket with sequence value `n`: `${prefix}-${padded n}`. */
  function TicketNumber(prefix: string, n: nat): string {
    prefix + "-" + Padded(n)
  }

  /**
   * The sequence value of a stored number when it reads exactly `prefix`, a dash and a
   * non-empty run of decimal digits; None for numbers of other prefixes and malformed ones.
   */
  function SequenceOf(number: string, prefix: string): Option<nat> {
    if |number| > |prefix| + 1 && number[..|prefix|] == prefix && number[|prefix|] == '-'
       && AllDigits(number[|prefix| + 1..])
    then Some(DigitsValue(number[|prefix| + 1..]))
    else None
  }

  /**
   * A stored number matches exactly when it is the prefix, a dash and a non-empty run of
   * digits, and its value is that run read in base 10.
   */
  lemma SequenceOfShape(number: string, prefix: string)
    ensures SequenceOf(number, prefix).Some? <==>
      && |number| > |prefix| + 1
      && number == prefix + "-" + number[|prefix| + 1..]
      && AllDigits(number[|prefix| + 1..])
    ensures SequenceOf(number, prefix).Some? ==>
      SequenceOf(number, prefix).value == DigitsValue(number[|prefix| + 1..])
  {
    if |number| > |prefix| + 1 && number == prefix + "-" + number[|prefix| + 1..] {
      assert number[..|prefix|] == prefix;
    }
  }

  /** A rendered ticket number reads back as its own prefix and sequence value. */
  lemma ParseTicketNumber(prefix: string, n: nat)
    ensures SequenceOf(TicketNumber(prefix, n), prefix) == Some(n)
  {
    var s := TicketNumber(prefix, n);
    assert s[..|prefix|] == prefix;
    assert s[|prefix| + 1..] == Padded(n);
  }

  /** Distinct sequence values give distinct ticket numbers. */
  lemma TicketNumberInjective(prefix: string, m: nat, n: nat)
    requires m != n
    ensures TicketNumber(prefix, m) != TicketNumber(prefix, n)
  {
    ParseTicketNumber(prefix, m);
    ParseTicketNumber(prefix, n);
  }

  /** The largest sequence value among the numbers of `prefix`, or 0 when none has that prefix. */
  function HighestSequence(numbers: seq<string>, prefix: string): nat
    decreases |numbers|
  {
    if numbers == [] then 0
    else
      var rest := HighestSequence(numbers[..|numbers| - 1], prefix);
      match SequenceOf(numbers[|numbers| - 1], prefix)
      case Some(v) => if v > rest then v else rest
      case None => rest
  }

  /** Every number of `prefix` has a sequence value at most HighestSequence. */
  lemma {:induction false} HighestSequenceBounds(numbers: seq<string>, prefix: string)
    ensures forall i :: 0 <= i < |numbers| && SequenceOf(numbers[i], prefix).Some? ==>
      SequenceOf(numbers[i], prefix).value <= HighestSequence(numbers, prefix)
    decreases |numbers|
  {
    if numbers != [] {
      var init := numbers[..|numbers| - 1];
      HighestSequenceBounds(init, prefix);
      assert forall i :: 0 <= i < |init| ==> init[i] == numbers[i];
    }
  }

  /**
   * HighestSequence is 0 or the value of some number of `prefix`. It is stated here rather
   * than on the function, where every caller would have to carry the witness.
   */
  lemma {:induction false} HighestSequenceAttained(numbers: seq<string>, prefix: string)
    ensures var h := HighestSequence(numbers, prefix);
      h == 0 || exists i :: 0 <= i < |numbers| && SequenceOf(numbers[i], prefix) == Some(h)
    decreases |numbers|
  {
    if numbers != [] {
      var init := numbers[..|numbers| - 1];
      HighestSequenceAttained(init, prefix);
      assert forall i :: 0 <= i < |init| ==> init[i] == numbers[i];
    }
  }

  /** No number of `prefix` reads as a value above HighestSequence, so such a value is unused. */
  lemma NumberAboveHighestIsUnused(numbers: seq<string>, prefix: string, v: nat)
    requires v > HighestSequence(numbers, prefix)
    ensures forall i :: 0 <= i < |numbers| ==> numbers[i] != TicketNumber(prefix, v)
  {
    HighestSequenceBounds(numbers, prefix);
    ParseTicketNumber(prefix, v);
  }

  /** A value that bounds every sequence value of `prefix` and is 0 or attained is HighestSequence. */
  lemma HighestSequenceUnique(numbers: seq<string>, prefix: string, v: nat)
    requires forall i :: 0 <= i < |numbers| && SequenceOf(numbers[i], prefix).Some? ==>
      SequenceOf(numbers[i], prefix).value <= v
    requires v == 0 || exists i :: 0 <= i < |numbers| && SequenceOf(numbers[i], prefix) == Some(v)
    ensures HighestSequence(numbers, prefix) == v
  {
    HighestSequenceBounds(numbers, prefix);
    HighestSequenceAttained(numbers, prefix);
  }

  /**
   * The allocator inlined in generateTickets: start at 1 and, for every number of `prefix`
   * whose value n is at least the current candidate, move the candidate to n + 1.
   */
  method NextNumber(numbers: seq<string>, prefix: string) returns (next: nat)
    ensures next == HighestSequence(numbers, prefix) + 1
  {
    next := 1;
    for i := 0 to |numbers|
      invariant next == HighestSequence(numbers[..i], prefix) + 1
    {
      assert numbers[..i + 1][..i] == numbers[..i];
      match SequenceOf(numbers[i], prefix) {
        case Some(n) =>
          if n >= next {
            next := n + 1;
          }
        case None =>
      }
    }
    assert numbers[..|numbers|] == numbers;
  }
}
