/** The case-number generator of the Dog model: `YY-MON-DD-SS`, built from
    the current date and a per-day sequence counter that lives on the model
    itself, retried while the candidate is already held by a dog. */
module CaseNumbers {
  import opened Common

  /** A calendar date as the generator reads it from `new Date()`. */
  datatype Date = Date(year: nat, month: nat, day: nat)

  predicate ValidDate(d: Date)
  {
    1 <= d.month <= 12 && 1 <= d.day <= 31
  }

  /** Short month names, upper-cased, as an English locale prints them. */
  const MonthNames: seq<string> :=
    ["JAN", "FEB", "MAR", "APR", "MAY", "JUN", "JUL", "AUG", "SEP", "OCT", "NOV", "DEC"]

  predicate IsDigit(c: char)
  {
    '0' <= c <= '9'
  }

  predicate AllDigits(s: string)
  {
    forall i :: 0 <= i < |s| ==> IsDigit(s[i])
  }

  function DigitChar(n: nat): (c: char)
    requires n < 10
    ensures IsDigit(c) && DigitValue(c) == n
  {
    ('0' as int + n) as char
  }

  function DigitValue(c: char): nat
    requires IsDigit(c)
  {
    c as int - '0' as int
  }

  /** `String(n)` for a non-negative integer: its decimal digits. */
  function Decimal(n: nat): (r: string)
    ensures |r| >= 1 && AllDigits(r)
    ensures r[|r| - 1] == DigitChar(n % 10)
    ensures n < 10 ==> |r| == 1
    ensures n >= 10 ==> |r| >= 2
  {
    if n < 10 then [DigitChar(n)] else Decimal(n / 10) + [DigitChar(n % 10)]
  }

  /** The number a string of decimal digits denotes. */
  function DigitsValue(s: string): nat
    requires AllDigits(s)
  {
    if |s| == 0 then 0 else 10 * DigitsValue(s[..|s| - 1]) + DigitValue(s[|s| - 1])
  }

  /** `s.slice(-2)`: the last two characters, or the whole string when shorter. */
  function LastTwo(s: string): string
  {
    if |s| <= 2 then s else s[|s| - 2..]
  }

  /** `s.padStart(2, "0")`. */
  function PadStart2(s: string): string
  {
    if |s| >= 2 then s else seq(2 - |s|, _ => '0') + s
  }

  function YearPart(d: Date): string
  {
    LastTwo(Decimal(d.year))
  }

  function MonthPart(d: Date): string
    requires ValidDate(d)
  {
    MonthNames[d.month - 1]
  }

  function DayPart(d: Date): string
  {
    PadStart2(Decimal(d.day))
  }

  /** The sequence as printed: one leading `0` below 10, otherwise unpadded. */
  function SequencePart(n: nat): string
  {
    if n >= 10 then Decimal(n) else "0" + Decimal(n)
  }

  /** The case number of date `d` with sequence `n`. */
  function CaseNumber(d: Date, n: nat): string
    requires ValidDate(d)
  {
    YearPart(d) + "-" + MonthPart(d) + "-" + DayPart(d) + "-" + SequencePart(n)
  }

  /** Decimal printing and reading are inverse: `Decimal` loses nothing. */
  lemma {:induction false} DecimalRoundTrip(n: nat)
    ensures DigitsValue(Decimal(n)) == n
  {
    if n >= 10 {
      var r := Decimal(n);
      assert r[..|r| - 1] == Decimal(n / 10);
      DecimalRoundTrip(n / 10);
    }
  }

  /** Leading zeros do not change the value of a digit string. */
  lemma {:induction false} LeadingZeros(k: nat, s: string)
    requires AllDigits(s)
    ensures AllDigits(seq(k, _ => '0') + s)
    ensures DigitsValue(seq(k, _ => '0') + s) == DigitsValue(s)
  {
    var z := seq(k, _ => '0');
    if |s| == 0 {
      assert z + s == z;
      ZerosValue(k);
    } else {
      var t := z + s;
      assert t[..|t| - 1] == z + s[..|s| - 1];
      LeadingZeros(k, s[..|s| - 1]);
    }
  }

  lemma {:induction false} ZerosValue(k: nat)
    ensures AllDigits(seq(k, _ => '0'))
    ensures DigitsValue(seq(k, _ => '0')) == 0
  {
    if k > 0 {
      var z := seq(k, _ => '0');
      assert z[..k - 1] == seq(k - 1, _ => '0');
      ZerosValue(k - 1);
    }
  }

  /** The printed sequence reads back as the sequence, has the documented
      width, and starts with `0` exactly when the sequence is below 10. */
  lemma SequencePartShape(n: nat)
    requires n >= 1
    ensures AllDigits(SequencePart(n)) && DigitsValue(SequencePart(n)) == n
    ensures n < 100 ==> |SequencePart(n)| == 2
    ensures 100 <= n < 1000 ==> |SequencePart(n)| == 3
    ensures SequencePart(n)[0] == '0' <==> n < 10
  {
    DecimalRoundTrip(n);
    if n < 10 {
      LeadingZeros(1, Decimal(n));
      assert SequencePart(n) == seq(1, _ => '0') + Decimal(n);
    } else {
      DecimalLength(n);
      DecimalFirstDigit(n);
    }
  }

  lemma {:induction false} DecimalLength(n: nat)
    ensures 10 <= n < 100 ==> |Decimal(n)| == 2
    ensures 100 <= n < 1000 ==> |Decimal(n)| == 3
  {
    if n >= 10 {
      DecimalLength(n / 10);
    }
  }

  /** Decimal printing never produces a leading zero, except for 0 itself. */
  lemma {:induction false} DecimalFirstDigit(n: nat)
    ensures Decimal(n)[0] == '0' <==> n == 0
  {
    if n >= 10 {
      DecimalFirstDigit(n / 10);
    }
  }

  /** Different sequences on the same day give different case numbers. */
  lemma CaseNumberInjective(d: Date, a: nat, b: nat)
    requires ValidDate(d) && a >= 1 && b >= 1
    requires CaseNumber(d, a) == CaseNumber(d, b)
    ensures a == b
  {
    var prefix := YearPart(d) + "-" + MonthPart(d) + "-" + DayPart(d) + "-";
    assert CaseNumber(d, a) == prefix + SequencePart(a);
    assert CaseNumber(d, b) == prefix + SequencePart(b);
    assert SequencePart(a) == CaseNumber(d, a)[|prefix|..];
    assert SequencePart(b) == CaseNumber(d, b)[|prefix|..];
    SequencePartShape(a);
    SequencePartShape(b);
  }

  /** The last two digits of a year of at least two digits read as `year % 100`. */
  lemma YearPartValue(y: nat)
    requires y >= 10
    ensures |LastTwo(Decimal(y))| == 2 && AllDigits(LastTwo(Decimal(y)))
    ensures DigitsValue(LastTwo(Decimal(y))) == y % 100
  {
    var r := Decimal(y);
    var p := Decimal(y / 10);
    assert r == p + [DigitChar(y % 10)];
    assert r[|r| - 2] == p[|p| - 1] == DigitChar((y / 10) % 10);
    var t := LastTwo(r);
    assert t == [DigitChar((y / 10) % 10), DigitChar(y % 10)];
    TwoDigitsValue(t);
    TensAndUnits(y);
  }

  lemma TwoDigitsValue(t: string)
    requires |t| == 2 && AllDigits(t)
    ensures DigitsValue(t) == 10 * DigitValue(t[0]) + DigitValue(t[1])
  {
    var a := t[..1];
    assert a[..0] == [];
    assert DigitsValue(a) == DigitValue(t[0]);
    assert t[..1] == a;
  }

  lemma TensAndUnits(y: nat)
    ensures y % 100 == 10 * ((y / 10) % 10) + y % 10
  {
    var q := y / 10;
    assert y == 10 * q + y % 10;
    assert q == 10 * (q / 10) + q % 10;
    assert y == 100 * (q / 10) + (10 * (q % 10) + y % 10);
  }

  /** A day of the month prints as exactly two digits that read back as the day. */
  lemma DayPartValue(day: nat)
    requires 1 <= day <= 31
    ensures |PadStart2(Decimal(day))| == 2 && AllDigits(PadStart2(Decimal(day)))
    ensures DigitsValue(PadStart2(Decimal(day))) == day
  {
    DecimalRoundTrip(day);
    DecimalLength(day);
    if day < 10 {
      LeadingZeros(1, Decimal(day));
    }
  }

  /** Where the four fields of `Y-M-D-S` sit when they have widths 2, 3 and 2. */
  lemma FieldPositions(y: string, m: string, d: string, s: string)
    requires |y| == 2 && |m| == 3 && |d| == 2
    ensures var c := y + "-" + m + "-" + d + "-" + s;
      && |c| == 10 + |s|
      && c[..2] == y && c[2] == '-' && c[3..6] == m && c[6] == '-'
      && c[7..9] == d && c[9] == '-' && c[10..] == s
  {
  }

  /** The layout `YY-MON-DD-SS`: each field sits at its fixed position and
      reads back as the date's two-digit year, its month name, its day and
      the sequence. */
  lemma CaseNumberLayout(d: Date, n: nat)
    requires ValidDate(d) && d.year >= 10 && n >= 1
    ensures var c := CaseNumber(d, n);
      && |c| >= 12
      && c[2] == '-' && c[6] == '-' && c[9] == '-'
      && AllDigits(c[..2]) && DigitsValue(c[..2]) == d.year % 100
      && c[3..6] == MonthNames[d.month - 1]
      && AllDigits(c[7..9]) && DigitsValue(c[7..9]) == d.day
      && AllDigits(c[10..]) && DigitsValue(c[10..]) == n
  {
    var y, m, day, sq := YearPart(d), MonthPart(d), DayPart(d), SequencePart(n);
    YearPartValue(d.year);
    DayPartValue(d.day);
    SequencePartShape(n);
    assert |m| == 3;
    FieldPositions(y, m, day, sq);
    var c := CaseNumber(d, n);
    assert c == y + "-" + m + "-" + day + "-" + sq;
    assert c[..2] == y;
    assert c[7..9] == day;
    assert c[10..] == sq;
  }

  /** The first two case numbers issued on 5 March 2024. */
  lemma FirstCasesOfMarchFifth()
    ensures CaseNumber(Date(2024, 3, 5), 1) == "24-MAR-05-01"
    ensures CaseNumber(Date(2024, 3, 5), 2) == "24-MAR-05-02"
  {
    assert Decimal(2024) == "2024";
    assert PadStart2(Decimal(5)) == "05";
  }

  /** `caseNumber` is what counting on from `base` on day `d` issues
      against the numbers in `existing`: the number of a later sequence that
      is not taken, where every sequence skipped on the way was taken. */
  ghost predicate FreshlyIssued(d: Date, base: nat, sequence: nat, existing: set<string>, caseNumber: string)
    requires ValidDate(d)
  {
    && sequence > base && caseNumber == CaseNumber(d, sequence) && caseNumber !in existing
    && forall k :: base < k < sequence ==> CaseNumber(d, k) in existing
  }

  /** When the number after `base` is free, it is the one issued: without a
      collision the counter moves by exactly one. So the first case of a day
      with no case yet gets sequence 1. */
  lemma NoCollisionTakesNext(d: Date, base: nat, sequence: nat, existing: set<string>, caseNumber: string)
    requires ValidDate(d) && FreshlyIssued(d, base, sequence, existing, caseNumber)
    requires CaseNumber(d, base + 1) !in existing
    ensures sequence == base + 1 && caseNumber == CaseNumber(d, base + 1)
  {
  }

  /** Case numbers of day `d` with a sequence above `base` that are already taken. */
  ghost function Taken(d: Date, base: nat, existing: set<string>): set<string>
    requires ValidDate(d)
  {
    set s | s in existing && exists k: nat :: k > base && s == CaseNumber(d, k)
  }

  /** A collision at `base + 1` leaves fewer taken numbers above the new base:
      this is why the retry terminates. */
  lemma TakenShrinks(d: Date, base: nat, existing: set<string>)
    requires ValidDate(d) && CaseNumber(d, base + 1) in existing
    ensures |Taken(d, base + 1, existing)| < |Taken(d, base, existing)|
  {
    var c := CaseNumber(d, base + 1);
    var before, after := Taken(d, base, existing), Taken(d, base + 1, existing);
    assert c in before by {
      assert c == CaseNumber(d, base + 1);
    }
    forall s | s in after
      ensures s in before - {c}
    {
      TakenAbove(d, base, existing, s);
    }
    SmallerSubset(after, before, c);
  }

  lemma SmallerSubset<T>(a: set<T>, b: set<T>, x: T)
    requires x in b && forall y :: y in a ==> y in b - {x}
    ensures |a| < |b|
  {
    SubsetSize(a, b - {x});
  }

  lemma {:induction false} SubsetSize<T>(a: set<T>, c: set<T>)
    requires a <= c
    ensures |a| <= |c|
    decreases a
  {
    if a != {} {
      var y :| y in a;
      SubsetSize(a - {y}, c - {y});
    }
  }

  lemma TakenAbove(d: Date, base: nat, existing: set<string>, s: string)
    requires ValidDate(d) && s in Taken(d, base + 1, existing)
    ensures s in Taken(d, base, existing) && s != CaseNumber(d, base + 1)
  {
    var k: nat :| k > base + 1 && s == CaseNumber(d, k);
    if s == CaseNumber(d, base + 1) {
      CaseNumberInjective(d, k, base + 1);
    }
  }

  /** The model-level counter state of the generator (`LastGeneratedDate`
      and `sequence` on the Dog model). */
  class CaseNumberGenerator {
    var lastGenerated: Option<Date>
    var sequence: nat

    constructor ()
      ensures lastGenerated == None && sequence == 0
    {
      lastGenerated := None;
      sequence := 0;
    }

    /** The sequence the next call counts up from: the counter on the same
        calendar day, 0 on a new day. */
    function Base(today: Date): nat
      reads this
    {
      if lastGenerated == Some(today) then sequence else 0
    }

    /** Generates a case number for `today` that no dog in `existing` holds.
        On the same day the sequence counts on from the last one; on a new day
        it restarts at 1; every collision bumps it once more. */
    method Generate(today: Date, existing: set<string>) returns (caseNumber: string)
      requires ValidDate(today)
      modifies this
      decreases |Taken(today, Base(today), existing)|
      ensures lastGenerated == Some(today)
      ensures sequence > old(Base(today))
      ensures caseNumber == CaseNumber(today, sequence) && caseNumber !in existing
      ensures forall k :: old(Base(today)) < k < sequence ==> CaseNumber(today, k) in existing
    {
      if lastGenerated.Some? && lastGenerated.value == today {
        sequence := sequence + 1;
      } else {
        sequence := 1;
      }
      lastGenerated := Some(today);
      var candidate := CaseNumber(today, sequence);
      if candidate in existing {
        TakenShrinks(today, sequence - 1, existing);
        caseNumber := Generate(today, existing);
      } else {
        caseNumber := candidate;
      }
    }
  }
}
