/**
 * Invoice numbers (src/libs/numbering.ts): `INV-{year}-{sequence}`, the
 * sequence zero-padded to at least six digits and drawn from a per-year
 * counter table, and the parser that reads such a number back.
 *
 * The current year is the parameter `year`.
 */
module Numbering {
  import opened Wrappers
  import opened Strings

  /** The `invoiceNumberSeq` table: the last sequence handed out, per year. */
  type SequenceTable = map<int, nat>

  /**
   * The table after the upsert: the year's row is created with 1, or its
   * value is incremented; every other year is untouched.
   */
  function Upserted(t: SequenceTable, year: int): (t': SequenceTable)
    ensures t'.Keys == t.Keys + {year}
    ensures t'[year] == if year in t then t[year] + 1 else 1
    ensures forall y :: y in t && y != year ==> t'[y] == t[y]
  {
    t[year := if year in t then t[year] + 1 else 1]
  }

  /** The template `INV-${year}-${lastValue.toString().padStart(6, '0')}`. */
  function FormatInvoiceNumber(year: int, sequence: nat): (s: string)
    ensures |s| == 5 + |IntToString(year)| + Max(6, |NatToString(sequence)|)
    ensures s[..4] == "INV-"
    ensures s[|s| - |NatToString(sequence)|..] == NatToString(sequence)
  {
    NumberShape("INV-" + IntToString(year) + "-", NatToString(sequence));
    "INV-" + IntToString(year) + "-" + PadStart(NatToString(sequence), 6, '0')
  }

  /** A head followed by padded digits: its length, its head, and the digits at its end. */
  lemma NumberShape(head: string, digits: string)
    requires |head| >= 4
    ensures var s := head + PadStart(digits, 6, '0');
      && |s| == |head| + Max(6, |digits|)
      && s[..4] == head[..4]
      && s[|s| - |digits|..] == digits
  {
    var padded := PadStart(digits, 6, '0');
    var s := head + padded;
    assert |padded| == Max(6, |digits|);
    assert s[..4] == head[..4];
    assert s[|s| - |digits|..] == padded[|padded| - |digits|..];
  }

  function Max(a: int, b: int): int {
    if a >= b then a else b
  }

  datatype ParsedNumber = ParsedNumber(year: nat, sequence: nat)

  /** What the pattern `^INV-(\d{4})-(\d{6})$` matches. */
  predicate WellFormed(s: string) {
    |s| == 15 && s[..4] == "INV-" && AllDigits(s[4..8]) && s[8] == '-' && AllDigits(s[9..])
  }

  /** `parseInvoiceNumber`: both groups read as decimal integers, or null. */
  function ParseInvoiceNumber(s: string): (r: Option<ParsedNumber>)
    ensures r.Some? <==> WellFormed(s)
    ensures r.Some? ==> r.value.year < 10000 && r.value.sequence < 1000000
  {
    if WellFormed(s) then
      DigitsToNatBound(s[4..8]);
      DigitsToNatBound(s[9..]);
      Some(ParsedNumber(DigitsToNat(s[4..8]), DigitsToNat(s[9..])))
    else
      None
  }

  /**
   * For a four-digit year and a sequence below 10^6 the number is 15
   * characters long and parses back to the same year and sequence.
   */
  lemma FormatThenParse(year: int, sequence: nat)
    requires 1000 <= year <= 9999 && sequence < 1000000
    ensures |FormatInvoiceNumber(year, sequence)| == 15
    ensures ParseInvoiceNumber(FormatInvoiceNumber(year, sequence)) == Some(ParsedNumber(year, sequence))
  {
    var s := FormatInvoiceNumber(year, sequence);
    FourDigitYear(year);
    SixDigitSequence(sequence);
    SplitNumber(IntToString(year), PadStart(NatToString(sequence), 6, '0'));
    assert s[4..8] == IntToString(year) && s[9..] == PadStart(NatToString(sequence), 6, '0');
  }

  /** A four-digit year renders as four digits that read back as the year. */
  lemma FourDigitYear(year: int)
    requires 1000 <= year <= 9999
    ensures IntToString(year) == NatToString(year) && |IntToString(year)| == 4
    ensures AllDigits(IntToString(year)) && DigitsToNat(IntToString(year)) == year
  {
    NatToStringLength(year, 4);
    NatToStringLength(year, 3);
    assert Pow10(4) == 10000 && Pow10(3) == 1000;
    NatToStringRoundTrip(year);
  }

  /** A sequence below 10^6 pads to six digits that read back as the sequence. */
  lemma SixDigitSequence(sequence: nat)
    requires sequence < 1000000
    ensures var padded := PadStart(NatToString(sequence), 6, '0');
      |padded| == 6 && AllDigits(padded) && DigitsToNat(padded) == sequence
  {
    var digits := NatToString(sequence);
    AtMostSixDigits(sequence);
    ZeroPadded(digits);
    NatToStringRoundTrip(sequence);
  }

  lemma AtMostSixDigits(n: nat)
    requires n < 1000000
    ensures |NatToString(n)| <= 6
  {
    NatToStringLength(n, 6);
    assert Pow10(6) == 1000000;
  }

  lemma ZeroPadded(digits: string)
    requires AllDigits(digits) && |digits| <= 6
    ensures var padded := PadStart(digits, 6, '0');
      |padded| == 6 && AllDigits(padded) && DigitsToNat(padded) == DigitsToNat(digits)
  {
    assert PadStart(digits, 6, '0') == Repeat('0', 6 - |digits|) + digits;
    LeadingZeros(6 - |digits|, digits);
  }

  /** The pieces of a number put together from a four-character year and a six-character sequence. */
  lemma SplitNumber(year: string, padded: string)
    requires |year| == 4 && |padded| == 6
    ensures var s := "INV-" + year + "-" + padded;
      |s| == 15 && s[..4] == "INV-" && s[4..8] == year && s[8] == '-' && s[9..] == padded
  {
  }

  /**
   * Conversely, a well-formed number whose year does not start with '0' is
   * exactly the formatting of what it parses to.
   */
  lemma ParseThenFormat(s: string)
    requires ParseInvoiceNumber(s).Some? && s[4] != '0'
    ensures var p := ParseInvoiceNumber(s).value;
      1000 <= p.year && FormatInvoiceNumber(p.year, p.sequence) == s
  {
    var p := ParseInvoiceNumber(s).value;
    DigitsLowerBound(s[4..8]);
    assert Pow10(3) == 1000;
    DigitsRoundTrip(s[4..8]);
    PaddedDigitsRoundTrip(s[9..], 6);
    assert s == "INV-" + s[4..8] + "-" + s[9..];
  }

  /** Distinct years or sequences in the four-digit, six-digit range give distinct numbers. */
  lemma FormatInjective(y1: int, n1: nat, y2: int, n2: nat)
    requires 1000 <= y1 <= 9999 && n1 < 1000000
    requires 1000 <= y2 <= 9999 && n2 < 1000000
    requires FormatInvoiceNumber(y1, n1) == FormatInvoiceNumber(y2, n2)
    ensures y1 == y2 && n1 == n2
  {
    FormatThenParse(y1, n1);
    FormatThenParse(y2, n2);
  }

  /**
   * From 10^6 on the sequence is not truncated: it is written out in full,
   * the number is longer than 15 characters, and the parser rejects it.
   */
  lemma LargeSequenceNotTruncated(year: int, sequence: nat)
    requires 1000 <= year <= 9999 && sequence >= 1000000
    ensures |FormatInvoiceNumber(year, sequence)| > 15
    ensures ParseInvoiceNumber(FormatInvoiceNumber(year, sequence)) == None
  {
    assert Pow10(3) == 1000 && Pow10(6) == 1000000;
    NatToStringLength(year, 3);
    NatToStringLength(sequence, 6);
    var s := FormatInvoiceNumber(year, sequence);
    assert |IntToString(year)| >= 4 && |NatToString(sequence)| >= 7;
    assert |s| >= 16;
  }

  /** The sequence 1000000 of 2024 is written with seven digits. */
  lemma SevenDigitSequence()
    ensures FormatInvoiceNumber(2024, 1000000) == "INV-2024-1000000"
  {
    YearDigits();
    MillionDigits();
    assert PadStart("1000000", 6, '0') == "1000000";
  }

  lemma YearDigits()
    ensures IntToString(2024) == "2024" && IntToString(2025) == "2025"
  {
    assert NatToString(2) == "2";
    assert NatToString(20) == "20";
    assert NatToString(202) == "202";
    assert NatToString(2024) == "2024";
    assert NatToString(2025) == "2025";
  }

  lemma MillionDigits()
    ensures NatToString(1000000) == "1000000"
  {
    assert NatToString(1) == "1";
    assert NatToString(10) == "10";
    assert NatToString(100) == "100";
    assert NatToString(1000) == "1000";
    assert NatToString(10000) == "10000";
    assert NatToString(100000) == "100000";
  }

  /** The counter table and its `upsert` against the same database. */
  class InvoiceNumberSeq {
    var lastValue: SequenceTable

    constructor ()
      ensures lastValue == map[]
    {
      lastValue := map[];
    }

    method Upsert(year: int) returns (value: nat)
      modifies this
      ensures lastValue == Upserted(old(lastValue), year)
      ensures value == lastValue[year]
    {
      if year in lastValue {
        lastValue := lastValue[year := lastValue[year] + 1];
      } else {
        lastValue := lastValue[year := 1];
      }
      value := lastValue[year];
    }
  }

  /** `generateInvoiceNumber`: advance the year's counter and format its new value. */
  method GenerateInvoiceNumber(seqs: InvoiceNumberSeq, year: int) returns (number: string)
    modifies seqs
    ensures seqs.lastValue == Upserted(old(seqs.lastValue), year)
    ensures number == FormatInvoiceNumber(year, seqs.lastValue[year])
  {
    var value := seqs.Upsert(year);
    number := FormatInvoiceNumber(year, value);
  }

  /**
   * Successive upserts for a year hand out 1, 2, 3, ...: after `k` of them on
   * a table without the year, the year's value is `k`.
   */
  function UpsertTimes(t: SequenceTable, year: int, k: nat): SequenceTable
    decreases k
  {
    if k == 0 then t else Upserted(UpsertTimes(t, year, k - 1), year)
  }

  lemma {:induction false} SequenceCountsCalls(t: SequenceTable, year: int, k: nat)
    requires year !in t && k >= 1
    ensures year in UpsertTimes(t, year, k) && UpsertTimes(t, year, k)[year] == k
    decreases k
  {
    if k > 1 {
      SequenceCountsCalls(t, year, k - 1);
    }
  }

  /** Upserts for one year leave the counters of all other years alone. */
  lemma {:induction false} YearsIndependent(t: SequenceTable, year: int, k: nat, other: int)
    requires other != year
    ensures other in UpsertTimes(t, year, k) <==> other in t
    ensures other in t ==> UpsertTimes(t, year, k)[other] == t[other]
    decreases k
  {
    if k > 0 {
      YearsIndependent(t, year, k - 1, other);
    }
  }

  /** The first number of a year ends in 000001. */
  lemma FirstNumberOfYear(t: SequenceTable)
    requires 2025 !in t
    ensures FormatInvoiceNumber(2025, Upserted(t, 2025)[2025]) == "INV-2025-000001"
  {
    assert Upserted(t, 2025)[2025] == 1;
    FirstNumberText();
  }

  lemma FirstNumberText()
    ensures FormatInvoiceNumber(2025, 1) == "INV-2025-000001"
  {
    YearDigits();
    PaddedOne();
  }

  lemma PaddedOne()
    ensures PadStart(NatToString(1), 6, '0') == "000001"
  {
    assert NatToString(1) == "1";
    assert Repeat('0', 5) == "00000";
  }
}
