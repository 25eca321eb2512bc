/** String building blocks used by the composed emit error: Go's `%d` formatting of
    integers, joining a list with a separator, and removing repeated messages while
    keeping the order in which each first appears. Each comes with its inverse or an
    independent characterisation. */
module Text {

  // ---------------------------------------------------------------------------
  // Decimal formatting, as Go's fmt `%d` renders an int

  predicate IsDigit(c: char) {
    '0' <= c <= '9'
  }

  predicate AllDigits(s: string) {
    forall i :: 0 <= i < |s| ==> IsDigit(s[i])
  }

  function DigitChar(d: nat): (c: char)
    requires d < 10
    ensures IsDigit(c)
  {
    ('0' as int + d) as char
  }

  function DigitValue(c: char): (d: nat)
    requires IsDigit(c)
    ensures d < 10
  {
    c as int - '0' as int
  }

  /** The decimal digits of `n`, most significant first, with no leading zero. */
  function NatToDecimal(n: nat): (s: string)
    ensures |s| >= 1 && AllDigits(s)
    ensures s[0] == '0' ==> n == 0 && s == "0"
  {
    if n < 10 then [DigitChar(n)] else NatToDecimal(n / 10) + [DigitChar(n % 10)]
  }

  /** `%d` of a (possibly negative) int: a minus sign followed by the digits of its magnitude. */
  function IntToDecimal(n: int): (s: string)
  {
    if n < 0 then "-" + NatToDecimal(-n) else NatToDecimal(n)
  }

  /** The value of a string of decimal digits (the inverse partner of NatToDecimal). */
  function DecimalValue(s: string): nat
    requires AllDigits(s)
  {
    if s == [] then 0 else DecimalValue(s[..|s| - 1]) * 10 + DigitValue(s[|s| - 1])
  }

  /** Reads back what IntToDecimal writes: an optional minus sign and a digit string. */
  function ParseDecimal(s: string): (n: int)
    requires |s| >= 1
    requires AllDigits(if s[0] == '-' then s[1..] else s)
  {
    if s[0] == '-' then 0 - DecimalValue(s[1..]) as int else DecimalValue(s)
  }

  lemma {:induction false} NatDecimalRoundTrip(n: nat)
    ensures DecimalValue(NatToDecimal(n)) == n
  {
    var s := NatToDecimal(n);
    if n >= 10 {
      NatDecimalRoundTrip(n / 10);
      assert s[..|s| - 1] == NatToDecimal(n / 10);
    }
  }

  /** Formatting an int and reading it back gives the same int. */
  lemma IntDecimalRoundTrip(n: int)
    ensures var s := IntToDecimal(n);
            |s| >= 1 && AllDigits(if s[0] == '-' then s[1..] else s) && ParseDecimal(s) == n
  {
    var s := IntToDecimal(n);
    if n < 0 {
      assert s[1..] == NatToDecimal(-n);
      NatDecimalRoundTrip(-n);
    } else {
      NatDecimalRoundTrip(n);
    }
  }

  // ---------------------------------------------------------------------------
  // Joining and splitting on a one-character separator

  /** `xs` joined with `sep` between consecutive elements (Go's strings.Join). */
  function Join(xs: seq<string>, sep: char): string
  {
    if |xs| == 0 then ""
    else if |xs| == 1 then xs[0]
    else Join(xs[..|xs| - 1], sep) + [sep] + xs[|xs| - 1]
  }

  /** Every element followed by `sep`: what a loop appending `x + sep` per element builds. */
  function Terminated(xs: seq<string>, sep: char): string
  {
    if xs == [] then "" else Terminated(xs[..|xs| - 1], sep) + xs[|xs| - 1] + [sep]
  }

  lemma TerminatedSnoc(xs: seq<string>, x: string, sep: char)
    ensures Terminated(xs + [x], sep) == Terminated(xs, sep) + x + [sep]
  {
    assert (xs + [x])[..|xs|] == xs;
  }

  /** Splits `s` at every occurrence of `sep` (Go's strings.Split: "" splits into [""]). */
  function Split(s: string, sep: char): (parts: seq<string>)
    ensures |parts| >= 1
  {
    if s == [] then [""]
    else
      var init := Split(s[..|s| - 1], sep);
      var c := s[|s| - 1];
      if c == sep then init + [""]
      else init[..|init| - 1] + [init[|init| - 1] + [c]]
  }

  /** Terminating every element and then dropping the final separator is joining. */
  lemma {:induction false} TerminatedIsJoin(xs: seq<string>, sep: char)
    requires |xs| >= 1
    ensures Terminated(xs, sep) == Join(xs, sep) + [sep]
  {
    if |xs| > 1 {
      TerminatedIsJoin(xs[..|xs| - 1], sep);
    } else {
      assert xs[..0] == [];
    }
  }

  lemma {:induction false} SplitWithoutSeparator(b: string, sep: char)
    requires sep !in b
    ensures Split(b, sep) == [b]
  {
    if b != [] {
      var init := b[..|b| - 1];
      SplitWithoutSeparator(init, sep);
      assert b[|b| - 1] != sep;
      assert init + [b[|b| - 1]] == b;
    }
  }

  lemma {:induction false} SplitAfterSeparator(a: string, b: string, sep: char)
    requires sep !in b
    ensures Split(a + [sep] + b, sep) == Split(a, sep) + [b]
  {
    var s := a + [sep] + b;
    if b == [] {
      assert s[..|s| - 1] == a;
    } else {
      var b' := b[..|b| - 1];
      assert s[..|s| - 1] == a + [sep] + b';
      SplitAfterSeparator(a, b', sep);
      assert b' + [b[|b| - 1]] == b;
    }
  }

  /** Splitting undoes joining when no element contains the separator. */
  lemma {:induction false} SplitJoin(xs: seq<string>, sep: char)
    requires |xs| >= 1
    requires forall i :: 0 <= i < |xs| ==> sep !in xs[i]
    ensures Split(Join(xs, sep), sep) == xs
  {
    if |xs| == 1 {
      SplitWithoutSeparator(xs[0], sep);
    } else {
      var init := xs[..|xs| - 1];
      SplitJoin(init, sep);
      SplitAfterSeparator(Join(init, sep), xs[|xs| - 1], sep);
      assert init + [xs[|xs| - 1]] == xs;
    }
  }

  // ---------------------------------------------------------------------------
  // Removing repetitions, keeping first occurrences in order

  /** `s` with every element after its first occurrence removed. */
  function Dedup<T(==)>(s: seq<T>): seq<T>
  {
    if s == [] then []
    else
      var d := Dedup(s[..|s| - 1]);
      if s[|s| - 1] in d then d else d + [s[|s| - 1]]
  }

  /** One more input element is kept iff it was not seen before. */
  lemma DedupSnoc<T>(s: seq<T>, i: nat)
    requires i < |s|
    ensures s[i] in s[..i] ==> Dedup(s[..i + 1]) == Dedup(s[..i])
    ensures s[i] !in s[..i] ==> Dedup(s[..i + 1]) == Dedup(s[..i]) + [s[i]]
  {
    assert s[..i + 1][..i] == s[..i];
    DedupElements(s[..i]);
  }

  /** The position at which `x` first occurs in `s`. */
  function FirstIndex<T(==)>(s: seq<T>, x: T): (k: nat)
    requires x in s
    ensures k < |s| && s[k] == x && x !in s[..k]
  {
    if x in s[..|s| - 1] then FirstIndex(s[..|s| - 1], x) else |s| - 1
  }

  /** Nothing is lost or invented: an element is kept iff it occurs in the input. */
  lemma {:induction false} DedupElements<T>(s: seq<T>)
    ensures forall x :: x in Dedup(s) <==> x in s
  {
    if s != [] {
      var init := s[..|s| - 1];
      DedupElements(init);
      assert s == init + [s[|s| - 1]];
    }
  }

  /** Each element of the input occurs exactly once in the result, the others not at all. */
  lemma {:induction false} DedupCounts<T>(s: seq<T>)
    ensures forall x :: multiset(Dedup(s))[x] == if x in s then 1 else 0
  {
    if s != [] {
      var init := s[..|s| - 1];
      DedupCounts(init);
      DedupElements(init);
      assert s == init + [s[|s| - 1]];
    }
  }

  /** The kept elements come in the order of their first occurrence in the input. */
  lemma {:induction false} DedupFirstOccurrenceOrder<T>(s: seq<T>)
    ensures forall x :: x in Dedup(s) ==> x in s
    ensures forall i, j :: 0 <= i < j < |Dedup(s)| ==>
              FirstIndex(s, Dedup(s)[i]) < FirstIndex(s, Dedup(s)[j])
  {
    DedupElements(s);
    if s != [] {
      var init := s[..|s| - 1];
      var last := s[|s| - 1];
      var d := Dedup(init);
      var r := Dedup(s);
      DedupFirstOccurrenceOrder(init);
      DedupElements(init);
      forall i, j | 0 <= i < j < |r|
        ensures FirstIndex(s, r[i]) < FirstIndex(s, r[j])
      {
        assert r[i] == d[i] && d[i] in init;
        assert FirstIndex(s, r[i]) == FirstIndex(init, d[i]);
        if j < |d| {
          assert r[j] == d[j] && d[j] in init;
          assert FirstIndex(s, r[j]) == FirstIndex(init, d[j]);
        } else {
          assert r[j] == last && last !in init;
          assert FirstIndex(s, r[j]) == |s| - 1;
        }
      }
    }
  }
}
