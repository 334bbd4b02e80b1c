/**
  Version strings compared the way `compare(_:options: .numeric)` orders
  them: runs of decimal digits compare by their numeric value, every other
  character by its code point, and a string that is a proper prefix of the
  other comes first.
*/
module VersionOrder {
  datatype Ordering = OrderedAscending | OrderedSame | OrderedDescending

  function Flip(o: Ordering): Ordering
  {
    match o
    case OrderedAscending => OrderedDescending
    case OrderedSame => OrderedSame
    case OrderedDescending => OrderedAscending
  }

  predicate IsDigit(c: char)
  {
    '0' <= c <= '9'
  }

  /** The length of the run of digits `s` starts with. */
  function DigitRun(s: string): (n: nat)
    ensures n <= |s|
    ensures forall k :: 0 <= k < n ==> IsDigit(s[k])
    ensures n < |s| ==> !IsDigit(s[n])
  {
    if s == [] || !IsDigit(s[0]) then 0 else 1 + DigitRun(s[1..])
  }

  /** The number a string of digits denotes. */
  function DigitsValue(digits: string): nat
    requires forall k :: 0 <= k < |digits| ==> IsDigit(digits[k])
  {
    if digits == [] then 0
    else
      var last := digits[|digits| - 1];
      assert IsDigit(last);
      10 * DigitsValue(digits[..|digits| - 1]) + (last as int - '0' as int)
  }

  /** `a.compare(b, options: .numeric)`: where `a` stands relative to `b`. */
  function NumericCompare(a: string, b: string): Ordering
    decreases |a| + |b|
  {
    if a == [] && b == [] then OrderedSame
    else if a == [] then OrderedAscending
    else if b == [] then OrderedDescending
    else if IsDigit(a[0]) && IsDigit(b[0]) then
      var m := DigitRun(a);
      var n := DigitRun(b);
      var x := DigitsValue(a[..m]);
      var y := DigitsValue(b[..n]);
      if x < y then OrderedAscending
      else if x > y then OrderedDescending
      else NumericCompare(a[m..], b[n..])
    else if a[0] < b[0] then OrderedAscending
    else if a[0] > b[0] then OrderedDescending
    else NumericCompare(a[1..], b[1..])
  }

  /** Swapping the operands flips the order: the comparison is antisymmetric. */
  lemma {:induction false} CompareFlips(a: string, b: string)
    ensures NumericCompare(b, a) == Flip(NumericCompare(a, b))
    decreases |a| + |b|
  {
    if a == [] || b == [] {
    } else if IsDigit(a[0]) && IsDigit(b[0]) {
      var m := DigitRun(a);
      var n := DigitRun(b);
      if DigitsValue(a[..m]) == DigitsValue(b[..n]) {
        CompareFlips(a[m..], b[n..]);
      }
    } else if a[0] == b[0] {
      CompareFlips(a[1..], b[1..]);
    }
  }

  /** Every string is the same as itself. */
  lemma {:induction false} CompareReflexive(a: string)
    ensures NumericCompare(a, a) == OrderedSame
    decreases |a|
  {
    if a != [] {
      if IsDigit(a[0]) {
        CompareReflexive(a[DigitRun(a)..]);
      } else {
        CompareReflexive(a[1..]);
      }
    }
  }

  /** A single digit stands for its own value. */
  lemma OneDigit(s: string)
    requires |s| >= 1 && IsDigit(s[0]) && (|s| == 1 || !IsDigit(s[1]))
    ensures DigitRun(s) == 1
    ensures DigitsValue(s[..1]) == s[0] as int - '0' as int
  {
    assert DigitRun(s[1..]) == 0;
    assert s[..1][..0] == [];
  }

  /** ".0" comes before ".1". */
  lemma LastComponentStep()
    ensures NumericCompare(".0", ".1") == OrderedAscending
  {
    OneDigit("0");
    OneDigit("1");
    assert "0"[..1] == "0" && "1"[..1] == "1";
    assert NumericCompare("0", "1") == OrderedAscending;
    assert ".0"[1..] == "0" && ".1"[1..] == "1";
  }

  /** ".0.0" comes before ".0.1". */
  lemma MiddleComponentStep()
    ensures NumericCompare(".0.0", ".0.1") == OrderedAscending
  {
    LastComponentStep();
    OneDigit("0.0");
    OneDigit("0.1");
    assert "0.0"[..1] == "0" && "0.1"[..1] == "0";
    assert "0.0"[1..] == ".0" && "0.1"[1..] == ".1";
    assert NumericCompare("0.0", "0.1") == OrderedAscending;
    assert ".0.0"[1..] == "0.0" && ".0.1"[1..] == "0.1";
  }

  /** "1.0.0" comes before "1.0.1". */
  lemma PatchLevelExample()
    ensures NumericCompare("1.0.0", "1.0.1") == OrderedAscending
  {
    MiddleComponentStep();
    OneDigit("1.0.0");
    OneDigit("1.0.1");
    assert "1.0.0"[..1] == "1" && "1.0.1"[..1] == "1";
    assert "1.0.0"[1..] == ".0.0" && "1.0.1"[1..] == ".0.1";
  }

  /** "1.9" comes before "1.10": digit runs compare by value, not character by character. */
  lemma MinorLevelExample()
    ensures NumericCompare("1.9", "1.10") == OrderedAscending
  {
    OneDigit("9");
    assert DigitRun("10") == 2 by {
      assert "10"[1..] == "0";
      OneDigit("0");
    }
    assert DigitsValue("10") == 10 by {
      assert "10"[..1] == "1";
      OneDigit("1");
    }
    assert "9"[..1] == "9" && "10"[..2] == "10";
    assert NumericCompare("9", "10") == OrderedAscending;
    assert ".9"[1..] == "9" && ".10"[1..] == "10";
    assert NumericCompare(".9", ".10") == OrderedAscending;
    OneDigit("1.9");
    OneDigit("1.10");
    assert "1.9"[..1] == "1" && "1.10"[..1] == "1";
    assert "1.9"[1..] == ".9" && "1.10"[1..] == ".10";
  }
}
