/**
 * The Aadhaar checksum: Verhoeff's check-digit scheme over the dihedral
 * group D5, as `validate_verhoeff` and `validate_aadhaar` apply it to a
 * 12-digit identifier.
 */
module Verhoeff {
  import opened Text

  /** The multiplication table of D5 (`VERHOEFF_TABLE_D`). */
  const D: seq<seq<int>> := [
    [0, 1, 2, 3, 4, 5, 6, 7, 8, 9],
    [1, 2, 3, 4, 0, 6, 7, 8, 9, 5],
    [2, 3, 4, 0, 1, 7, 8, 9, 5, 6],
    [3, 4, 0, 1, 2, 8, 9, 5, 6, 7],
    [4, 0, 1, 2, 3, 9, 5, 6, 7, 8],
    [5, 9, 8, 7, 6, 0, 4, 3, 2, 1],
    [6, 5, 9, 8, 7, 1, 0, 4, 3, 2],
    [7, 6, 5, 9, 8, 2, 1, 0, 4, 3],
    [8, 7, 6, 5, 9, 3, 2, 1, 0, 4],
    [9, 8, 7, 6, 5, 4, 3, 2, 1, 0]]

  /** The position-dependent digit permutations (`VERHOEFF_TABLE_P`), row i = position i mod 8. */
  const P: seq<seq<int>> := [
    [0, 1, 2, 3, 4, 5, 6, 7, 8, 9],
    [1, 5, 7, 6, 2, 8, 3, 0, 9, 4],
    [5, 8, 0, 3, 7, 9, 6, 1, 4, 2],
    [8, 9, 1, 6, 0, 4, 3, 5, 2, 7],
    [9, 4, 5, 3, 1, 2, 6, 8, 7, 0],
    [4, 2, 8, 6, 5, 7, 3, 9, 0, 1],
    [2, 7, 9, 3, 8, 0, 6, 4, 1, 5],
    [7, 0, 4, 6, 9, 1, 3, 2, 5, 8]]

  function DigitValue(c: char): (d: nat)
    requires IsDigit(c)
    ensures d < 10
  {
    c as int - '0' as int
  }

  /** The digit at position `i` counted from the right (`reversed_digits[i]`). */
  function ReversedDigit(s: string, i: nat): (d: nat)
    requires AllDigits(s) && i < |s|
    ensures d < 10
  {
    DigitValue(s[|s| - 1 - i])
  }

  /** A table of `rows` rows of ten entries, each a digit. */
  predicate IsTable(t: seq<seq<int>>, rows: nat)
  {
    |t| == rows && forall a :: 0 <= a < rows ==> |t[a]| == 10 && forall b :: 0 <= b < 10 ==> 0 <= t[a][b] < 10
  }

  /** Entries `x` and `y` of row `a` differ. */
  predicate RowApart(t: seq<seq<int>>, a: int, x: int, y: int)
    requires IsTable(t, |t|) && 0 <= a < |t| && 0 <= x < 10 && 0 <= y < 10
  {
    t[a][x] != t[a][y]
  }

  /** Entries `x` and `y` of column `a` differ. */
  predicate ColumnApart(t: seq<seq<int>>, a: int, x: int, y: int)
    requires IsTable(t, 10) && 0 <= a < 10 && 0 <= x < 10 && 0 <= y < 10
  {
    t[x][a] != t[y][a]
  }

  /** A 10x10 table whose every row and every column is a permutation of 0..9. */
  predicate LatinSquareTable(t: seq<seq<int>>)
  {
    IsTable(t, 10) &&
    (forall a, x, y :: 0 <= a < 10 && 0 <= x < 10 && 0 <= y < 10 && x != y ==> RowApart(t, a, x, y)) &&
    (forall a, x, y :: 0 <= a < 10 && 0 <= x < 10 && 0 <= y < 10 && x != y ==> ColumnApart(t, a, x, y))
  }

  /** Eight rows, each a permutation of 0..9. */
  predicate PermutationTable(t: seq<seq<int>>)
  {
    IsTable(t, 8) &&
    forall k, x, y :: 0 <= k < 8 && 0 <= x < 10 && 0 <= y < 10 && x != y ==> RowApart(t, k, x, y)
  }

  /**
   * The accumulator after the first `n` steps of `c := d[c][p[i % 8][digit_i]]`
   * over the reversed digits, starting from 0, for tables `d` and `p`.
   */
  function AccumulateWith(d: seq<seq<int>>, p: seq<seq<int>>, s: string, n: nat): (c: int)
    requires IsTable(d, 10) && IsTable(p, 8) && AllDigits(s) && n <= |s|
    ensures 0 <= c < 10
  {
    if n == 0 then 0
    else d[AccumulateWith(d, p, s, n - 1)][p[(n - 1) % 8][ReversedDigit(s, n - 1)]]
  }

  /** The accumulator of `validate_verhoeff` after `n` reversed digits. */
  function Accumulate(s: string, n: nat): (c: int)
    requires AllDigits(s) && n <= |s|
    ensures 0 <= c < 10
  {
    TablesAreTables();
    AccumulateWith(D, P, s, n)
  }

  /**
   * What `validate_verhoeff` accepts of the cleaned input its caller passes:
   * 12 ASCII digits whose accumulator ends at 0.
   */
  predicate VerhoeffValid(s: string)
  {
    |s| == 12 && AllDigits(s) && Accumulate(s, 12) == 0
  }

  /** `validate_verhoeff`: the length and digit guard, then the fold over the reversed digits. */
  method ValidateVerhoeff(s: string) returns (ok: bool)
    ensures ok <==> VerhoeffValid(s)
  {
    if |s| != 12 || !AllDigits(s) {
      return false;
    }
    TablesAreTables();
    var c := Checksum(D, P, s);
    ok := c == 0;
  }

  /** The loop of `validate_verhoeff`, run over the tables `d` and `p`. */
  method Checksum(d: seq<seq<int>>, p: seq<seq<int>>, s: string) returns (c: int)
    requires IsTable(d, 10) && IsTable(p, 8) && AllDigits(s)
    ensures c == AccumulateWith(d, p, s, |s|)
  {
    c := 0;
    var i := 0;
    while i < |s|
      invariant 0 <= i <= |s|
      invariant c == AccumulateWith(d, p, s, i)
    {
      var digit := DigitValue(s[|s| - 1 - i]);
      c := d[c][p[i % 8][digit]];
      i := i + 1;
    }
  }

  /** The closed form of D5: rotations are 0..4, reflections 5..9. */
  function Dihedral(j: int, k: int): int
    requires 0 <= j < 10 && 0 <= k < 10
  {
    if j < 5 && k < 5 then Mod5(j + k)
    else if j < 5 then 5 + Mod5(j + k)
    else if k < 5 then 5 + Mod5(j - k)
    else Mod5(j - k)
  }

  /** `n % 5` for the small sums and differences `Dihedral` forms. */
  function Mod5(n: int): int
    requires -10 < n < 20
  {
    if n < 0 then n + 5 else if n < 5 then n else if n < 10 then n - 5 else if n < 15 then n - 10 else n - 15
  }

  /** `VERHOEFF_TABLE_D` is exactly the multiplication table of the dihedral group D5. */
  lemma TableIsDihedral(a: int, b: int)
    requires 0 <= a < 10 && 0 <= b < 10
    ensures D[a][b] == Dihedral(a, b)
  {
  }

  /** Both tables have the shape the fold indexes: ten digit entries per row. */
  lemma TablesAreTables()
    ensures IsTable(D, 10) && IsTable(P, 8)
  {
    forall a, b | 0 <= a < 10 && 0 <= b < 10 ensures 0 <= D[a][b] < 10 {
      TableIsDihedral(a, b);
    }
  }

  /** Cancellation in D5: `a*x == a*y` forces `x == y`, and so does `x*a == y*a`. */
  lemma DihedralCancelsLeft(a: int, x: int, y: int)
    requires 0 <= a < 10 && 0 <= x < 10 && 0 <= y < 10 && x != y
    ensures Dihedral(a, x) != Dihedral(a, y)
  {
  }

  lemma DihedralCancelsRight(a: int, x: int, y: int)
    requires 0 <= a < 10 && 0 <= x < 10 && 0 <= y < 10 && x != y
    ensures Dihedral(x, a) != Dihedral(y, a)
  {
  }

  lemma LeftCancels(a: int, x: int, y: int)
    requires 0 <= a < 10 && 0 <= x < 10 && 0 <= y < 10 && x != y
    ensures D[a][x] != D[a][y]
  {
    TableIsDihedral(a, x);
    TableIsDihedral(a, y);
    DihedralCancelsLeft(a, x, y);
  }

  lemma RightCancels(a: int, x: int, y: int)
    requires 0 <= a < 10 && 0 <= x < 10 && 0 <= y < 10 && x != y
    ensures D[x][a] != D[y][a]
  {
    TableIsDihedral(x, a);
    TableIsDihedral(y, a);
    DihedralCancelsRight(a, x, y);
  }

  /** `VERHOEFF_TABLE_D` is a Latin square: D5 has left and right cancellation. */
  lemma LatinSquareD()
    ensures LatinSquareTable(D)
  {
    TablesAreTables();
    forall a, x, y | 0 <= a < 10 && 0 <= x < 10 && 0 <= y < 10 && x != y
      ensures RowApart(D, a, x, y) && ColumnApart(D, a, x, y)
    {
      LeftCancels(a, x, y);
      RightCancels(a, x, y);
    }
  }

  predicate IsPermutationRow(r: seq<int>)
  {
    |r| == 10 && (forall x :: 0 <= x < 10 ==> 0 <= r[x] < 10) &&
    forall x, y :: 0 <= x < y < 10 ==> r[x] != r[y]
  }

  lemma LowPermutationRows(k: int)
    requires 0 <= k < 4
    ensures IsPermutationRow(P[k])
  {
    if k == 0 { assert IsPermutationRow(P[0]); }
    else if k == 1 { assert IsPermutationRow(P[1]); }
    else if k == 2 { assert IsPermutationRow(P[2]); }
    else { assert IsPermutationRow(P[3]); }
  }

  lemma HighPermutationRows(k: int)
    requires 4 <= k < 8
    ensures IsPermutationRow(P[k])
  {
    if k == 4 { assert IsPermutationRow(P[4]); }
    else if k == 5 { assert IsPermutationRow(P[5]); }
    else if k == 6 { assert IsPermutationRow(P[6]); }
    else { assert IsPermutationRow(P[7]); }
  }

  /** Every row of `VERHOEFF_TABLE_P` is a permutation of the ten digits. */
  lemma PermutationTableP()
    ensures PermutationTable(P)
  {
    TablesAreTables();
    forall k, x, y | 0 <= k < 8 && 0 <= x < 10 && 0 <= y < 10 && x != y
      ensures RowApart(P, k, x, y)
    {
      if k < 4 { LowPermutationRows(k); } else { HighPermutationRows(k); }
      if x < y { assert P[k][x] != P[k][y]; } else { assert P[k][y] != P[k][x]; }
    }
  }

  /** Two digit strings that agree on their first `n` reversed digits have the same accumulator there. */
  lemma {:induction false} AccumulateAgrees(d: seq<seq<int>>, p: seq<seq<int>>, s: string, t: string, n: nat)
    requires IsTable(d, 10) && IsTable(p, 8)
    requires AllDigits(s) && AllDigits(t) && |s| == |t| && n <= |s|
    requires forall i :: 0 <= i < n ==> ReversedDigit(s, i) == ReversedDigit(t, i)
    ensures AccumulateWith(d, p, s, n) == AccumulateWith(d, p, t, n)
  {
    if n > 0 {
      AccumulateAgrees(d, p, s, t, n - 1);
    }
  }

  /**
   * Once the accumulators differ after reversed position m, they differ at
   * every later step where the digits agree, because the columns of a
   * Latin square are injective.
   */
  lemma {:induction false} AccumulateStaysApart(d: seq<seq<int>>, p: seq<seq<int>>, s: string, t: string, m: nat, n: nat)
    requires LatinSquareTable(d) && PermutationTable(p)
    requires AllDigits(s) && AllDigits(t) && |s| == |t| && m < n <= |s|
    requires forall i :: m < i < |s| ==> ReversedDigit(s, i) == ReversedDigit(t, i)
    requires AccumulateWith(d, p, s, m + 1) != AccumulateWith(d, p, t, m + 1)
    ensures AccumulateWith(d, p, s, n) != AccumulateWith(d, p, t, n)
  {
    if n > m + 1 {
      AccumulateStaysApart(d, p, s, t, m, n - 1);
      assert ReversedDigit(s, n - 1) == ReversedDigit(t, n - 1);
      var q := p[(n - 1) % 8][ReversedDigit(s, n - 1)];
      assert ColumnApart(d, q, AccumulateWith(d, p, s, n - 1), AccumulateWith(d, p, t, n - 1));
    }
  }

  /**
   * For any Latin-square table and any permutation rows, changing exactly
   * one digit changes the final accumulator.
   */
  lemma SingleDigitChangesAccumulator(d: seq<seq<int>>, p: seq<seq<int>>, s: string, t: string, k: nat)
    requires LatinSquareTable(d) && PermutationTable(p)
    requires AllDigits(s) && AllDigits(t) && |t| == |s| && k < |s| && t[k] != s[k]
    requires forall j :: 0 <= j < |s| && j != k ==> t[j] == s[j]
    ensures AccumulateWith(d, p, s, |s|) != AccumulateWith(d, p, t, |t|)
  {
    var m := |s| - 1 - k;
    forall i | 0 <= i < |s| && i != m ensures ReversedDigit(s, i) == ReversedDigit(t, i) {
      assert |s| - 1 - i != k;
    }
    ChangedStepDiffers(d, p, s, t, m);
    AccumulateStaysApart(d, p, s, t, m, |s|);
  }

  /** The step that reads the changed digit is the first where the accumulators differ. */
  lemma ChangedStepDiffers(d: seq<seq<int>>, p: seq<seq<int>>, s: string, t: string, m: nat)
    requires LatinSquareTable(d) && PermutationTable(p)
    requires AllDigits(s) && AllDigits(t) && |t| == |s| && m < |s|
    requires forall i :: 0 <= i < m ==> ReversedDigit(s, i) == ReversedDigit(t, i)
    requires ReversedDigit(s, m) != ReversedDigit(t, m)
    ensures AccumulateWith(d, p, s, m + 1) != AccumulateWith(d, p, t, m + 1)
  {
    AccumulateAgrees(d, p, s, t, m);
    var x, y := ReversedDigit(s, m), ReversedDigit(t, m);
    assert RowApart(p, m % 8, x, y);
    var c := AccumulateWith(d, p, s, m);
    assert RowApart(d, c, p[m % 8][x], p[m % 8][y]);
  }

  /**
   * Single-digit error detection: changing exactly one digit of an accepted
   * identifier makes the checksum reject it.
   */
  lemma SingleDigitErrorDetected(s: string, t: string, k: nat)
    requires VerhoeffValid(s) && |t| == |s| && AllDigits(t) && k < |s|
    requires t[k] != s[k]
    requires forall j :: 0 <= j < |s| && j != k ==> t[j] == s[j]
    ensures !VerhoeffValid(t)
  {
    LatinSquareD();
    PermutationTableP();
    SingleDigitChangesAccumulator(D, P, s, t, k);
  }

  /** `re.sub(r'[^0-9]', '', s)`: the ASCII digits of `s`, in order. */
  function Clean(s: string): (r: string)
    ensures AllDigits(r) && |r| <= |s|
  {
    if s == [] then []
    else (if IsDigit(s[0]) then [s[0]] else []) + Clean(s[1..])
  }

  /** `validate_aadhaar`: clean, then the length guard, the reserved-prefix guard and the checksum. */
  function ValidateAadhaar(raw: string): (ok: bool)
    ensures ok ==> |Clean(raw)| == 12 && Clean(raw)[0] != '0' && Clean(raw)[0] != '1'
    ensures ok ==> VerhoeffValid(Clean(raw))
  {
    var cleaned := Clean(raw);
    if |cleaned| != 12 then false
    else if cleaned[0] == '0' || cleaned[0] == '1' then false
    else VerhoeffValid(cleaned)
  }

  lemma {:induction false} CleanAppend(a: string, b: string)
    ensures Clean(a + b) == Clean(a) + Clean(b)
  {
    if a != [] {
      assert (a + b)[1..] == a[1..] + b;
      CleanAppend(a[1..], b);
    } else {
      assert a + b == b;
    }
  }

  lemma {:induction false} CleanOfDigits(s: string)
    requires AllDigits(s)
    ensures Clean(s) == s
  {
    if s != [] {
      CleanOfDigits(s[1..]);
    }
  }

  /** Separators do not matter: inserting any non-digit character leaves the verdict unchanged. */
  lemma SeparatorInsensitive(a: string, b: string, sep: char)
    requires !IsDigit(sep)
    ensures ValidateAadhaar(a + [sep] + b) == ValidateAadhaar(a + b)
  {
    CleanAppend(a + [sep], b);
    CleanAppend(a, [sep]);
    CleanAppend(a, b);
    assert Clean([sep]) == [] by { assert [sep][1..] == []; }
    assert Clean(a + [sep] + b) == Clean(a) + Clean(b);
  }

  /** An accepted 12-digit Aadhaar number with one digit changed is rejected. */
  lemma AadhaarSingleDigitError(s: string, t: string, k: nat)
    requires AllDigits(s) && ValidateAadhaar(s)
    requires |t| == |s| && AllDigits(t) && k < |s| && t[k] != s[k]
    requires forall j :: 0 <= j < |s| && j != k ==> t[j] == s[j]
    ensures !ValidateAadhaar(t)
  {
    CleanOfDigits(s);
    CleanOfDigits(t);
    SingleDigitErrorDetected(s, t, k);
  }

  /** The reserved ranges: a cleaned number starting with 0 or 1 is rejected whatever its checksum. */
  lemma ReservedPrefixRejected(raw: string)
    requires Clean(raw) != [] && (Clean(raw)[0] == '0' || Clean(raw)[0] == '1')
    ensures !ValidateAadhaar(raw)
  {
  }

  /** The number used by the worked example below. */
  const Sample: string := "234567890124"

  lemma SampleFirstThree()
    ensures AllDigits(Sample) && IsTable(D, 10) && IsTable(P, 8)
    ensures AccumulateWith(D, P, Sample, 3) == 3
  {
    assert AllDigits(Sample);
    TablesAreTables();
    assert ReversedDigit(Sample, 0) == 4 && P[0][4] == 4 && D[0][4] == 4;
    assert AccumulateWith(D, P, Sample, 1) == 4;
    assert ReversedDigit(Sample, 1) == 2 && P[1][2] == 7 && D[4][7] == 6;
    assert AccumulateWith(D, P, Sample, 2) == 6;
    assert ReversedDigit(Sample, 2) == 1 && P[2][1] == 8 && D[6][8] == 3;
    assert AccumulateWith(D, P, Sample, 3) == 3;
  }

  lemma SampleFirstSix()
    ensures AllDigits(Sample) && IsTable(D, 10) && IsTable(P, 8)
    ensures AccumulateWith(D, P, Sample, 6) == 6
  {
    SampleFirstThree();
    assert ReversedDigit(Sample, 3) == 0 && P[3][0] == 8 && D[3][8] == 6;
    assert AccumulateWith(D, P, Sample, 4) == 6;
    assert ReversedDigit(Sample, 4) == 9 && P[4][9] == 0 && D[6][0] == 6;
    assert AccumulateWith(D, P, Sample, 5) == 6;
    assert ReversedDigit(Sample, 5) == 8 && P[5][8] == 0 && D[6][0] == 6;
    assert AccumulateWith(D, P, Sample, 6) == 6;
  }

  lemma SampleFirstNine()
    ensures AllDigits(Sample) && IsTable(D, 10) && IsTable(P, 8)
    ensures AccumulateWith(D, P, Sample, 9) == 4
  {
    SampleFirstSix();
    assert ReversedDigit(Sample, 6) == 7 && P[6][7] == 4 && D[6][4] == 7;
    assert AccumulateWith(D, P, Sample, 7) == 7;
    assert ReversedDigit(Sample, 7) == 6 && P[7][6] == 3 && D[7][3] == 9;
    assert AccumulateWith(D, P, Sample, 8) == 9;
    assert ReversedDigit(Sample, 8) == 5 && P[0][5] == 5 && D[9][5] == 4;
    assert AccumulateWith(D, P, Sample, 9) == 4;
  }

  /** The last three steps of the worked example bring the accumulator to 0. */
  lemma SampleAccumulatesToZero()
    ensures AllDigits(Sample) && IsTable(D, 10) && IsTable(P, 8)
    ensures AccumulateWith(D, P, Sample, 12) == 0
  {
    SampleFirstNine();
    assert ReversedDigit(Sample, 9) == 4 && P[1][4] == 2 && D[4][2] == 1;
    assert AccumulateWith(D, P, Sample, 10) == 1;
    assert ReversedDigit(Sample, 10) == 3 && P[2][3] == 3 && D[1][3] == 4;
    assert AccumulateWith(D, P, Sample, 11) == 4;
    assert ReversedDigit(Sample, 11) == 2 && P[3][2] == 1 && D[4][1] == 0;
  }

  /** A worked example: 234567890124 is accepted, so the checksum accepts some identifier. */
  lemma ExampleAccepted()
    ensures ValidateAadhaar(Sample)
  {
    SampleAccumulatesToZero();
    CleanOfDigits(Sample);
    assert Accumulate(Sample, 12) == 0;
    assert |Sample| == 12 && Sample[0] == '2';
  }
}
