/**
 * Progressive bracket tax (`calculateTax`): one pass over a bracket table that
 * adds each bracket's share of the income to a running total and records a
 * detail entry for every bracket that taxes a positive amount.
 */
module BracketTax {
  import opened TaxTables

  /**
   * One detail entry. The source renders `min`/`max` as a range string and
   * `rate` as a percentage string; the model keeps the numbers they come from.
   */
  datatype Detail = Detail(min: real, max: Bound, rate: real, taxable: real, tax: real)

  datatype TaxResult = TaxResult(total: real, details: seq<Detail>)

  /** `Math.min(income, bracket.max) - bracket.min`. */
  function Taxable(income: real, b: Bracket): real {
    CapAt(income, b.max) - b.min
  }

  /** What one bracket adds to the total: its taxable amount at its rate once income exceeds its minimum. */
  function Contribution(income: real, b: Bracket): real {
    if income > b.min then Taxable(income, b) * b.rate else 0.0
  }

  /** A bracket gets a detail entry: income exceeds its minimum and its taxable amount is positive. */
  predicate Fires(income: real, b: Bracket) {
    income > b.min && Taxable(income, b) > 0.0
  }

  function DetailOf(income: real, b: Bracket): Detail {
    Detail(b.min, b.max, b.rate, Taxable(income, b), Taxable(income, b) * b.rate)
  }

  /** The running total after the brackets of `bs`, taken in order. */
  function TaxTotal(income: real, bs: seq<Bracket>): real
    decreases |bs|
  {
    if bs == [] then 0.0
    else TaxTotal(income, bs[..|bs| - 1]) + Contribution(income, bs[|bs| - 1])
  }

  /** The detail list after the brackets of `bs`, taken in order. */
  function TaxDetails(income: real, bs: seq<Bracket>): seq<Detail>
    decreases |bs|
  {
    if bs == [] then []
    else
      var b := bs[|bs| - 1];
      TaxDetails(income, bs[..|bs| - 1]) + (if Fires(income, b) then [DetailOf(income, b)] else [])
  }

  /** `calculateTax` as a value, for the pure callers of the engine. */
  function Tax(income: real, bs: seq<Bracket>): TaxResult {
    TaxResult(TaxTotal(income, bs), TaxDetails(income, bs))
  }

  /** `calculateTax`: the loop over the brackets with its running total and detail list. */
  method CalculateTax(income: real, brackets: seq<Bracket>) returns (r: TaxResult)
    ensures r == Tax(income, brackets)
  {
    var tax := 0.0;
    var details: seq<Detail> := [];
    for i := 0 to |brackets|
      invariant tax == TaxTotal(income, brackets[..i])
      invariant details == TaxDetails(income, brackets[..i])
    {
      var b := brackets[i];
      ghost var done := brackets[..i + 1];
      assert done[..i] == brackets[..i] && done[i] == b;
      assert TaxDetails(income, done)
          == TaxDetails(income, brackets[..i]) + (if Fires(income, b) then [DetailOf(income, b)] else []);
      if income > b.min {
        var taxableInBracket := CapAt(income, b.max) - b.min;
        var taxInBracket := taxableInBracket * b.rate;
        tax := tax + taxInBracket;
        if taxableInBracket > 0.0 {
          assert Fires(income, b) && DetailOf(income, b) == Detail(b.min, b.max, b.rate, taxableInBracket, taxInBracket);
          details := details + [Detail(b.min, b.max, b.rate, taxableInBracket, taxInBracket)];
        } else {
          assert !Fires(income, b);
        }
      }
      assert details == TaxDetails(income, done);
    }
    assert brackets[..|brackets|] == brackets;
    r := TaxResult(tax, details);
  }

  // ---------------------------------------------------------------------------
  // Sums over the detail list

  function SumTax(ds: seq<Detail>): real
    decreases |ds|
  {
    if ds == [] then 0.0 else SumTax(ds[..|ds| - 1]) + ds[|ds| - 1].tax
  }

  function SumTaxable(ds: seq<Detail>): real
    decreases |ds|
  {
    if ds == [] then 0.0 else SumTaxable(ds[..|ds| - 1]) + ds[|ds| - 1].taxable
  }

  /** Indices of the brackets that get a detail entry, in table order. */
  function FiringIndices(income: real, bs: seq<Bracket>): seq<nat>
    decreases |bs|
  {
    if bs == [] then []
    else FiringIndices(income, bs[..|bs| - 1]) + (if Fires(income, bs[|bs| - 1]) then [|bs| - 1] else [])
  }

  // ---------------------------------------------------------------------------
  // Properties

  /** On a table whose brackets are not inverted, the total is the sum of the detail entries' tax. */
  lemma {:induction false} TotalIsSumOfDetails(income: real, bs: seq<Bracket>)
    requires Ordered(bs)
    ensures TaxTotal(income, bs) == SumTax(TaxDetails(income, bs))
  {
    if bs != [] {
      var p, b := bs[..|bs| - 1], bs[|bs| - 1];
      assert Ordered(p);
      TotalIsSumOfDetails(income, p);
      var d := TaxDetails(income, bs);
      if Fires(income, b) {
        assert d == TaxDetails(income, p) + [DetailOf(income, b)];
        assert d[..|d| - 1] == TaxDetails(income, p);
      } else {
        assert b.max.Unbounded? || b.min <= b.max.value;
        assert Contribution(income, b) == 0.0;
        assert d == TaxDetails(income, p);
      }
    }
  }

  /**
   * The firing indices are strictly increasing, lie inside the table, and hold
   * exactly the brackets that fire.
   */
  lemma {:induction false} FiringIndicesExact(income: real, bs: seq<Bracket>)
    ensures forall k :: 0 <= k < |FiringIndices(income, bs)| ==> FiringIndices(income, bs)[k] < |bs|
    ensures forall k, l :: 0 <= k < l < |FiringIndices(income, bs)| ==>
              FiringIndices(income, bs)[k] < FiringIndices(income, bs)[l]
    ensures forall j :: 0 <= j < |bs| ==> (j in FiringIndices(income, bs) <==> Fires(income, bs[j]))
  {
    if bs != [] {
      var p := bs[..|bs| - 1];
      FiringIndicesExact(income, p);
      assert forall j :: 0 <= j < |p| ==> p[j] == bs[j];
    }
  }

  /**
   * The detail list holds, in table order, one entry for each firing bracket:
   * entry k describes the bracket at the k-th firing index.
   */
  lemma {:induction false} DetailsFollowFiringBrackets(income: real, bs: seq<Bracket>)
    ensures |TaxDetails(income, bs)| == |FiringIndices(income, bs)|
    ensures forall k :: 0 <= k < |TaxDetails(income, bs)| ==>
              FiringIndices(income, bs)[k] < |bs| &&
              TaxDetails(income, bs)[k] == DetailOf(income, bs[FiringIndices(income, bs)[k]])
  {
    FiringIndicesExact(income, bs);
    if bs != [] {
      var p := bs[..|bs| - 1];
      DetailsFollowFiringBrackets(income, p);
      assert forall j :: 0 <= j < |p| ==> p[j] == bs[j];
    }
  }

  /** Income at or below zero on a table with non-negative minimums: no tax and no detail entries. */
  lemma {:induction false} NoTaxWithoutIncome(income: real, bs: seq<Bracket>)
    requires income <= 0.0
    requires NonNegativeMins(bs)
    ensures Tax(income, bs) == TaxResult(0.0, [])
  {
    if bs != [] {
      assert NonNegativeMins(bs[..|bs| - 1]);
      NoTaxWithoutIncome(income, bs[..|bs| - 1]);
    }
  }

  /** What one well-formed bracket adds never shrinks as income grows. */
  lemma ContributionMonotone(x: real, y: real, b: Bracket)
    requires x <= y
    requires b.rate >= 0.0
    requires b.max.Unbounded? || b.min <= b.max.value
    ensures Contribution(x, b) <= Contribution(y, b)
  {
    if x > b.min {
      assert Taxable(x, b) <= Taxable(y, b);
      assert Taxable(x, b) * b.rate <= Taxable(y, b) * b.rate;
    } else if y > b.min {
      assert Taxable(y, b) >= 0.0;
    }
  }

  /** On a table with no inverted bracket and no negative rate, the total tax is non-decreasing in income. */
  lemma {:induction false} TaxMonotone(x: real, y: real, bs: seq<Bracket>)
    requires x <= y
    requires Ordered(bs) && NonNegativeRates(bs)
    ensures TaxTotal(x, bs) <= TaxTotal(y, bs)
  {
    if bs != [] {
      var p := bs[..|bs| - 1];
      assert Ordered(p) && NonNegativeRates(p);
      TaxMonotone(x, y, p);
      ContributionMonotone(x, y, bs[|bs| - 1]);
    }
  }

  /** One bracket `{0, Infinity, r}` taxes every non-negative income at the flat rate. */
  lemma FlatTax(income: real, r: real)
    requires income >= 0.0
    ensures TaxTotal(income, [Bracket(0.0, Unbounded, r)]) == income * r
  {
    var bs := [Bracket(0.0, Unbounded, r)];
    assert bs[..0] == [];
  }

  /** After the first k brackets of a partitioning table, the detail entries have taxed min(income, end of bracket k). */
  lemma {:induction false} TaxablePrefix(income: real, bs: seq<Bracket>, k: nat)
    requires Partitions(bs) && income >= 0.0
    requires 0 < k <= |bs|
    ensures SumTaxable(TaxDetails(income, bs[..k])) == CapAt(income, bs[k - 1].max)
  {
    var p := bs[..k];
    var b := bs[k - 1];
    assert p[..k - 1] == bs[..k - 1];
    assert p[k - 1] == b;
    FiresIffAboveMin(income, bs, k - 1);
    PartitionsIsWellFormed(bs);
    assert b.min >= 0.0;
    if k > 1 {
      TaxablePrefix(income, bs, k - 1);
      assert bs[k - 2].max == Finite(b.min);
    }
    if k < |bs| {
      assert b.max == Finite(bs[k].min) && b.min < bs[k].min;
    }
    var d := TaxDetails(income, bs[..k - 1]);
    if Fires(income, b) {
      var d' := d + [DetailOf(income, b)];
      assert TaxDetails(income, p) == d';
      assert d'[..|d'| - 1] == d;
    } else {
      assert TaxDetails(income, p) == d;
      assert CapAt(income, b.max) == income;
    }
  }

  /** On a partitioning table, the detail entries' taxable amounts add up to the whole non-negative income. */
  lemma TaxableSumsToIncome(income: real, bs: seq<Bracket>)
    requires Partitions(bs) && income >= 0.0
    ensures SumTaxable(TaxDetails(income, bs)) == income
  {
    TaxablePrefix(income, bs, |bs|);
    assert bs[..|bs|] == bs;
  }

  /** On a partitioning table, a bracket gets a detail entry exactly when income exceeds its minimum. */
  lemma FiresIffAboveMin(income: real, bs: seq<Bracket>, i: nat)
    requires Partitions(bs) && i < |bs|
    ensures Fires(income, bs[i]) <==> income > bs[i].min
  {
    if i < |bs| - 1 {
      assert bs[i].max == Finite(bs[i + 1].min);
    }
  }

  /** Income exactly at the first federal boundary: 15% of it, in a single detail entry. */
  lemma FederalFirstBoundary()
    ensures Tax(55867.0, FederalBrackets)
         == TaxResult(8380.05, [Detail(0.0, Finite(55867.0), 0.15, 55867.0, 8380.05)])
  {
    var bs := FederalBrackets;
    var x := 55867.0;
    var d := [Detail(0.0, Finite(55867.0), 0.15, 55867.0, 8380.05)];
    assert bs[..1][..0] == [];
    assert TaxTotal(x, bs[..1]) == 8380.05 && TaxDetails(x, bs[..1]) == d;
    forall k | 1 <= k < 5
      ensures bs[..k + 1][..k] == bs[..k] && bs[..k + 1][k] == bs[k]
      ensures !Fires(x, bs[k]) && Contribution(x, bs[k]) == 0.0
    {
    }
    assert TaxTotal(x, bs[..2]) == 8380.05 && TaxDetails(x, bs[..2]) == d;
    assert TaxTotal(x, bs[..3]) == 8380.05 && TaxDetails(x, bs[..3]) == d;
    assert TaxTotal(x, bs[..4]) == 8380.05 && TaxDetails(x, bs[..4]) == d;
    assert TaxTotal(x, bs[..5]) == 8380.05 && TaxDetails(x, bs[..5]) == d;
    assert bs[..5] == bs;
  }
}
