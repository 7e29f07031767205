/**
 * Canada Child Benefit (`calculateCCB`): a per-child maximum by age band,
 * reduced by a two-tier claw-back on family income whose rates depend on the
 * number of children in the list.
 */
module ChildBenefit {
  import opened Base
  import opened TaxTables

  datatype Child = Child(age: int)

  datatype AgeBand = Under6 | SixTo17

  /**
   * One breakdown entry. The source's label "Child n (under 6)" or
   * "Child n (6-17)" is kept as its number `n` and its band.
   */
  datatype Entry = Entry(number: nat, band: AgeBand, age: int, baseAmount: real)

  /** `baseBenefit` and `reduction` are absent from the source's result when there are no children. */
  datatype CcbResult = CcbResult(
    annual: int,
    monthly: int,
    baseBenefit: Option<int>,
    reduction: Option<int>,
    breakdown: seq<Entry>)

  /** `children.filter(c => c.age < 6)`. */
  function ChildrenUnder6(cs: seq<Child>): (r: seq<Child>)
    ensures |r| <= |cs|
    ensures forall i :: 0 <= i < |r| ==> r[i].age < 6
  {
    if cs == [] then []
    else (if cs[0].age < 6 then [cs[0]] else []) + ChildrenUnder6(cs[1..])
  }

  /** `children.filter(c => c.age >= 6 && c.age < 18)`. */
  function Children6To17(cs: seq<Child>): (r: seq<Child>)
    ensures |r| <= |cs|
    ensures forall i :: 0 <= i < |r| ==> 6 <= r[i].age < 18
  {
    if cs == [] then []
    else (if 6 <= cs[0].age < 18 then [cs[0]] else []) + Children6To17(cs[1..])
  }

  /** The children who are eligible at all: those under 18, in list order. */
  function ChildrenUnder18(cs: seq<Child>): seq<Child> {
    if cs == [] then []
    else (if cs[0].age < 18 then [cs[0]] else []) + ChildrenUnder18(cs[1..])
  }

  function BandAmount(band: AgeBand): real {
    match band
    case Under6 => CcbMaxUnder6
    case SixTo17 => CcbMax6To17
  }

  /** The sum of the per-child maximums. */
  function BaseBenefit(cs: seq<Child>): real {
    |ChildrenUnder6(cs)| as real * CcbMaxUnder6 + |Children6To17(cs)| as real * CcbMax6To17
  }

  /** First-tier claw-back rate: lower for a list of exactly one child. */
  function Rate1(numChildren: nat): real {
    if numChildren == 1 then CcbRate1OneChild else CcbRate1MultiChild
  }

  /** Second-tier claw-back rate: lower for a list of exactly one child. */
  function Rate2(numChildren: nat): real {
    if numChildren == 1 then CcbRate2OneChild else CcbRate2MultiChild
  }

  /** The claw-back: income between the thresholds at rate 1, income above the second at rate 2. */
  function Reduction(familyIncome: real, numChildren: nat): real {
    (if familyIncome > CcbThreshold1
     then (Min(familyIncome, CcbThreshold2) - CcbThreshold1) * Rate1(numChildren) else 0.0)
    + (if familyIncome > CcbThreshold2
       then (familyIncome - CcbThreshold2) * Rate2(numChildren) else 0.0)
  }

  /** Entries for one band, numbered consecutively from `first`. */
  function BandEntries(kids: seq<Child>, band: AgeBand, first: nat): (r: seq<Entry>)
    decreases |kids|
  {
    if kids == [] then []
    else
      var n := |kids| - 1;
      BandEntries(kids[..n], band, first) + [Entry(first + n, band, kids[n].age, BandAmount(band))]
  }

  /** The under-6 children first, then the 6-17 ones, numbered 1, 2, ... */
  function Breakdown(cs: seq<Child>): seq<Entry> {
    BandEntries(ChildrenUnder6(cs), Under6, 1)
      + BandEntries(Children6To17(cs), SixTo17, |ChildrenUnder6(cs)| + 1)
  }

  /** `calculateCCB` as a value; `None` stands for a missing children list. */
  function Ccb(familyIncome: real, children: Option<seq<Child>>): CcbResult {
    if children.None? || children.value == [] then CcbResult(0, 0, None, None, [])
    else
      var cs := children.value;
      var base := BaseBenefit(cs);
      var reduction := Reduction(familyIncome, |cs|);
      var finalCcb := Max(0.0, base - reduction);
      CcbResult(Round(finalCcb), Round(finalCcb / 12.0), Some(Round(base)), Some(Round(reduction)), Breakdown(cs))
  }

  /** `calculateCCB`: the breakdown is pushed entry by entry and the reduction accumulated. */
  method CalculateCcb(familyIncome: real, children: Option<seq<Child>>) returns (r: CcbResult)
    ensures r == Ccb(familyIncome, children)
  {
    if children.None? || children.value == [] {
      return CcbResult(0, 0, None, None, []);
    }
    var cs := children.value;
    var under6 := ChildrenUnder6(cs);
    var sixTo17 := Children6To17(cs);
    var baseCcb := |under6| as real * CcbMaxUnder6 + |sixTo17| as real * CcbMax6To17;
    var breakdown: seq<Entry> := [];
    breakdown := PushEntries(breakdown, under6, Under6, 1);
    breakdown := PushEntries(breakdown, sixTo17, SixTo17, |under6| + 1);
    var reduction := 0.0;
    var numChildren := |cs|;
    if familyIncome > CcbThreshold1 {
      var excessIncome1 := Min(familyIncome, CcbThreshold2) - CcbThreshold1;
      var rate1 := if numChildren == 1 then CcbRate1OneChild else CcbRate1MultiChild;
      reduction := reduction + excessIncome1 * rate1;
    }
    if familyIncome > CcbThreshold2 {
      var excessIncome2 := familyIncome - CcbThreshold2;
      var rate2 := if numChildren == 1 then CcbRate2OneChild else CcbRate2MultiChild;
      reduction := reduction + excessIncome2 * rate2;
    }
    assert baseCcb == BaseBenefit(cs) && reduction == Reduction(familyIncome, numChildren);
    var finalCcb := Max(0.0, baseCcb - reduction);
    r := CcbResult(Round(finalCcb), Round(finalCcb / 12.0), Some(Round(baseCcb)), Some(Round(reduction)), breakdown);
  }

  /** One `forEach` of the source: push an entry per child of the band, numbered from `first`. */
  method PushEntries(breakdown: seq<Entry>, kids: seq<Child>, band: AgeBand, first: nat)
    returns (out: seq<Entry>)
    ensures out == breakdown + BandEntries(kids, band, first)
  {
    out := breakdown;
    for i := 0 to |kids|
      invariant out == breakdown + BandEntries(kids[..i], band, first)
    {
      assert kids[..i + 1][..i] == kids[..i];
      out := out + [Entry(first + i, band, kids[i].age, BandAmount(band))];
    }
    assert kids[..|kids|] == kids;
  }

  // ---------------------------------------------------------------------------
  // Properties

  /** A missing or empty children list: no benefit and an empty breakdown. */
  lemma NoChildrenNoBenefit(familyIncome: real, children: Option<seq<Child>>)
    requires children.None? || children.value == []
    ensures Ccb(familyIncome, children) == CcbResult(0, 0, None, None, [])
  {
  }

  lemma {:induction false} BandEntriesAt(kids: seq<Child>, band: AgeBand, first: nat)
    ensures |BandEntries(kids, band, first)| == |kids|
    ensures forall k :: 0 <= k < |kids| ==>
              BandEntries(kids, band, first)[k] == Entry(first + k, band, kids[k].age, BandAmount(band))
  {
    if kids != [] {
      var n := |kids| - 1;
      BandEntriesAt(kids[..n], band, first);
      assert forall k :: 0 <= k < n ==> kids[..n][k] == kids[k];
    }
  }

  /** Splitting the list into the two bands loses and invents no one: it rearranges the under-18 children. */
  lemma {:induction false} BandsPermuteEligible(cs: seq<Child>)
    ensures multiset(ChildrenUnder6(cs) + Children6To17(cs)) == multiset(ChildrenUnder18(cs))
  {
    if cs != [] {
      BandsPermuteEligible(cs[1..]);
    }
  }

  /** Entry k of the breakdown describes child k of the under-6 children followed by the 6-17 ones. */
  lemma BreakdownEntryAt(cs: seq<Child>, k: nat)
    requires k < |ChildrenUnder6(cs)| + |Children6To17(cs)|
    ensures |Breakdown(cs)| == |ChildrenUnder6(cs)| + |Children6To17(cs)|
    ensures Breakdown(cs)[k].number == k + 1
    ensures Breakdown(cs)[k].age == (ChildrenUnder6(cs) + Children6To17(cs))[k].age
    ensures Breakdown(cs)[k].band == (if k < |ChildrenUnder6(cs)| then Under6 else SixTo17)
    ensures Breakdown(cs)[k].baseAmount == BandAmount(Breakdown(cs)[k].band)
  {
    var u, s := ChildrenUnder6(cs), Children6To17(cs);
    BandEntriesAt(u, Under6, 1);
    BandEntriesAt(s, SixTo17, |u| + 1);
    if k >= |u| {
      assert Breakdown(cs)[k] == BandEntries(s, SixTo17, |u| + 1)[k - |u|];
    }
  }

  /**
   * The breakdown has one entry per child under 18, numbered 1, 2, ...: first
   * the under-6 children, then the 6-17 ones, each in list order, each at its band's maximum.
   */
  lemma BreakdownOnePerEligibleChild(cs: seq<Child>)
    ensures |Breakdown(cs)| == |ChildrenUnder6(cs) + Children6To17(cs)| == |ChildrenUnder18(cs)|
    ensures multiset(ChildrenUnder6(cs) + Children6To17(cs)) == multiset(ChildrenUnder18(cs))
    ensures forall k :: 0 <= k < |Breakdown(cs)| ==>
              Breakdown(cs)[k].number == k + 1 &&
              Breakdown(cs)[k].age == (ChildrenUnder6(cs) + Children6To17(cs))[k].age &&
              (Breakdown(cs)[k].band == Under6 <==> k < |ChildrenUnder6(cs)|) &&
              Breakdown(cs)[k].baseAmount == BandAmount(Breakdown(cs)[k].band)
  {
    var both := ChildrenUnder6(cs) + Children6To17(cs);
    BandEntriesAt(ChildrenUnder6(cs), Under6, 1);
    BandEntriesAt(Children6To17(cs), SixTo17, |ChildrenUnder6(cs)| + 1);
    BandsPermuteEligible(cs);
    assert |multiset(both)| == |both|;
    forall k | 0 <= k < |Breakdown(cs)|
      ensures Breakdown(cs)[k].number == k + 1
      ensures Breakdown(cs)[k].age == both[k].age
      ensures Breakdown(cs)[k].band == Under6 <==> k < |ChildrenUnder6(cs)|
      ensures Breakdown(cs)[k].baseAmount == BandAmount(Breakdown(cs)[k].band)
    {
      BreakdownEntryAt(cs, k);
    }
  }

  /** The benefit is never negative. */
  lemma BenefitNonNegative(familyIncome: real, children: Option<seq<Child>>)
    ensures Ccb(familyIncome, children).annual >= 0
    ensures Ccb(familyIncome, children).monthly >= 0
  {
  }

  /** At or below the first threshold nothing is clawed back: the full, whole-dollar base is paid. */
  lemma NoClawBackBelowThreshold(familyIncome: real, cs: seq<Child>)
    requires cs != [] && familyIncome <= CcbThreshold1
    ensures Ccb(familyIncome, Some(cs)).reduction == Some(0)
    ensures Ccb(familyIncome, Some(cs)).annual == Round(BaseBenefit(cs))
    ensures Ccb(familyIncome, Some(cs)).annual
         == |ChildrenUnder6(cs)| * 7787 + |Children6To17(cs)| * 6570
  {
    RoundWhole(|ChildrenUnder6(cs)| * 7787 + |Children6To17(cs)| * 6570);
  }

  /** One child under 6 below the first threshold receives exactly the under-6 maximum. */
  lemma OneYoungChildLowIncome(familyIncome: real, age: int)
    requires age < 6 && familyIncome <= CcbThreshold1
    ensures Ccb(familyIncome, Some([Child(age)])).annual == 7787
    ensures Ccb(familyIncome, Some([Child(age)])).monthly == 649
  {
    var cs := [Child(age)];
    assert ChildrenUnder6(cs[1..]) == [] && Children6To17(cs[1..]) == [];
    NoClawBackBelowThreshold(familyIncome, cs);
  }

  /** Above the first threshold, a list of several children is clawed back faster than a list of one. */
  lemma MultiChildRatesHigher(familyIncome: real, n: nat)
    requires familyIncome > CcbThreshold1 && n >= 2
    ensures Reduction(familyIncome, 1) < Reduction(familyIncome, n)
    ensures Reduction(familyIncome, n) == Reduction(familyIncome, 2)
  {
  }

  /** One child under 6 at 50,000 of family income: the one-child rate claws back 944.86. */
  lemma OneChildAtFiftyThousand()
    ensures Ccb(50000.0, Some([Child(3)])).annual == 6842
  {
    var one := [Child(3)];
    assert ChildrenUnder6(one[1..]) == [] && Children6To17(one[1..]) == [];
    assert BaseBenefit(one) == 7787.0;
    assert Reduction(50000.0, 1) == 944.86;
    assert Max(0.0, 7787.0 - 944.86) == 6842.14;
    assert Round(6842.14) == 6842;
  }

  /**
   * The rates follow the length of the whole list, adults included: a child of
   * 19 adds nothing to the base but switches the claw-back to the multi-child rates.
   */
  lemma AdultInListRaisesClawBack()
    ensures Ccb(50000.0, Some([Child(3)])).annual == 6842
    ensures Ccb(50000.0, Some([Child(3), Child(19)])).annual == 5965
  {
    OneChildAtFiftyThousand();
    var two := [Child(3), Child(19)];
    assert two[1..][1..] == [];
    assert ChildrenUnder6(two[1..]) == [] && Children6To17(two[1..]) == [];
    assert BaseBenefit(two) == 7787.0;
    assert Reduction(50000.0, 2) == 1822.23;
    assert Max(0.0, 7787.0 - 1822.23) == 5964.77;
    assert Round(5964.77) == 5965;
  }

  lemma ReductionMonotone(x: real, y: real, n: nat)
    requires x <= y
    ensures Reduction(x, n) <= Reduction(y, n)
  {
  }

  /** A higher family income never raises the benefit. */
  lemma BenefitNonIncreasing(x: real, y: real, children: Option<seq<Child>>)
    requires x <= y
    ensures Ccb(y, children).annual <= Ccb(x, children).annual
    ensures Ccb(y, children).monthly <= Ccb(x, children).monthly
  {
    if children.Some? && children.value != [] {
      var cs := children.value;
      ReductionMonotone(x, y, |cs|);
      var fx := Max(0.0, BaseBenefit(cs) - Reduction(x, |cs|));
      var fy := Max(0.0, BaseBenefit(cs) - Reduction(y, |cs|));
      RoundMonotone(fy, fx);
      RoundMonotone(fy / 12.0, fx / 12.0);
    }
  }
}
