/**
 * The 2025 static configuration of the engine: federal and provincial bracket
 * tables, CPP/EI, RRSP, corporate and Canada Child Benefit constants.
 */
module TaxTables {

  /** The upper end of a bracket: a finite amount or JavaScript's `Infinity`. */
  datatype Bound = Finite(value: real) | Unbounded

  /** One marginal bracket `[min, max)` taxed at `rate`. */
  datatype Bracket = Bracket(min: real, max: Bound, rate: real)

  /** `Math.min(x, max)` where `max` may be `Infinity`. */
  function CapAt(x: real, max: Bound): (r: real)
    ensures r <= x
    ensures max.Finite? ==> r <= max.value && (r == x || r == max.value)
    ensures max.Unbounded? ==> r == x
  {
    match max
    case Unbounded => x
    case Finite(m) => if x <= m then x else m
  }

  const FederalBrackets: seq<Bracket> := [
    Bracket(0.0, Finite(55867.0), 0.15),
    Bracket(55867.0, Finite(111733.0), 0.205),
    Bracket(111733.0, Finite(173205.0), 0.26),
    Bracket(173205.0, Finite(246752.0), 0.29),
    Bracket(246752.0, Unbounded, 0.33)
  ]

  const Ontario: seq<Bracket> := [
    Bracket(0.0, Finite(51446.0), 0.0505),
    Bracket(51446.0, Finite(102894.0), 0.0915),
    Bracket(102894.0, Finite(150000.0), 0.1116),
    Bracket(150000.0, Finite(220000.0), 0.1216),
    Bracket(220000.0, Unbounded, 0.1316)
  ]

  const BritishColumbia: seq<Bracket> := [
    Bracket(0.0, Finite(47937.0), 0.0506),
    Bracket(47937.0, Finite(95875.0), 0.077),
    Bracket(95875.0, Finite(110076.0), 0.105),
    Bracket(110076.0, Finite(133664.0), 0.1229),
    Bracket(133664.0, Finite(181232.0), 0.147),
    Bracket(181232.0, Unbounded, 0.168)
  ]

  const Alberta: seq<Bracket> := [
    Bracket(0.0, Finite(148269.0), 0.10),
    Bracket(148269.0, Finite(177922.0), 0.12),
    Bracket(177922.0, Finite(237230.0), 0.13),
    Bracket(237230.0, Finite(355845.0), 0.14),
    Bracket(355845.0, Unbounded, 0.15)
  ]

  const Quebec: seq<Bracket> := [
    Bracket(0.0, Finite(51780.0), 0.14),
    Bracket(51780.0, Finite(103545.0), 0.19),
    Bracket(103545.0, Finite(126000.0), 0.24),
    Bracket(126000.0, Unbounded, 0.2575)
  ]

  const Manitoba: seq<Bracket> := [
    Bracket(0.0, Finite(47000.0), 0.108),
    Bracket(47000.0, Finite(100000.0), 0.1275),
    Bracket(100000.0, Unbounded, 0.174)
  ]

  const Saskatchewan: seq<Bracket> := [
    Bracket(0.0, Finite(52057.0), 0.105),
    Bracket(52057.0, Finite(148734.0), 0.125),
    Bracket(148734.0, Unbounded, 0.145)
  ]

  const NovaScotia: seq<Bracket> := [
    Bracket(0.0, Finite(29590.0), 0.0879),
    Bracket(29590.0, Finite(59180.0), 0.1495),
    Bracket(59180.0, Finite(93000.0), 0.1667),
    Bracket(93000.0, Finite(150000.0), 0.175),
    Bracket(150000.0, Unbounded, 0.21)
  ]

  const NewBrunswick: seq<Bracket> := [
    Bracket(0.0, Finite(49958.0), 0.094),
    Bracket(49958.0, Finite(99916.0), 0.14),
    Bracket(99916.0, Finite(185064.0), 0.16),
    Bracket(185064.0, Unbounded, 0.195)
  ]

  const NewfoundlandLabrador: seq<Bracket> := [
    Bracket(0.0, Finite(43198.0), 0.087),
    Bracket(43198.0, Finite(86395.0), 0.145),
    Bracket(86395.0, Finite(154244.0), 0.158),
    Bracket(154244.0, Finite(215943.0), 0.178),
    Bracket(215943.0, Finite(275870.0), 0.198),
    Bracket(275870.0, Finite(551739.0), 0.208),
    Bracket(551739.0, Finite(1103478.0), 0.213),
    Bracket(1103478.0, Unbounded, 0.218)
  ]

  const PrinceEdwardIsland: seq<Bracket> := [
    Bracket(0.0, Finite(32656.0), 0.0965),
    Bracket(32656.0, Finite(64313.0), 0.1363),
    Bracket(64313.0, Finite(105000.0), 0.1665),
    Bracket(105000.0, Finite(140000.0), 0.18),
    Bracket(140000.0, Unbounded, 0.1875)
  ]

  const NorthwestTerritories: seq<Bracket> := [
    Bracket(0.0, Finite(50597.0), 0.059),
    Bracket(50597.0, Finite(101198.0), 0.086),
    Bracket(101198.0, Finite(164525.0), 0.122),
    Bracket(164525.0, Unbounded, 0.1405)
  ]

  const Nunavut: seq<Bracket> := [
    Bracket(0.0, Finite(53268.0), 0.04),
    Bracket(53268.0, Finite(106537.0), 0.07),
    Bracket(106537.0, Finite(173205.0), 0.09),
    Bracket(173205.0, Unbounded, 0.115)
  ]

  const Yukon: seq<Bracket> := [
    Bracket(0.0, Finite(55867.0), 0.064),
    Bracket(55867.0, Finite(111733.0), 0.09),
    Bracket(111733.0, Finite(173205.0), 0.109),
    Bracket(173205.0, Finite(500000.0), 0.128),
    Bracket(500000.0, Unbounded, 0.15)
  ]

  /** Provincial and territorial tables, keyed by two-letter code. */
  const ProvincialBrackets: map<string, seq<Bracket>> := map[
    "ON" := Ontario, "BC" := BritishColumbia, "AB" := Alberta, "QC" := Quebec, "MB" := Manitoba,
    "SK" := Saskatchewan, "NS" := NovaScotia, "NB" := NewBrunswick, "NL" := NewfoundlandLabrador, "PE" := PrinceEdwardIsland,
    "NT" := NorthwestTerritories, "NU" := Nunavut, "YT" := Yukon]

  // CPP/EI 2025
  const CppMaxEarnings: real := 71300.0
  const CppBasicExemption: real := 3500.0
  const CppRate: real := 0.0595
  const Cpp2MaxEarnings: real := 81200.0
  const Cpp2Rate: real := 0.04
  const EiMaxEarnings: real := 65700.0
  const EiRate: real := 0.0164

  // RRSP 2025
  const RrspLimit2025: real := 32490.0
  const RrspRate: real := 0.18

  // Corporate tax 2025
  const SmallBusinessLimit: real := 500000.0
  const SmallBusinessFederalRate: real := 0.09
  const GeneralFederalRate: real := 0.15
  const ProvincialSmallBusiness: map<string, real> := map[
    "ON" := 0.032, "BC" := 0.02, "AB" := 0.02, "QC" := 0.035, "MB" := 0.00, "SK" := 0.01,
    "NS" := 0.025, "NB" := 0.025, "NL" := 0.03, "PE" := 0.01, "NT" := 0.02, "NU" := 0.03, "YT" := 0.00]
  const ProvincialGeneral: map<string, real> := map[
    "ON" := 0.115, "BC" := 0.12, "AB" := 0.08, "QC" := 0.117, "MB" := 0.12, "SK" := 0.12,
    "NS" := 0.14, "NB" := 0.14, "NL" := 0.15, "PE" := 0.16, "NT" := 0.115, "NU" := 0.12, "YT" := 0.12]

  // Canada Child Benefit 2024-2025
  const CcbMaxUnder6: real := 7787.0
  const CcbMax6To17: real := 6570.0
  const CcbThreshold1: real := 36502.0
  const CcbThreshold2: real := 79087.0
  const CcbRate1OneChild: real := 0.07
  const CcbRate1MultiChild: real := 0.135
  const CcbRate2OneChild: real := 0.032
  const CcbRate2MultiChild: real := 0.057

  /**
   * A table that partitions [0, infinity): it starts at 0, each bracket ends where
   * the next begins, minimums strictly ascend, only the last bracket is unbounded,
   * and every rate lies in [0, 1].
   */
  ghost predicate Partitions(bs: seq<Bracket>) {
    && |bs| > 0
    && bs[0].min == 0.0
    && bs[|bs| - 1].max == Unbounded
    && (forall i :: 0 <= i < |bs| - 1 ==> bs[i].max == Finite(bs[i + 1].min) && bs[i].min < bs[i + 1].min)
    && (forall i :: 0 <= i < |bs| ==> 0.0 <= bs[i].rate <= 1.0)
  }

  /** Every bracket's upper end is at or above its lower end (Infinity always is). */
  ghost predicate Ordered(bs: seq<Bracket>) {
    forall i :: 0 <= i < |bs| ==> bs[i].max.Unbounded? || bs[i].min <= bs[i].max.value
  }

  /** Every rate of the table is non-negative. */
  ghost predicate NonNegativeRates(bs: seq<Bracket>) {
    forall i :: 0 <= i < |bs| ==> bs[i].rate >= 0.0
  }

  /** Every lower bound of the table is non-negative. */
  ghost predicate NonNegativeMins(bs: seq<Bracket>) {
    forall i :: 0 <= i < |bs| ==> bs[i].min >= 0.0
  }

  /** A partitioning table is ordered, and its rates and lower bounds are non-negative. */
  lemma PartitionsIsWellFormed(bs: seq<Bracket>)
    requires Partitions(bs)
    ensures Ordered(bs) && NonNegativeRates(bs) && NonNegativeMins(bs)
  {
    forall i | 0 <= i < |bs|
      ensures bs[i].min >= 0.0
      ensures bs[i].max.Unbounded? || bs[i].min <= bs[i].max.value
    {
      MinsAscend(bs, i);
      if i < |bs| - 1 {
        assert bs[i].max == Finite(bs[i + 1].min);
      }
    }
  }

  lemma {:induction false} MinsAscend(bs: seq<Bracket>, i: nat)
    requires Partitions(bs) && i < |bs|
    ensures bs[i].min >= bs[0].min
  {
    if i > 0 {
      MinsAscend(bs, i - 1);
    }
  }

  /** The federal table partitions [0, infinity). */
  lemma FederalPartitions()
    ensures Partitions(FederalBrackets)
  {
  }

  // The provincial tables, a few at a time.

  lemma ProvincesPartition1()
    ensures Partitions(Ontario) && Partitions(Alberta)
  {
  }

  lemma ProvincesPartition2()
    ensures Partitions(BritishColumbia)
  {
  }

  lemma ProvincesPartition3()
    ensures Partitions(Quebec) && Partitions(Manitoba) && Partitions(Saskatchewan)
  {
  }

  lemma ProvincesPartition4()
    ensures Partitions(NovaScotia) && Partitions(NewBrunswick)
  {
  }

  lemma ProvincesPartition5()
    ensures Partitions(NewfoundlandLabrador)
  {
  }

  lemma ProvincesPartition6()
    ensures Partitions(PrinceEdwardIsland) && Partitions(NorthwestTerritories)
  {
  }

  lemma ProvincesPartition7()
    ensures Partitions(Nunavut) && Partitions(Yukon)
  {
  }

  /** The federal table and every provincial table partition [0, infinity). */
  lemma TablesPartition()
    ensures Partitions(FederalBrackets)
    ensures forall p :: p in ProvincialBrackets ==> Partitions(ProvincialBrackets[p])
  {
    FederalPartitions();
    ProvincesPartition1();
    ProvincesPartition2();
    ProvincesPartition3();
    ProvincesPartition4();
    ProvincesPartition5();
    ProvincesPartition6();
    ProvincesPartition7();
    assert forall t :: t in ProvincialBrackets.Values ==> Partitions(t);
    forall p | p in ProvincialBrackets ensures Partitions(ProvincialBrackets[p]) {
      assert ProvincialBrackets[p] in ProvincialBrackets.Values;
    }
  }
}
