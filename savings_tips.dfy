/**
 * The savings-tip selector (`generateSavingsTips`): threshold rules over the
 * household's income, savings rate, expenses, savings and RRSP contribution
 * pick a list of tips, which is then sorted by priority. A tip is identified by
 * its kind; its title and priority are what the source attaches to it.
 */
module SavingsTips {
  import opened Base
  import opened Sorting
  import TaxTables

  datatype Priority = Critical | High | Medium | Low | Info

  /** The sort order `{ critical: 0, high: 1, medium: 2, low: 3, info: 4 }`. */
  function Rank(p: Priority): nat {
    match p
    case Critical => 0
    case High => 1
    case Medium => 2
    case Low => 3
    case Info => 4
  }

  datatype TipKind =
    // savings-rate band
    | SpendingExceedsIncome | BuildSafetyNet | PushToward10 | SolidFoundation
    | AboveAverage | ExcellentSaver | IndependenceTrack
    // income tier
    | GovernmentBenefits | TfsaOverRrsp
    | BalanceTfsaRrsp | StartInvesting
    | MaxRegistered | IncomeSplitting | FirstHomeAccount
    | BeyondRegistered | TaxPlanning | ProtectIncome
    // RRSP
    | RrspRefund | RrspRoom
    // emergency fund
    | EmergencyTimeline | FastTrackEmergency
    // expenses, automation, growth, lifestyle
    | HighExpenseRatio | AutomateSavings | CompoundGrowth | RememberToLive

  function Title(k: TipKind): string {
    match k
    case SpendingExceedsIncome => "Spending Exceeds Income"
    case BuildSafetyNet => "Build Your Safety Net First"
    case PushToward10 => "Push Toward 10%"
    case SolidFoundation => "Solid Foundation — Now Optimize"
    case AboveAverage => "Above Average — Keep Pushing"
    case ExcellentSaver => "Excellent Saver"
    case IndependenceTrack => "Financial Independence Track"
    case GovernmentBenefits => "Maximize Government Benefits"
    case TfsaOverRrsp => "TFSA Over RRSP"
    case BalanceTfsaRrsp => "Balance TFSA and RRSP"
    case StartInvesting => "Start Investing"
    case MaxRegistered => "Max Out Registered Accounts"
    case IncomeSplitting => "Consider Income Splitting"
    case FirstHomeAccount => "First Home Savings Account (FHSA)"
    case BeyondRegistered => "Beyond Registered Accounts"
    case TaxPlanning => "Tax Planning Strategies"
    case ProtectIncome => "Protect Your Income"
    case RrspRefund => "RRSP Tax Refund Strategy"
    case RrspRoom => "RRSP Room Available"
    case EmergencyTimeline => "Emergency Fund Timeline"
    case FastTrackEmergency => "Fast-Track Emergency Fund"
    case HighExpenseRatio => "High Expense Ratio"
    case AutomateSavings => "Automate Your Savings"
    case CompoundGrowth => "Power of Compound Growth"
    case RememberToLive => "Don't Forget to Live"
  }

  function PriorityOf(k: TipKind): Priority {
    match k
    case SpendingExceedsIncome => Critical
    case BuildSafetyNet => High
    case PushToward10 => Medium
    case SolidFoundation => Low
    case AboveAverage => Low
    case ExcellentSaver => Info
    case IndependenceTrack => Info
    case GovernmentBenefits => High
    case TfsaOverRrsp => Medium
    case BalanceTfsaRrsp => Medium
    case StartInvesting => Medium
    case MaxRegistered => High
    case IncomeSplitting => Medium
    case FirstHomeAccount => Medium
    case BeyondRegistered => High
    case TaxPlanning => High
    case ProtectIncome => Medium
    case RrspRefund => Medium
    case RrspRoom => Medium
    case EmergencyTimeline => Medium
    case FastTrackEmergency => Low
    case HighExpenseRatio => High
    case AutomateSavings => Low
    case CompoundGrowth => Info
    case RememberToLive => Info
  }

  /** The sort key: the rank of the tip's priority. */
  function Key(k: TipKind): real {
    Rank(PriorityOf(k)) as real
  }

  /** The household figures the selector reads. */
  datatype Inputs = Inputs(
    grossIncome: real,
    netMonthly: real,
    savingsRate: real,
    totalExpenses: real,
    monthlySavings: real,
    rrspContribution: real)

  // ---------------------------------------------------------------------------
  // Derived amounts

  /** `min(gross * RRSP_RATE, RRSP_LIMIT_2025)`. */
  function MaxRrsp(grossIncome: real): real {
    Min(grossIncome * TaxTables.RrspRate, TaxTables.RrspLimit2025)
  }

  /** The RRSP room left after this year's contribution, never negative. */
  function RemainingRrspRoom(grossIncome: real, rrspContribution: real): (r: real)
    ensures r >= 0.0 && r >= MaxRrsp(grossIncome) - rrspContribution
    ensures r == 0.0 || r == MaxRrsp(grossIncome) - rrspContribution
    ensures r <= TaxTables.RrspLimit2025 || rrspContribution < 0.0
  {
    Max(0.0, MaxRrsp(grossIncome) - rrspContribution)
  }

  /** A three-month emergency fund. */
  function EmergencyFund3Months(totalExpenses: real): real {
    totalExpenses * 3.0
  }

  // ---------------------------------------------------------------------------
  // Income tiers

  datatype Tier = LowIncome | MidIncome | HighIncome | VeryHighIncome

  predicate IsLowIncome(g: real) { g < 50000.0 }
  predicate IsMidIncome(g: real) { g >= 50000.0 && g < 100000.0 }
  predicate IsHighIncome(g: real) { g >= 100000.0 && g < 200000.0 }
  predicate IsVeryHighIncome(g: real) { g >= 200000.0 }

  /** Holds when exactly one of four conditions does. */
  predicate ExactlyOne(a: bool, b: bool, c: bool, d: bool) {
    (if a then 1 else 0) + (if b then 1 else 0) + (if c then 1 else 0) + (if d then 1 else 0) == 1
  }

  /** Every income falls in exactly one of the four tiers. */
  lemma TiersPartition(g: real)
    ensures ExactlyOne(IsLowIncome(g), IsMidIncome(g), IsHighIncome(g), IsVeryHighIncome(g))
  {
  }

  /** The tier an income falls in. */
  function TierOf(g: real): (t: Tier)
    ensures t == LowIncome <==> IsLowIncome(g)
    ensures t == MidIncome <==> IsMidIncome(g)
    ensures t == HighIncome <==> IsHighIncome(g)
    ensures t == VeryHighIncome <==> IsVeryHighIncome(g)
  {
    if g < 50000.0 then LowIncome
    else if g < 100000.0 then MidIncome
    else if g < 200000.0 then HighIncome
    else VeryHighIncome
  }

  /** The income block a tip belongs to, if any. */
  function BlockOf(k: TipKind): Option<Tier> {
    match k
    case GovernmentBenefits => Some(LowIncome)
    case TfsaOverRrsp => Some(LowIncome)
    case BalanceTfsaRrsp => Some(MidIncome)
    case StartInvesting => Some(MidIncome)
    case MaxRegistered => Some(HighIncome)
    case IncomeSplitting => Some(HighIncome)
    case FirstHomeAccount => Some(HighIncome)
    case BeyondRegistered => Some(VeryHighIncome)
    case TaxPlanning => Some(VeryHighIncome)
    case ProtectIncome => Some(VeryHighIncome)
    case _ => None
  }

  /** The five sections of the selector, in the order they push their tips. */
  datatype Section = RateSection | IncomeSection | RrspSection | EmergencySection | ClosingSection

  /** The one section that can push a tip. */
  function SectionOf(k: TipKind): Section {
    match k
    case SpendingExceedsIncome | BuildSafetyNet | PushToward10 | SolidFoundation
       | AboveAverage | ExcellentSaver | IndependenceTrack => RateSection
    case RrspRefund | RrspRoom => RrspSection
    case EmergencyTimeline | FastTrackEmergency => EmergencySection
    case HighExpenseRatio | AutomateSavings | CompoundGrowth | RememberToLive => ClosingSection
    case _ => IncomeSection
  }

  predicate IsSavingsRateTip(k: TipKind) {
    SectionOf(k) == RateSection
  }

  // ---------------------------------------------------------------------------
  // The tips each section contributes, in the order it pushes them

  /** The savings-rate chain: the first band the rate falls under. */
  function SavingsRateTips(savingsRate: real): seq<TipKind> {
    if savingsRate < 0.0 then [SpendingExceedsIncome]
    else if savingsRate < 5.0 then [BuildSafetyNet]
    else if savingsRate < 10.0 then [PushToward10]
    else if savingsRate < 15.0 then [SolidFoundation]
    else if savingsRate < 20.0 then [AboveAverage]
    else if savingsRate < 30.0 then [ExcellentSaver]
    else [IndependenceTrack]
  }

  function IncomeTips(grossIncome: real, monthlySavings: real): seq<TipKind> {
    (if IsLowIncome(grossIncome) then [GovernmentBenefits, TfsaOverRrsp] else [])
    + (if IsMidIncome(grossIncome)
       then [BalanceTfsaRrsp] + (if monthlySavings > 500.0 then [StartInvesting] else [])
       else [])
    + (if IsHighIncome(grossIncome) then [MaxRegistered, IncomeSplitting, FirstHomeAccount] else [])
    + (if IsVeryHighIncome(grossIncome) then [BeyondRegistered, TaxPlanning, ProtectIncome] else [])
  }

  function RrspTips(grossIncome: real, rrspContribution: real): seq<TipKind> {
    (if rrspContribution > 0.0 then [RrspRefund] else [])
    + (if RemainingRrspRoom(grossIncome, rrspContribution) > 5000.0 && grossIncome > 60000.0
       then [RrspRoom] else [])
  }

  function EmergencyTips(totalExpenses: real, monthlySavings: real): seq<TipKind> {
    if totalExpenses > 0.0 then
      if monthlySavings > 0.0 && monthlySavings < EmergencyFund3Months(totalExpenses) / 6.0
      then [EmergencyTimeline]
      else if monthlySavings >= EmergencyFund3Months(totalExpenses) / 6.0
      then [FastTrackEmergency]
      else []
    else []
  }

  /** Expenses, automation (always), compound growth and lifestyle, in that order. */
  function ClosingTips(x: Inputs): seq<TipKind> {
    (if x.totalExpenses > x.netMonthly * 0.7 then [HighExpenseRatio] else [])
    + [AutomateSavings]
    + (if x.monthlySavings > 200.0 then [CompoundGrowth] else [])
    + (if x.savingsRate >= 20.0 && x.grossIncome > 80000.0 then [RememberToLive] else [])
  }

  /** The tips in the order they are pushed, before the sort. */
  function CollectTips(x: Inputs): seq<TipKind> {
    SavingsRateTips(x.savingsRate)
    + IncomeTips(x.grossIncome, x.monthlySavings)
    + RrspTips(x.grossIncome, x.rrspContribution)
    + EmergencyTips(x.totalExpenses, x.monthlySavings)
    + ClosingTips(x)
  }

  /** The tips one section pushes. */
  function SectionTips(x: Inputs, s: Section): seq<TipKind> {
    match s
    case RateSection => SavingsRateTips(x.savingsRate)
    case IncomeSection => IncomeTips(x.grossIncome, x.monthlySavings)
    case RrspSection => RrspTips(x.grossIncome, x.rrspContribution)
    case EmergencySection => EmergencyTips(x.totalExpenses, x.monthlySavings)
    case ClosingSection => ClosingTips(x)
  }

  /** The selector's result: the collected tips, stably sorted by priority rank. */
  function SavingsTips(x: Inputs): seq<TipKind> {
    SortBy(CollectTips(x), Key)
  }

  // ---------------------------------------------------------------------------
  // The selector, as the source runs it

  /** The savings-rate chain of `else if`s. */
  method PushSavingsRateTips(tips: seq<TipKind>, savingsRate: real) returns (out: seq<TipKind>)
    ensures out == tips + SavingsRateTips(savingsRate)
  {
    if savingsRate < 0.0 {
      out := tips + [SpendingExceedsIncome];
    } else if savingsRate < 5.0 {
      out := tips + [BuildSafetyNet];
    } else if savingsRate < 10.0 {
      out := tips + [PushToward10];
    } else if savingsRate < 15.0 {
      out := tips + [SolidFoundation];
    } else if savingsRate < 20.0 {
      out := tips + [AboveAverage];
    } else if savingsRate < 30.0 {
      out := tips + [ExcellentSaver];
    } else {
      out := tips + [IndependenceTrack];
    }
  }

  /** The four income-tier blocks, each under its own condition. */
  method PushIncomeTips(tips: seq<TipKind>, g: real, monthlySavings: real) returns (out: seq<TipKind>)
    ensures out == tips + IncomeTips(g, monthlySavings)
  {
    out := tips;
    ghost var low := out;
    if g < 50000.0 {
      out := out + [GovernmentBenefits];
      out := out + [TfsaOverRrsp];
    }
    assert out == low + (if IsLowIncome(g) then [GovernmentBenefits, TfsaOverRrsp] else []);
    ghost var mid := out;
    if g >= 50000.0 && g < 100000.0 {
      out := out + [BalanceTfsaRrsp];
      if monthlySavings > 500.0 {
        out := out + [StartInvesting];
      }
    }
    assert out == mid + (if IsMidIncome(g)
                         then [BalanceTfsaRrsp] + (if monthlySavings > 500.0 then [StartInvesting] else [])
                         else []);
    ghost var high := out;
    if g >= 100000.0 && g < 200000.0 {
      out := out + [MaxRegistered];
      out := out + [IncomeSplitting];
      out := out + [FirstHomeAccount];
    }
    assert out == high + (if IsHighIncome(g) then [MaxRegistered, IncomeSplitting, FirstHomeAccount] else []);
    ghost var veryHigh := out;
    if g >= 200000.0 {
      out := out + [BeyondRegistered];
      out := out + [TaxPlanning];
      out := out + [ProtectIncome];
    }
    assert out == veryHigh + (if IsVeryHighIncome(g) then [BeyondRegistered, TaxPlanning, ProtectIncome] else []);
  }

  method PushRrspTips(tips: seq<TipKind>, g: real, rrspContribution: real) returns (out: seq<TipKind>)
    ensures out == tips + RrspTips(g, rrspContribution)
  {
    out := tips;
    if rrspContribution > 0.0 {
      out := out + [RrspRefund];
    }
    var remainingRoom := RemainingRrspRoom(g, rrspContribution);
    if remainingRoom > 5000.0 && g > 60000.0 {
      out := out + [RrspRoom];
    }
  }

  method PushEmergencyTips(tips: seq<TipKind>, totalExpenses: real, monthlySavings: real) returns (out: seq<TipKind>)
    ensures out == tips + EmergencyTips(totalExpenses, monthlySavings)
  {
    out := tips;
    var emergencyFund3Months := EmergencyFund3Months(totalExpenses);
    if totalExpenses > 0.0 {
      if monthlySavings > 0.0 && monthlySavings < emergencyFund3Months / 6.0 {
        out := out + [EmergencyTimeline];
      } else if monthlySavings >= emergencyFund3Months / 6.0 {
        out := out + [FastTrackEmergency];
      }
    }
  }

  method PushClosingTips(tips: seq<TipKind>, x: Inputs) returns (out: seq<TipKind>)
    ensures out == tips + ClosingTips(x)
  {
    out := tips;
    if x.totalExpenses > x.netMonthly * 0.7 {
      out := out + [HighExpenseRatio];
    }
    out := out + [AutomateSavings];
    ghost var automated := out;
    if x.monthlySavings > 200.0 {
      out := out + [CompoundGrowth];
    }
    if x.savingsRate >= 20.0 && x.grossIncome > 80000.0 {
      out := out + [RememberToLive];
    }
    assert out == automated
      + (if x.monthlySavings > 200.0 then [CompoundGrowth] else [])
      + (if x.savingsRate >= 20.0 && x.grossIncome > 80000.0 then [RememberToLive] else []);
  }

  /** `generateSavingsTips`: pushes each section's tips onto a list, then sorts it by priority. */
  method GenerateSavingsTips(x: Inputs) returns (tips: seq<TipKind>)
    ensures tips == SavingsTips(x)
    ensures multiset(tips) == multiset(CollectTips(x))
    ensures SortedBy(tips, Key)
    ensures forall v :: WithKey(tips, Key, v) == WithKey(CollectTips(x), Key, v)
  {
    var collected := PushSavingsRateTips([], x.savingsRate);
    assert collected == SavingsRateTips(x.savingsRate);
    collected := PushIncomeTips(collected, x.grossIncome, x.monthlySavings);
    collected := PushRrspTips(collected, x.grossIncome, x.rrspContribution);
    collected := PushEmergencyTips(collected, x.totalExpenses, x.monthlySavings);
    collected := PushClosingTips(collected, x);
    assert collected == CollectTips(x);
    SortBySpec(collected, Key);
    tips := SortBy(collected, Key);
  }

  // ---------------------------------------------------------------------------
  // Properties

  /** The savings-rate bands as a table: upper bound (exclusive) and tip; the last tip has no bound. */
  const RateBands: seq<(real, TipKind)> := [
    (0.0, SpendingExceedsIncome), (5.0, BuildSafetyNet), (10.0, PushToward10),
    (15.0, SolidFoundation), (20.0, AboveAverage), (30.0, ExcellentSaver)]

  /** The tip of the first band in `bands` whose bound the rate is under, else the open-ended tip. */
  function FirstBand(bands: seq<(real, TipKind)>, savingsRate: real): TipKind {
    if bands == [] then IndependenceTrack
    else if savingsRate < bands[0].0 then bands[0].1
    else FirstBand(bands[1..], savingsRate)
  }

  /** The chain of `else if`s picks the first matching band of the table. */
  lemma SavingsRateIsFirstBand(savingsRate: real)
    ensures SavingsRateTips(savingsRate) == [FirstBand(RateBands, savingsRate)]
  {
    var b := RateBands;
    if savingsRate < 0.0 { FirstMatch(b, savingsRate, 0); }
    else if savingsRate < 5.0 { FirstMatch(b, savingsRate, 1); }
    else if savingsRate < 10.0 { FirstMatch(b, savingsRate, 2); }
    else if savingsRate < 15.0 { FirstMatch(b, savingsRate, 3); }
    else if savingsRate < 20.0 { FirstMatch(b, savingsRate, 4); }
    else if savingsRate < 30.0 { FirstMatch(b, savingsRate, 5); }
    else { FirstMatch(b, savingsRate, |b|); }
  }

  /**
   * FirstBand gives the tip of band i when i is the first band whose bound the
   * rate is under; when the rate is under none, it gives the open-ended tip.
   */
  lemma {:induction false} FirstMatch(bands: seq<(real, TipKind)>, savingsRate: real, i: nat)
    requires i <= |bands|
    requires forall j :: 0 <= j < i ==> savingsRate >= bands[j].0
    requires i < |bands| ==> savingsRate < bands[i].0
    ensures FirstBand(bands, savingsRate) == if i < |bands| then bands[i].1 else IndependenceTrack
  {
    if bands != [] && i > 0 {
      assert savingsRate >= bands[0].0;
      FirstMatch(bands[1..], savingsRate, i - 1);
    }
  }

  /** Each income tier's block, in the order the source pushes it. */
  function BlockTips(t: Tier, monthlySavings: real): seq<TipKind> {
    match t
    case LowIncome => [GovernmentBenefits, TfsaOverRrsp]
    case MidIncome => [BalanceTfsaRrsp] + (if monthlySavings > 500.0 then [StartInvesting] else [])
    case HighIncome => [MaxRegistered, IncomeSplitting, FirstHomeAccount]
    case VeryHighIncome => [BeyondRegistered, TaxPlanning, ProtectIncome]
  }

  /** Every tip of a tier's block belongs to that tier. */
  lemma BlockTipsOwnTier(t: Tier, monthlySavings: real)
    ensures forall k :: k in BlockTips(t, monthlySavings) ==> BlockOf(k) == Some(t)
  {
  }

  /** The four independent tier tests fire exactly one block: the income's own tier. */
  lemma IncomeTipsSingleBlock(g: real, monthlySavings: real)
    ensures IncomeTips(g, monthlySavings) == BlockTips(TierOf(g), monthlySavings)
    ensures forall k :: k in IncomeTips(g, monthlySavings) ==> BlockOf(k) == Some(TierOf(g))
  {
    var mid := [BalanceTfsaRrsp] + (if monthlySavings > 500.0 then [StartInvesting] else []);
    assert [] + [] + mid + [] == mid;
    BlockTipsOwnTier(TierOf(g), monthlySavings);
  }

  /** Every section pushes only tips of its own. */
  lemma SectionHoldsOwn(x: Inputs, s: Section, k: TipKind)
    requires k in SectionTips(x, s)
    ensures SectionOf(k) == s
  {
    if s == IncomeSection {
      IncomeTipsSingleBlock(x.grossIncome, x.monthlySavings);
    }
  }

  /** A tip is collected exactly when its own section pushes it. */
  lemma InOwnSection(x: Inputs, k: TipKind)
    ensures k in CollectTips(x) <==> k in SectionTips(x, SectionOf(k))
  {
    var c := CollectTips(x);
    assert k in c <==>
      || k in SectionTips(x, RateSection) || k in SectionTips(x, IncomeSection)
      || k in SectionTips(x, RrspSection) || k in SectionTips(x, EmergencySection)
      || k in SectionTips(x, ClosingSection);
    if k in SectionTips(x, RateSection) { SectionHoldsOwn(x, RateSection, k); }
    if k in SectionTips(x, IncomeSection) { SectionHoldsOwn(x, IncomeSection, k); }
    if k in SectionTips(x, RrspSection) { SectionHoldsOwn(x, RrspSection, k); }
    if k in SectionTips(x, EmergencySection) { SectionHoldsOwn(x, EmergencySection, k); }
    if k in SectionTips(x, ClosingSection) { SectionHoldsOwn(x, ClosingSection, k); }
  }

  /** Sorting keeps every tip that was collected. */
  lemma InSorted(s: seq<TipKind>, k: TipKind)
    ensures k in SortBy(s, Key) <==> k in s
  {
    SortByCorrect(s, Key);
    assert k in SortBy(s, Key) <==> k in multiset(SortBy(s, Key));
  }

  /** A tip is in the result exactly when its own section pushes it. */
  lemma InResult(x: Inputs, k: TipKind)
    ensures k in SavingsTips(x) <==> k in SectionTips(x, SectionOf(k))
  {
    InSorted(CollectTips(x), k);
    InOwnSection(x, k);
  }

  lemma {:induction false} NoneCounted<T>(s: seq<T>, p: T -> bool)
    requires forall i :: 0 <= i < |s| ==> !p(s[i])
    ensures Count(s, p) == 0
  {
    if s != [] {
      NoneCounted(s[1..], p);
    }
  }

  /** A section other than the savings-rate one pushes no savings-rate tip. */
  lemma NoRateTipElsewhere(x: Inputs, s: Section)
    requires s != RateSection
    ensures Count(SectionTips(x, s), IsSavingsRateTip) == 0
  {
    var t := SectionTips(x, s);
    forall i | 0 <= i < |t| ensures !IsSavingsRateTip(t[i]) {
      SectionHoldsOwn(x, s, t[i]);
    }
    NoneCounted(t, IsSavingsRateTip);
  }

  /** The collected tips hold exactly one savings-rate tip. */
  lemma CollectedRateCount(x: Inputs)
    ensures Count(CollectTips(x), IsSavingsRateTip) == 1
  {
    var rate := SectionTips(x, RateSection);
    var inc := SectionTips(x, IncomeSection);
    var rrsp := SectionTips(x, RrspSection);
    var em := SectionTips(x, EmergencySection);
    var cl := SectionTips(x, ClosingSection);
    NoRateTipElsewhere(x, IncomeSection);
    NoRateTipElsewhere(x, RrspSection);
    NoRateTipElsewhere(x, EmergencySection);
    NoRateTipElsewhere(x, ClosingSection);
    assert Count(rate, IsSavingsRateTip) == 1 by {
      assert rate[1..] == [];
    }
    CountConcat(rate, inc, IsSavingsRateTip);
    CountConcat(rate + inc, rrsp, IsSavingsRateTip);
    CountConcat(rate + inc + rrsp, em, IsSavingsRateTip);
    CountConcat(rate + inc + rrsp + em, cl, IsSavingsRateTip);
    assert CollectTips(x) == rate + inc + rrsp + em + cl;
  }

  /** Exactly one savings-rate tip is given, the one the rate's band calls for. */
  lemma ExactlyOneSavingsRateTip(x: Inputs)
    ensures Count(SavingsTips(x), IsSavingsRateTip) == 1
    ensures FirstBand(RateBands, x.savingsRate) in SavingsTips(x)
  {
    CollectedRateCount(x);
    SortByCount(CollectTips(x), Key, IsSavingsRateTip);
    SavingsRateIsFirstBand(x.savingsRate);
    var k := FirstBand(RateBands, x.savingsRate);
    assert k in SectionTips(x, RateSection);
    SectionHoldsOwn(x, RateSection, k);
    InResult(x, k);
  }

  /** Only the income block of the taxpayer's own tier contributes tips. */
  lemma OnlyOwnTierBlock(x: Inputs, k: TipKind)
    requires k in SavingsTips(x) && BlockOf(k).Some?
    ensures BlockOf(k) == Some(TierOf(x.grossIncome))
  {
    InResult(x, k);
    assert SectionOf(k) == IncomeSection;
    IncomeTipsSingleBlock(x.grossIncome, x.monthlySavings);
  }

  /** "Automate Your Savings" is always given, so the result is never empty. */
  lemma AutomateAlwaysPresent(x: Inputs)
    ensures AutomateSavings in SavingsTips(x)
    ensures |SavingsTips(x)| >= 2
  {
    assert AutomateSavings in SectionTips(x, ClosingSection);
    InResult(x, AutomateSavings);
    assert |SectionTips(x, RateSection)| == 1;
    assert |CollectTips(x)| >= |SectionTips(x, RateSection)| + |SectionTips(x, ClosingSection)|;
  }

  /** The only critical tip is the overspending one, collected only at a negative rate. */
  lemma CollectedCritical(x: Inputs, k: TipKind)
    requires k in CollectTips(x) && PriorityOf(k) == Critical
    ensures k == SpendingExceedsIncome && x.savingsRate < 0.0
  {
    InOwnSection(x, k);
  }

  /** A critical tip is given exactly when the savings rate is negative. */
  lemma CriticalIffNegativeRate(x: Inputs)
    ensures (exists i :: 0 <= i < |SavingsTips(x)| && PriorityOf(SavingsTips(x)[i]) == Critical)
        <==> x.savingsRate < 0.0
  {
    var t := SavingsTips(x);
    if x.savingsRate < 0.0 {
      InResult(x, SpendingExceedsIncome);
      var i :| 0 <= i < |t| && t[i] == SpendingExceedsIncome;
      assert PriorityOf(t[i]) == Critical;
    } else {
      forall i | 0 <= i < |t| ensures PriorityOf(t[i]) != Critical {
        InSorted(CollectTips(x), t[i]);
        if PriorityOf(t[i]) == Critical {
          CollectedCritical(x, t[i]);
        }
      }
    }
  }

  /** The emergency-fund tips exclude each other, and neither is given without expenses. */
  lemma EmergencyTipsExclusive(x: Inputs)
    ensures !(EmergencyTimeline in SavingsTips(x) && FastTrackEmergency in SavingsTips(x))
    ensures x.totalExpenses <= 0.0 ==>
              EmergencyTimeline !in SavingsTips(x) && FastTrackEmergency !in SavingsTips(x)
  {
    InResult(x, EmergencyTimeline);
    InResult(x, FastTrackEmergency);
  }

  /** Tips of equal priority keep the order in which they were pushed. */
  lemma EqualPriorityKeepsOrder(x: Inputs, p: Priority)
    ensures WithKey(SavingsTips(x), Key, Rank(p) as real) == WithKey(CollectTips(x), Key, Rank(p) as real)
  {
    SortByStable(CollectTips(x), Key, Rank(p) as real);
  }
}
