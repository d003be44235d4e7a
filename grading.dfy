/** The produce-grading function `grade_crop`: six product attributes are
    turned into weights, summed, clamped to [0, 1], mapped to a letter grade
    and its certification label, and the score is rounded to two decimals.
    Weights are exact hundredths (`real`), not binary floats. */
module Grading {
  import opened Text

  // ---------------------------------------------------------------------
  // Weight tables (keys are lower-case) and their defaults
  // ---------------------------------------------------------------------

  const FertilizerWeights: map<string, real> :=
    map["urea" := 0.05, "compost" := 0.18, "vermicompost" := 0.20,
        "biofertilizer" := 0.22, "npk" := 0.10, "dap" := 0.08]
  const FertilizerDefault: real := 0.05

  const SoilWeights: map<string, real> :=
    map["loamy" := 0.18, "sandy" := 0.08, "sandy loam" := 0.15,
        "clay" := 0.10, "silt" := 0.12]
  const SoilDefault: real := 0.08

  const IrrigationWeights: map<string, real> :=
    map["drip" := 0.15, "sprinkler" := 0.12, "flood" := 0.05, "manual" := 0.03]
  const IrrigationDefault: real := 0.03

  const QualityWeights: map<string, real> :=
    map["premium" := 0.18, "high" := 0.14, "medium" := 0.08, "low" := 0.03]
  const QualityDefault: real := 0.03

  /** Fertilizers that earn the interaction bonus together with "organic". */
  const BonusFertilizers: seq<string> := ["compost", "vermicompost", "biofertilizer"]

  /** Python's `table.get(key, default)`. */
  function Get(table: map<string, real>, key: string, default: real): real {
    if key in table then table[key] else default
  }

  function FertilizerWeight(fertilizer: string): real {
    Get(FertilizerWeights, Lower(fertilizer), FertilizerDefault)
  }

  function SoilWeight(soil: string): real {
    Get(SoilWeights, Lower(soil), SoilDefault)
  }

  function IrrigationWeight(irrigation: string): real {
    Get(IrrigationWeights, Lower(irrigation), IrrigationDefault)
  }

  function QualityWeight(quality: string): real {
    Get(QualityWeights, Lower(quality), QualityDefault)
  }

  /** `organic.lower() == 'organic'` */
  predicate IsOrganic(organic: string) {
    Lower(organic) == "organic"
  }

  function OrganicWeight(organic: string): (w: real)
    ensures w == 0.25 <==> IsOrganic(organic)
    ensures w == 0.10 <==> !IsOrganic(organic)
  {
    if IsOrganic(organic) then 0.25 else 0.10
  }

  function Min(x: real, y: real): real { if x <= y then x else y }
  function Max(x: real, y: real): real { if x <= y then y else x }

  /** `min(0.12, max(0, quantity / 500))`: linear up to quantity 60, where it
      saturates. */
  function QuantityTerm(quantity: real): (t: real)
    ensures 0.0 <= t <= 0.12
    ensures quantity <= 0.0 ==> t == 0.0
    ensures 0.0 <= quantity <= 60.0 ==> t == quantity / 500.0
    ensures quantity >= 60.0 ==> t == 0.12
  {
    Min(0.12, Max(0.0, quantity / 500.0))
  }

  /** 0.08 for an organic product grown with compost, vermicompost or
      biofertilizer, 0 otherwise. */
  function InteractionBonus(fertilizer: string, organic: string): (b: real)
    ensures b == 0.08 <==> IsOrganic(organic) && Lower(fertilizer) in BonusFertilizers
    ensures b == 0.0 <==> !(IsOrganic(organic) && Lower(fertilizer) in BonusFertilizers)
  {
    if IsOrganic(organic) && Lower(fertilizer) in BonusFertilizers then 0.08 else 0.0
  }

  /** The sum of all contributions, before clamping. */
  function RawScore(fertilizer: string, organic: string, soil: string, irrigation: string,
                    quantity: real, quality: string): real
  {
    0.0 + FertilizerWeight(fertilizer) + OrganicWeight(organic) + SoilWeight(soil)
        + IrrigationWeight(irrigation) + QualityWeight(quality)
        + QuantityTerm(quantity) + InteractionBonus(fertilizer, organic)
  }

  /** `min(1.0, max(0.0, score))` */
  function ClampedScore(fertilizer: string, organic: string, soil: string, irrigation: string,
                        quantity: real, quality: string): (s: real)
    ensures 0.0 <= s <= 1.0
  {
    Min(1.0, Max(0.0, RawScore(fertilizer, organic, soil, irrigation, quantity, quality)))
  }

  // ---------------------------------------------------------------------
  // Grades and certification labels
  // ---------------------------------------------------------------------

  datatype Grade = APlus | A | B | C | D {
    /** The grade as the source spells it. */
    function Name(): string {
      match this
      case APlus => "A+"
      case A => "A"
      case B => "B"
      case C => "C"
      case D => "D"
    }

    /** The certification label that goes with the grade. */
    function Certification(): string {
      match this
      case APlus => "Organic Premium Plus"
      case A => "Organic Premium"
      case B => "Certified Good"
      case C => "Standard"
      case D => "Needs Improvement"
    }

    /** Position on the ladder, D lowest. */
    function Rank(): nat {
      match this
      case APlus => 4
      case A => 3
      case B => 2
      case C => 1
      case D => 0
    }
  }

  /** The descending threshold ladder 0.85 / 0.70 / 0.55 / 0.40, stated as
      the band each grade covers. */
  function GradeOf(score: real): (g: Grade)
    ensures g == APlus <==> score >= 0.85
    ensures g == A <==> 0.70 <= score < 0.85
    ensures g == B <==> 0.55 <= score < 0.70
    ensures g == C <==> 0.40 <= score < 0.55
    ensures g == D <==> score < 0.40
  {
    if score >= 0.85 then APlus
    else if score >= 0.7 then A
    else if score >= 0.55 then B
    else if score >= 0.4 then C
    else D
  }

  // ---------------------------------------------------------------------
  // Rounding to two decimals
  // ---------------------------------------------------------------------

  /** The integer nearest to `y`, ties to the even neighbour. */
  function RoundHalfEven(y: real): (n: int)
    ensures -0.5 <= n as real - y <= 0.5
    ensures y.Floor <= n <= y.Floor + 1
    ensures y == y.Floor as real ==> n == y.Floor
  {
    var f := y.Floor;
    var frac := y - f as real;
    if frac < 0.5 then f
    else if frac > 0.5 then f + 1
    else if f % 2 == 0 then f
    else f + 1
  }

  /** `round(x, 2)` on the exact value of `x`: a whole number of hundredths,
      at most half a hundredth away from `x`. */
  function Round2(x: real): (r: real)
    ensures -0.005 <= r - x <= 0.005
    ensures (r * 100.0).Floor as real == r * 100.0
    ensures 0.0 <= x <= 1.0 ==> 0.0 <= r <= 1.0
  {
    RoundHalfEven(x * 100.0) as real / 100.0
  }

  // ---------------------------------------------------------------------
  // grade_crop
  // ---------------------------------------------------------------------

  /** The triple `grade_crop` returns. */
  datatype Grading = Grading(score: real, grade: Grade, certification: string)

  function GradeCrop(fertilizer: string, organic: string, soil: string, irrigation: string,
                     quantity: real, quality: string): (r: Grading)
    ensures 0.0 <= r.score <= 1.0
    ensures -0.005 <= r.score - ClampedScore(fertilizer, organic, soil, irrigation, quantity, quality) <= 0.005
    ensures (r.score * 100.0).Floor as real == r.score * 100.0
    ensures r.grade == GradeOf(ClampedScore(fertilizer, organic, soil, irrigation, quantity, quality))
    ensures r.certification == r.grade.Certification()
  {
    var score := ClampedScore(fertilizer, organic, soil, irrigation, quantity, quality);
    var grade := GradeOf(score);
    Grading(Round2(score), grade, grade.Certification())
  }

  // ---------------------------------------------------------------------
  // Properties
  // ---------------------------------------------------------------------

  /** A value missing from its table contributes the table's default. */
  lemma UnknownValuesGetDefaults(fertilizer: string, soil: string, irrigation: string, quality: string)
    ensures Lower(fertilizer) !in FertilizerWeights ==> FertilizerWeight(fertilizer) == 0.05
    ensures Lower(soil) !in SoilWeights ==> SoilWeight(soil) == 0.08
    ensures Lower(irrigation) !in IrrigationWeights ==> IrrigationWeight(irrigation) == 0.03
    ensures Lower(quality) !in QualityWeights ==> QualityWeight(quality) == 0.03
  {
  }

  /** Each lookup lies between the smallest and the largest weight its table
      (together with its default) can give. */
  lemma WeightBounds(fertilizer: string, soil: string, irrigation: string, quality: string)
    ensures 0.05 <= FertilizerWeight(fertilizer) <= 0.22
    ensures 0.08 <= SoilWeight(soil) <= 0.18
    ensures 0.03 <= IrrigationWeight(irrigation) <= 0.15
    ensures 0.03 <= QualityWeight(quality) <= 0.18
  {
  }

  /** Before clamping the sum lies in [0.29, 1.18]: the lower clamp never
      acts, the upper one can. */
  lemma RawScoreBounds(fertilizer: string, organic: string, soil: string, irrigation: string,
                       quantity: real, quality: string)
    ensures 0.29 <= RawScore(fertilizer, organic, soil, irrigation, quantity, quality) <= 1.18
    ensures ClampedScore(fertilizer, organic, soil, irrigation, quantity, quality)
         == Min(1.0, RawScore(fertilizer, organic, soil, irrigation, quantity, quality))
  {
    WeightBounds(fertilizer, soil, irrigation, quality);
  }

  /** The upper clamp is reached: the best attributes sum to 1.18. */
  lemma UpperClampReachable()
    ensures RawScore("biofertilizer", "organic", "loamy", "drip", 60.0, "premium") == 1.18
    ensures ClampedScore("biofertilizer", "organic", "loamy", "drip", 60.0, "premium") == 1.0
  {
    assert FertilizerWeight("biofertilizer") == 0.22 by { LowerOfLowerCase("biofertilizer"); }
    assert IsOrganic("organic") by { LowerOfLowerCase("organic"); }
    assert SoilWeight("loamy") == 0.18 by { LowerOfLowerCase("loamy"); }
    assert IrrigationWeight("drip") == 0.15 by { LowerOfLowerCase("drip"); }
    assert QualityWeight("premium") == 0.18 by { LowerOfLowerCase("premium"); }
    assert InteractionBonus("biofertilizer", "organic") == 0.08 by {
      LowerOfLowerCase("biofertilizer");
      assert BonusFertilizers[2] == "biofertilizer";
    }
  }

  /** A higher score never yields a lower grade. */
  lemma GradeMonotone(s1: real, s2: real)
    requires s1 <= s2
    ensures GradeOf(s1).Rank() <= GradeOf(s2).Rank()
  {
  }

  /** Grades, their names and their certification labels are in one-to-one
      correspondence. */
  lemma GradeLabelsDistinct(g1: Grade, g2: Grade)
    ensures g1.Name() == g2.Name() <==> g1 == g2
    ensures g1.Certification() == g2.Certification() <==> g1 == g2
  {
  }

  /** Every string argument is matched case-insensitively: lower-casing the
      arguments first changes nothing. */
  lemma CaseInsensitive(fertilizer: string, organic: string, soil: string, irrigation: string,
                        quantity: real, quality: string)
    ensures GradeCrop(Lower(fertilizer), Lower(organic), Lower(soil), Lower(irrigation), quantity, Lower(quality))
         == GradeCrop(fertilizer, organic, soil, irrigation, quantity, quality)
  {
    LowerIdempotent(fertilizer);
    LowerIdempotent(organic);
    LowerIdempotent(soil);
    LowerIdempotent(irrigation);
    LowerIdempotent(quality);
  }

  /** A larger quantity never lowers the grade. */
  lemma QuantityMonotone(fertilizer: string, organic: string, soil: string, irrigation: string,
                         q1: real, q2: real, quality: string)
    requires q1 <= q2
    ensures ClampedScore(fertilizer, organic, soil, irrigation, q1, quality)
         <= ClampedScore(fertilizer, organic, soil, irrigation, q2, quality)
    ensures GradeCrop(fertilizer, organic, soil, irrigation, q1, quality).grade.Rank()
         <= GradeCrop(fertilizer, organic, soil, irrigation, q2, quality).grade.Rank()
  {
    GradeMonotone(ClampedScore(fertilizer, organic, soil, irrigation, q1, quality),
                  ClampedScore(fertilizer, organic, soil, irrigation, q2, quality));
  }

  /** The grade is decided on the unrounded score, so the returned score can
      lie across a threshold from the returned grade: a raw 0.846 is graded A
      but reported as 0.85, which is an A+ score. */
  lemma RoundedScoreCanCrossThreshold()
    ensures GradeCrop("urea", "organic", "loamy", "drip", 18.0, "premium") == Grading(0.85, A, "Organic Premium")
    ensures GradeOf(0.85) == APlus
  {
    LowerOfLowerCase("urea");
    LowerOfLowerCase("organic");
    LowerOfLowerCase("loamy");
    LowerOfLowerCase("drip");
    LowerOfLowerCase("premium");
    assert ClampedScore("urea", "organic", "loamy", "drip", 18.0, "premium") == 0.846;
  }

  /** Sums that land exactly on a threshold get that threshold's grade:
      0.05 + 0.25 + 0.12 + 0.05 + 0.08 + 0 = 0.55 is a B. */
  lemma SumOnLowerThreshold()
    ensures GradeCrop("urea", "organic", "silt", "flood", 0.0, "medium") == Grading(0.55, B, "Certified Good")
  {
    LowerOfLowerCase("urea");
    LowerOfLowerCase("organic");
    LowerOfLowerCase("silt");
    LowerOfLowerCase("flood");
    LowerOfLowerCase("medium");
    assert ClampedScore("urea", "organic", "silt", "flood", 0.0, "medium") == 0.55;
  }

  /** 0.18 + 0.25 + 0.15 + 0.03 + 0.08 + 0.08 + 0.08 = 0.85 is an A+. */
  lemma SumOnTopThreshold()
    ensures GradeCrop("compost", "organic", "sandy loam", "manual", 40.0, "medium") == Grading(0.85, APlus, "Organic Premium Plus")
  {
    LowerOfLowerCase("compost");
    LowerOfLowerCase("organic");
    LowerOfLowerCase("sandy loam");
    LowerOfLowerCase("manual");
    LowerOfLowerCase("medium");
    assert BonusFertilizers[0] == "compost";
    assert ClampedScore("compost", "organic", "sandy loam", "manual", 40.0, "medium") == 0.85;
  }

  /** A premium organic lot: 0.05 + 0.25 + 0.18 + 0.15 + 0.18 + 0.12 = 0.93. */
  lemma PremiumOrganicExample()
    ensures GradeCrop("urea", "organic", "loamy", "drip", 500.0, "premium") == Grading(0.93, APlus, "Organic Premium Plus")
  {
    LowerOfLowerCase("urea");
    LowerOfLowerCase("organic");
    LowerOfLowerCase("loamy");
    LowerOfLowerCase("drip");
    LowerOfLowerCase("premium");
  }

  /** A poor conventional lot: 0.08 + 0.10 + 0.08 + 0.03 + 0.03 + 0.02 = 0.34. */
  lemma PoorConventionalExample()
    ensures GradeCrop("dap", "conventional", "sandy", "manual", 10.0, "low") == Grading(0.34, D, "Needs Improvement")
  {
    LowerOfLowerCase("dap");
    LowerOfLowerCase("conventional");
    LowerOfLowerCase("sandy");
    LowerOfLowerCase("manual");
    LowerOfLowerCase("low");
  }

  /** An organic compost lot that earns the interaction bonus:
      0.18 + 0.25 + 0.10 + 0.12 + 0.14 + 0.12 + 0.08 = 0.99. */
  lemma CompostBonusExample()
    ensures GradeCrop("compost", "organic", "clay", "sprinkler", 200.0, "high") == Grading(0.99, APlus, "Organic Premium Plus")
  {
    LowerOfLowerCase("compost");
    LowerOfLowerCase("organic");
    LowerOfLowerCase("clay");
    LowerOfLowerCase("sprinkler");
    LowerOfLowerCase("high");
  }
}
