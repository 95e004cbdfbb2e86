/**
  The analysis behind the "Analyze Task" button: an energy weight per compute
  tier, a current and an "optimized" grid carbon intensity, a recommended
  execution window, the percentage reduction and the CO₂ saved.

  The three `random.randint` draws are parameters whose preconditions are the
  draw ranges; `Submit` adds the button-and-sentinel guard around `Analyze`.
*/
module Scheduler {
  import opened Wrappers
  import Clock

  /** The compute-resource tiers offered by the selector. */
  datatype Tier = LowGPU | MediumGPU | HighGPU

  /** The selector's choices, in display order; the first is the "nothing chosen" sentinel. */
  const ResourceOptions: seq<string> := ["Select", "Low GPU", "Medium GPU", "High GPU"]
  const Sentinel: string := "Select"

  /** `energy_map`: the energy weight of each tier, keyed by its selector label. */
  const EnergyMap: map<string, real> := map["Low GPU" := 0.6, "Medium GPU" := 1.2, "High GPU" := 2.0]

  /** Ranges of the three `random.randint` draws (both ends included). */
  const BaseLow: int := 480
  const BaseHigh: int := 620
  const CutLow: int := 120
  const CutHigh: int := 200
  /** The smallest cut the `min` clamp enforces. */
  const MinimumCut: int := 60

  function Label(t: Tier): string {
    match t
    case LowGPU => "Low GPU"
    case MediumGPU => "Medium GPU"
    case HighGPU => "High GPU"
  }

  /** The tier a selector label names. */
  function TierOf(resource: string): (t: Tier)
    requires resource in EnergyMap
    ensures Label(t) == resource
  {
    if resource == "Low GPU" then LowGPU
    else if resource == "Medium GPU" then MediumGPU
    else HighGPU
  }

  /** Position of a tier in the selector, which is also its order of energy use. */
  function Rank(t: Tier): nat {
    match t
    case LowGPU => 0
    case MediumGPU => 1
    case HighGPU => 2
  }

  /** `energy_map[resource]` for the tier's label. */
  function Weight(t: Tier): (w: real)
    ensures w > 0.0
  {
    EnergyMap[Label(t)]
  }

  function Min(a: int, b: int): int {
    if a <= b then a else b
  }

  /**
    `min(base - cut, base - 60)`: the optimized intensity is at least 60 below
    the base, and the clamp leaves `base - cut` alone whenever the cut is 60 or more.
  */
  function OptimizedIntensity(base: int, cut: int): (o: int)
    ensures o <= base - MinimumCut && o <= base - cut
    ensures cut >= MinimumCut ==> o == base - cut
    ensures cut < MinimumCut ==> o == base - MinimumCut
  {
    Min(base - cut, base - MinimumCut)
  }

  /** The window `(best_start, best_end)` that starts at the drawn hour. */
  function Window(duration: int, startDraw: int): (w: (nat, nat))
    requires 1 <= duration <= 24 && 0 <= startDraw <= 24 - duration
    ensures w.0 <= 23 && w.1 == w.0 + duration && w.1 <= 24
    ensures duration == 24 ==> w == (0, 24)
  {
    (startDraw, startDraw + duration)
  }

  /**
    `(base - optimized) / base * 100`, in exact arithmetic: the drop as a
    percentage of the base, positive when the intensity falls and below 100
    while the optimized intensity stays positive.
  */
  function Reduction(base: int, optimized: int): (r: real)
    requires base > 0
    ensures r * base as real == (base - optimized) as real * 100.0
    ensures optimized < base ==> 0.0 < r
    ensures 0 < optimized ==> r < 100.0
  {
    ((base - optimized) as real / base as real) * 100.0
  }

  /**
    `reduction * duration * energy_map[resource] / 100`, in exact arithmetic:
    a hundred times the saving is the reduction scaled by the hours and the
    tier's weight, so it has the reduction's sign for any task of an hour or more.
  */
  function Saved(reduction: real, duration: int, t: Tier): (r: real)
    ensures r * 100.0 == reduction * duration as real * Weight(t)
    ensures duration >= 1 ==> (r > 0.0 <==> reduction > 0.0)
  {
    reduction * duration as real * Weight(t) / 100.0
  }

  /** What one analysis shows: intensities, window hours and labels, reduction and savings. */
  datatype Analysis = Analysis(
    baseIntensity: int,
    optimizedIntensity: int,
    windowStart: nat,
    windowEnd: nat,
    startLabel: string,
    endLabel: string,
    reduction: real,
    saved: real)

  /** The `ValueError` `strptime` raises, with the text it could not read. */
  datatype AnalysisError = TimeDataMismatch(text: string)

  /**
    One run of the analysis block for the given duration, tier and draws.  It
    fails exactly when the window ends at hour 24, whose text "24:00" `strptime`
    rejects; otherwise it yields every value the results panel shows.
  */
  function Analyze(duration: int, tier: Tier, baseDraw: int, cutDraw: int, startDraw: int)
    : (r: Result<Analysis, AnalysisError>)
    requires 1 <= duration <= 24
    requires BaseLow <= baseDraw <= BaseHigh
    requires CutLow <= cutDraw <= CutHigh
    requires 0 <= startDraw <= 24 - duration
    ensures r.Failure? <==> startDraw + duration == 24
    ensures r.Failure? ==> r.error == TimeDataMismatch("24:00")
    ensures r.Success? ==>
              var a := r.value;
              && a.baseIntensity == baseDraw
              && a.optimizedIntensity == baseDraw - cutDraw <= baseDraw - MinimumCut
              && a.windowStart == startDraw && a.windowEnd == startDraw + duration <= 23
              && Clock.ParseLabel(a.startLabel) == Some(a.windowStart)
              && Clock.ParseLabel(a.endLabel) == Some(a.windowEnd)
              && a.startLabel != a.endLabel
              && a.reduction == Reduction(baseDraw, a.optimizedIntensity)
              && 0.0 < a.reduction < 100.0
              && 12000.0 / 620.0 <= a.reduction <= 20000.0 / 480.0
              && a.saved == Saved(a.reduction, duration, tier)
              && a.saved > 0.0
  {
    var w := Window(duration, startDraw);
    match Clock.HourLabel(w.0)
    case None => Failure(TimeDataMismatch(Clock.HourText(w.0)))
    case Some(startLabel) =>
      match Clock.HourLabel(w.1)
      case None =>
        Clock.EndOfDayText();
        Failure(TimeDataMismatch(Clock.HourText(w.1)))
      case Some(endLabel) =>
        Clock.LabelRoundTrip(w.0);
        Clock.LabelRoundTrip(w.1);
        Success(Report(duration, tier, baseDraw, cutDraw, w.0, w.1, startLabel, endLabel))
  }

  /**
    The results panel of a run whose labels were both produced: lines 124-125
    compute the reduction from the intensities and the saving from the
    reduction, the duration and the tier's energy weight.
  */
  function Report(duration: int, tier: Tier, base: int, cut: int, start: nat, end: nat,
                  startLabel: string, endLabel: string): (a: Analysis)
    requires 1 <= duration
    requires BaseLow <= base <= BaseHigh
    requires CutLow <= cut <= CutHigh
    ensures a.baseIntensity == base && a.optimizedIntensity == base - cut
    ensures (a.windowStart, a.windowEnd, a.startLabel, a.endLabel) == (start, end, startLabel, endLabel)
    ensures a.reduction == Reduction(base, base - cut)
    ensures 12000.0 / 620.0 <= a.reduction <= 20000.0 / 480.0
    ensures a.saved == Saved(a.reduction, duration, tier) && a.saved > 0.0
  {
    var optimized := OptimizedIntensity(base, cut);
    var reduction := Reduction(base, optimized);
    ReductionBounds(base, cut);
    Analysis(base, optimized, start, end, startLabel, endLabel, reduction, Saved(reduction, duration, tier))
  }

  /** What the page shows after one render. */
  datatype Page =
    | Idle                          // the analysis block did not run
    | Raised(error: AnalysisError)  // the block stopped with an exception
    | Shown(analysis: Analysis)     // the results panel was rendered

  /**
    The guard `st.button(...) and resource != "Select"` around the analysis.
    `resource` is whatever the selector returned, so it is one of its options;
    the `energy_map` lookup of any option but the sentinel is defined.
  */
  function Submit(pressed: bool, resource: string, duration: int, baseDraw: int, cutDraw: int, startDraw: int)
    : (p: Page)
    requires resource in ResourceOptions
    requires 1 <= duration <= 24
    requires BaseLow <= baseDraw <= BaseHigh
    requires CutLow <= cutDraw <= CutHigh
    requires 0 <= startDraw <= 24 - duration
    ensures p.Idle? <==> !pressed || resource == Sentinel
    ensures p.Raised? <==> pressed && resource != Sentinel && startDraw + duration == 24
    ensures p.Raised? ==> p.error == TimeDataMismatch("24:00")
    ensures p.Shown? ==>
              && resource in EnergyMap
              && Analyze(duration, TierOf(resource), baseDraw, cutDraw, startDraw) == Success(p.analysis)
              && p.analysis.saved == Saved(p.analysis.reduction, duration, TierOf(resource))
              && Weight(TierOf(resource)) == EnergyMap[resource]
  {
    if pressed && resource != Sentinel then
      LookupDefined(resource);
      match Analyze(duration, TierOf(resource), baseDraw, cutDraw, startDraw)
      case Failure(e) => Raised(e)
      case Success(a) => Shown(a)
    else Idle
  }

  // ---------------------------------------------------------------------------
  // Properties

  /** Every selector option other than the sentinel is a key of `energy_map`, and nothing else is. */
  lemma LookupDefined(resource: string)
    requires resource in ResourceOptions
    ensures resource in EnergyMap <==> resource != Sentinel
  {
  }

  /** The keys of `energy_map` are exactly the tier labels. */
  lemma EnergyMapKeysAreTiers()
    ensures forall t: Tier :: Label(t) in EnergyMap
    ensures forall s :: s in EnergyMap ==> exists t: Tier :: Label(t) == s
  {
    forall s | s in EnergyMap
      ensures exists t: Tier :: Label(t) == s
    {
      assert Label(TierOf(s)) == s;
    }
  }

  /** The energy weights of the three tiers. */
  lemma EnergyWeights()
    ensures Weight(LowGPU) == 0.6 && Weight(MediumGPU) == 1.2 && Weight(HighGPU) == 2.0
  {
  }

  /** The weights grow with the tier. */
  lemma WeightIncreasing(t1: Tier, t2: Tier)
    requires Rank(t1) < Rank(t2)
    ensures Weight(t1) < Weight(t2)
  {
  }

  /**
    Within the draw ranges the base intensity is in [480, 620], the `min` clamp
    never binds, and the optimized intensity is in [280, 500].
  */
  lemma IntensityBounds(baseDraw: int, cutDraw: int)
    requires BaseLow <= baseDraw <= BaseHigh
    requires CutLow <= cutDraw <= CutHigh
    ensures OptimizedIntensity(baseDraw, cutDraw) == baseDraw - cutDraw
    ensures 280 <= OptimizedIntensity(baseDraw, cutDraw) <= 500
  {
  }

  /**
    The reduction is a percentage strictly between 0 and 100; within the draw
    ranges it lies in [12000/620, 20000/480], about [19.35, 41.67].
  */
  lemma ReductionBounds(baseDraw: int, cutDraw: int)
    requires BaseLow <= baseDraw <= BaseHigh
    requires CutLow <= cutDraw <= CutHigh
    ensures 0.0 < Reduction(baseDraw, OptimizedIntensity(baseDraw, cutDraw)) < 100.0
    ensures 12000.0 / 620.0 <= Reduction(baseDraw, OptimizedIntensity(baseDraw, cutDraw)) <= 20000.0 / 480.0
  {
    var b, c := baseDraw as real, cutDraw as real;
    var r := Reduction(baseDraw, OptimizedIntensity(baseDraw, cutDraw));
    assert r * b == c * 100.0;
    assert 0.0 < r;
    assert 12000.0 <= r * 620.0 by {
      assert r * (620.0 - b) >= 0.0;
      assert r * 620.0 == r * b + r * (620.0 - b);
    }
    assert r * 480.0 <= 20000.0 by {
      assert r * (b - 480.0) >= 0.0;
      assert r * 480.0 == r * b - r * (b - 480.0);
    }
  }

  /** A positive reduction over a task of at least one hour saves a positive amount. */
  lemma SavedPositive(reduction: real, duration: int, t: Tier)
    requires reduction > 0.0 && duration >= 1
    ensures Saved(reduction, duration, t) > 0.0
  {
  }

  /** For the same duration and reduction, a heavier tier saves strictly more. */
  lemma SavedIncreasingInTier(reduction: real, duration: int, t1: Tier, t2: Tier)
    requires reduction > 0.0 && duration >= 1
    requires Rank(t1) < Rank(t2)
    ensures Saved(reduction, duration, t1) < Saved(reduction, duration, t2)
  {
  }

  /** For the same tier and intensities, a longer task saves strictly more. */
  lemma SavedIncreasingInDuration(baseDraw: int, cutDraw: int, d1: int, d2: int, t: Tier)
    requires BaseLow <= baseDraw <= BaseHigh
    requires CutLow <= cutDraw <= CutHigh
    requires 1 <= d1 < d2
    ensures var reduction := Reduction(baseDraw, OptimizedIntensity(baseDraw, cutDraw));
            Saved(reduction, d1, t) < Saved(reduction, d2, t)
  {
  }

  /** Every full-day run raises: the end hour 24 has no %H reading. */
  lemma FullDayRaises(pressed: bool, resource: string, baseDraw: int, cutDraw: int)
    requires resource in ResourceOptions && resource != Sentinel && pressed
    requires BaseLow <= baseDraw <= BaseHigh
    requires CutLow <= cutDraw <= CutHigh
    ensures Submit(pressed, resource, 24, baseDraw, cutDraw, 0) == Raised(TimeDataMismatch("24:00"))
  {
  }

  /** Choosing no tier shows nothing, whatever was typed and drawn. */
  lemma SentinelShowsNothing(duration: int, baseDraw: int, cutDraw: int, startDraw: int)
    requires 1 <= duration <= 24
    requires BaseLow <= baseDraw <= BaseHigh
    requires CutLow <= cutDraw <= CutHigh
    requires 0 <= startDraw <= 24 - duration
    ensures Submit(true, Sentinel, duration, baseDraw, cutDraw, startDraw) == Idle
  {
  }

  /** High GPU for 3 hours at 600 -> 450 gCO₂/kWh: a 25 % reduction and 1.5 kg saved. */
  lemma HighGpuExample(startDraw: int)
    requires 0 <= startDraw <= 20
    ensures var p := Submit(true, "High GPU", 3, 600, 150, startDraw);
            && p.Shown?
            && p.analysis.optimizedIntensity == 450
            && p.analysis.reduction == 25.0
            && p.analysis.saved == 1.5
  {
  }
}
