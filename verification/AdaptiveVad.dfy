/**
 * The self-adjusting voice detector (internal/pluginkit/vad_adaptive.go) over
 * real numbers: a decayed histogram of frame levels, a conditional quantile of
 * it, and the climb from the noise floor towards a fixed point.
 */
module AdaptiveVad {

  const BINS := 256
  const MIN_SPEECH_MASS := 0.02
  const MAX_CLIMB := 40
  const TOLERANCE := 1.001

  /** The logarithmic scale of the histogram: which bin a level falls into, and the level of a bin. */
  datatype Scale = Scale(binOf: real -> int, valueOf: int -> real) {
    ghost predicate Valid() {
      && (forall x :: 0 <= binOf(x) < BINS)
      && (forall x, y :: x <= y ==> binOf(x) <= binOf(y))
      && (forall i, j :: 0 <= i <= j < BINS ==> 0.0 < valueOf(i) <= valueOf(j))
      && (forall i :: 0 <= i < BINS ==> binOf(valueOf(i)) == i)
    }
  }

  datatype Config = Config(
    scale: Scale,
    fallback: real,
    speechQuantile: real,
    speechFactor: real,
    noiseQuantile: real,
    noiseFactor: real,
    minThreshold: real,
    maxSlew: real,
    decay: real,
    warmupFrames: nat,
    updateFrames: nat)
  {
    ghost predicate Valid() {
      && scale.Valid()
      && fallback >= 0.0 && minThreshold >= 0.0
      && 0.0 < speechQuantile < 1.0 && 0.0 < noiseQuantile < 1.0
      && speechFactor > 0.0 && noiseFactor > 0.0
      && maxSlew > 0.0 && 0.0 < decay < 1.0 && updateFrames >= 1
    }
  }

  /** What a frame tells the detector. */
  datatype Level = Empty | NotFinite | Rms(value: real)

  datatype State = State(bins: seq<real>, mass: real, frames: nat, sinceUpdate: nat, threshold: real)

  // ----- the histogram

  /** The mass of bins lo..hi, hi excluded. */
  function Sum(bins: seq<real>, lo: int, hi: int): real
    requires 0 <= lo && hi <= |bins|
    decreases hi - lo
  {
    if hi <= lo then 0.0 else Sum(bins, lo, hi - 1) + bins[hi - 1]
  }

  ghost predicate Histogram(bins: seq<real>) {
    |bins| == BINS && forall i :: 0 <= i < BINS ==> bins[i] >= 0.0
  }

  lemma {:induction false} SumNonNegative(bins: seq<real>, lo: int, hi: int)
    requires 0 <= lo && hi <= |bins| && forall i :: 0 <= i < |bins| ==> bins[i] >= 0.0
    ensures Sum(bins, lo, hi) >= 0.0
    decreases hi - lo
  {
    if lo < hi {
      SumNonNegative(bins, lo, hi - 1);
    }
  }

  lemma {:induction false} SumSplit(bins: seq<real>, lo: int, mid: int, hi: int)
    requires 0 <= lo <= mid <= hi <= |bins|
    ensures Sum(bins, lo, hi) == Sum(bins, lo, mid) + Sum(bins, mid, hi)
    decreases hi - mid
  {
    if mid < hi {
      SumSplit(bins, lo, mid, hi - 1);
    }
  }

  // ----- the conditional quantile

  function StartBin(sc: Scale, from: real): int {
    if from > 0.0 then sc.binOf(from) else 0
  }

  /** The first bin at or after i where the mass from `start` on reaches the target, or the last bin. */
  function FirstReaching(bins: seq<real>, start: int, i: int, target: real): int
    requires 0 <= start && 0 <= i && |bins| == BINS
    decreases BINS - i
  {
    if i >= BINS then BINS - 1
    else if Sum(bins, start, i + 1) >= target then i
    else FirstReaching(bins, start, i + 1, target)
  }

  function MassAbove(sc: Scale, bins: seq<real>, from: real): real
    requires |bins| == BINS && 0 <= sc.binOf(from)
  {
    Sum(bins, sc.binOf(from), |bins|)
  }

  function Quantile(sc: Scale, bins: seq<real>, q: real, from: real): real
    requires |bins| == BINS && 0 <= StartBin(sc, from)
  {
    var start := StartBin(sc, from);
    var total := Sum(bins, start, |bins|);
    if total <= 0.0 then 0.0 else sc.valueOf(FirstReaching(bins, start, start, Share(q, total)))
  }

  /** The bin found is the least with enough mass. */
  lemma {:induction false} FirstReachingIsLeast(bins: seq<real>, start: int, i: int, target: real, enough: int)
    requires 0 <= start <= i <= enough < BINS && |bins| == BINS
    requires Sum(bins, start, enough + 1) >= target
    ensures var found := FirstReaching(bins, start, i, target);
            && i <= found <= enough
            && Sum(bins, start, found + 1) >= target
            && forall k :: i < k <= found ==> Sum(bins, start, k) < target
    decreases BINS - i
  {
    if Sum(bins, start, i + 1) < target {
      FirstReachingIsLeast(bins, start, i + 1, target, enough);
    }
  }

  function Share(q: real, x: real): real {
    q * x
  }

  lemma ShareMonotone(q: real, x: real, y: real)
    requires q > 0.0 && x <= y
    ensures Share(q, x) <= Share(q, y)
    ensures x > 0.0 ==> Share(q, x) > 0.0
  {
  }

  lemma ShareOfSum(q: real, part: real, rest: real)
    requires 0.0 < q < 1.0 && part >= 0.0
    ensures Share(q, part + rest) <= part + Share(q, rest)
  {
    assert q * part <= 1.0 * part;
    assert q * (part + rest) == q * part + q * rest;
  }

  /** A lower start cannot need more bins to reach its share. */
  lemma LeastMonotone(bins: seq<real>, a: int, b: int, targetA: real, targetB: real)
    requires |bins| == BINS && 0 <= a <= b < BINS
    requires Sum(bins, b, |bins|) >= targetB && targetA <= Sum(bins, a, b) + targetB
    ensures a <= FirstReaching(bins, a, a, targetA) <= FirstReaching(bins, b, b, targetB) < BINS
  {
    FirstReachingIsLeast(bins, b, b, targetB, BINS - 1);
    var found := FirstReaching(bins, b, b, targetB);
    SumSplit(bins, a, b, found + 1);
    FirstReachingIsLeast(bins, a, a, targetA, found);
  }

  lemma QuantileBinsInOrder(bins: seq<real>, q: real, a: int, b: int)
    requires Histogram(bins) && 0.0 < q < 1.0 && 0 <= a <= b < BINS
    ensures a <= FirstReaching(bins, a, a, Share(q, Sum(bins, a, |bins|)))
              <= FirstReaching(bins, b, b, Share(q, Sum(bins, b, |bins|))) < BINS
  {
    var part, rest := Sum(bins, a, b), Sum(bins, b, |bins|);
    SumSplit(bins, a, b, BINS);
    SumNonNegative(bins, a, b);
    SumNonNegative(bins, b, BINS);
    ShareOfSum(q, part, rest);
    ShareOfSum(q, rest, 0.0);
    LeastMonotone(bins, a, b, Share(q, part + rest), Share(q, rest));
  }

  /** Conditioning on louder frames never lowers the quantile, as long as there are such frames. */
  lemma QuantileMonotone(sc: Scale, bins: seq<real>, q: real, low: real, high: real)
    requires sc.Valid() && Histogram(bins) && 0.0 < q < 1.0 && low <= high
    requires Sum(bins, StartBin(sc, high), |bins|) > 0.0
    ensures 0.0 < Quantile(sc, bins, q, low) <= Quantile(sc, bins, q, high)
  {
    var a, b := StartBin(sc, low), StartBin(sc, high);
    assert 0 <= a <= b < BINS;
    SumSplit(bins, a, b, BINS);
    SumNonNegative(bins, a, b);
    QuantileBinsInOrder(bins, q, a, b);
  }

  // ----- the climb

  function Max(x: real, y: real): real {
    if x >= y then x else y
  }

  function Min(x: real, y: real): real {
    if x <= y then x else y
  }

  function Floor(c: Config, bins: seq<real>): real
    requires |bins| == BINS
  {
    Max(Share(c.noiseFactor, Quantile(c.scale, bins, c.noiseQuantile, 0.0)), c.minThreshold)
  }

  /** The threshold that the speech class at or above t suggests. */
  function SpeechArm(c: Config, bins: seq<real>, t: real): real
    requires |bins| == BINS && 0 <= StartBin(c.scale, t)
  {
    Share(c.speechFactor, Quantile(c.scale, bins, c.speechQuantile, t))
  }

  /** The map whose fixed point is sought. */
  function Next(c: Config, bins: seq<real>, floor: real, t: real): real
    requires |bins| == BINS && 0 <= StartBin(c.scale, t)
  {
    Max(SpeechArm(c, bins, t), floor)
  }

  datatype Climbed = Settled(t: real) | Abandoned

  function Climb(c: Config, bins: seq<real>, mass: real, floor: real, t: real, n: nat): Climbed
    requires |bins| == BINS && forall x :: 0 <= c.scale.binOf(x)
    decreases n
  {
    if n == 0 then Settled(t)
    else if MassAbove(c.scale, bins, t) < MIN_SPEECH_MASS * mass then Settled(t)
    else
      var next := Next(c, bins, floor, t);
      if next <= 0.0 then Abandoned
      else if next <= t * TOLERANCE then Settled(Max(t, next))
      else Climb(c, bins, mass, floor, next, n - 1)
  }

  ghost predicate IsFixedPoint(c: Config, bins: seq<real>, floor: real, t: real)
    requires |bins| == BINS && 0 <= StartBin(c.scale, t)
  {
    Next(c, bins, floor, t) == t
  }

  lemma SpeechArmMonotone(c: Config, bins: seq<real>, low: real, high: real)
    requires c.Valid() && Histogram(bins) && low <= high
    requires Sum(bins, StartBin(c.scale, high), |bins|) > 0.0
    ensures SpeechArm(c, bins, low) <= SpeechArm(c, bins, high)
  {
    QuantileMonotone(c.scale, bins, c.speechQuantile, low, high);
    var x, y := Quantile(c.scale, bins, c.speechQuantile, low), Quantile(c.scale, bins, c.speechQuantile, high);
    ShareMonotone(c.speechFactor, x, y);
  }

  /** The map is non-decreasing wherever the tail has mass. */
  lemma NextMonotone(c: Config, bins: seq<real>, floor: real, low: real, high: real)
    requires c.Valid() && Histogram(bins) && low <= high
    requires Sum(bins, StartBin(c.scale, high), |bins|) > 0.0
    ensures Next(c, bins, floor, low) <= Next(c, bins, floor, high)
  {
    SpeechArmMonotone(c, bins, low, high);
  }

  /** Where the tail has mass the climb goes on from, a fixed point further up cannot be overtaken. */
  lemma NextStaysBelow(c: Config, bins: seq<real>, floor: real, t: real, fixed: real)
    requires c.Valid() && Histogram(bins) && floor > 0.0 && floor <= t <= fixed
    requires IsFixedPoint(c, bins, floor, fixed)
    requires Sum(bins, StartBin(c.scale, t), |bins|) > 0.0
    ensures Next(c, bins, floor, t) <= fixed
  {
    if Sum(bins, StartBin(c.scale, fixed), |bins|) > 0.0 {
      NextMonotone(c, bins, floor, t, fixed);
    }
  }

  /**
   * The climb never goes down, never abandons, and never passes a fixed point of
   * the map; where it stops the map points upwards, as far as there is mass.
   */
  lemma {:induction false} ClimbStaysBelow(c: Config, bins: seq<real>, mass: real, floor: real,
                                           t: real, n: nat, fixed: real)
    requires c.Valid() && Histogram(bins) && mass > 0.0 && floor > 0.0 && floor <= t
    requires Sum(bins, StartBin(c.scale, t), |bins|) > 0.0 ==> t <= Next(c, bins, floor, t)
    ensures Climb(c, bins, mass, floor, t, n).Settled?
    ensures var r := Climb(c, bins, mass, floor, t, n).t;
            && t <= r
            && (t <= fixed && IsFixedPoint(c, bins, floor, fixed) ==> r <= fixed)
            && (Sum(bins, StartBin(c.scale, r), |bins|) > 0.0 ==> r <= Next(c, bins, floor, r))
    decreases n
  {
    if n > 0 && MassAbove(c.scale, bins, t) >= MIN_SPEECH_MASS * mass {
      var next := Next(c, bins, floor, t);
      assert MIN_SPEECH_MASS * mass > 0.0;
      assert t <= next;
      if t <= fixed && IsFixedPoint(c, bins, floor, fixed) {
        NextStaysBelow(c, bins, floor, t, fixed);
      }
      if Sum(bins, StartBin(c.scale, next), |bins|) > 0.0 {
        NextMonotone(c, bins, floor, t, next);
      }
      if next > t * TOLERANCE {
        ClimbStaysBelow(c, bins, mass, floor, next, n - 1, fixed);
      }
    }
  }

  // ----- when the climb finds the lowest fixed point

  /** The noise floor and what the map makes of it, again and again. */
  function Iterate(c: Config, bins: seq<real>, floor: real, i: nat): real
    requires |bins| == BINS && forall x :: 0 <= c.scale.binOf(x)
  {
    if i == 0 then floor else Next(c, bins, floor, Iterate(c, bins, floor, i - 1))
  }

  ghost predicate RisesAt(c: Config, bins: seq<real>, floor: real, m: nat)
    requires |bins| == BINS && forall x :: 0 <= c.scale.binOf(x)
  {
    Iterate(c, bins, floor, m) < Iterate(c, bins, floor, m + 1)
  }

  /** The iterates from number i on rise strictly up to number k. */
  ghost predicate Rises(c: Config, bins: seq<real>, floor: real, i: nat, k: nat)
    requires |bins| == BINS && forall x :: 0 <= c.scale.binOf(x)
  {
    forall m: nat :: i <= m < k ==> RisesAt(c, bins, floor, m)
  }

  /** Iterate k is a fixed point, and those before it rise. */
  ghost predicate FixedFirstAt(c: Config, bins: seq<real>, floor: real, k: nat)
    requires |bins| == BINS && forall x :: 0 <= c.scale.binOf(x)
  {
    IsFixedPoint(c, bins, floor, Iterate(c, bins, floor, k)) && Rises(c, bins, floor, 0, k)
  }

  /**
   * The guards of the loop at iterate m, on the way to iterate k: there is mass enough
   * above it, and the step from it is beyond the tolerance unless it leads to k.
   */
  ghost predicate Passes(c: Config, bins: seq<real>, mass: real, floor: real, m: nat, k: nat)
    requires |bins| == BINS && forall x :: 0 <= c.scale.binOf(x)
  {
    && MassAbove(c.scale, bins, Iterate(c, bins, floor, m)) >= MIN_SPEECH_MASS * mass
    && (m + 1 < k ==> Iterate(c, bins, floor, m + 1) > Iterate(c, bins, floor, m) * TOLERANCE)
  }

  ghost predicate GuardsPass(c: Config, bins: seq<real>, mass: real, floor: real, i: nat, k: nat)
    requires |bins| == BINS && forall x :: 0 <= c.scale.binOf(x)
  {
    forall m: nat :: i <= m < k ==> Passes(c, bins, mass, floor, m, k)
  }

  /** One round of the climb. */
  lemma ClimbRound(c: Config, bins: seq<real>, mass: real, floor: real, t: real, n: nat)
    requires |bins| == BINS && (forall x :: 0 <= c.scale.binOf(x)) && floor > 0.0 && n > 0
    requires MassAbove(c.scale, bins, t) >= MIN_SPEECH_MASS * mass
    ensures var next := Next(c, bins, floor, t);
            Climb(c, bins, mass, floor, t, n) ==
            if next <= t * TOLERANCE then Settled(Max(t, next)) else Climb(c, bins, mass, floor, next, n - 1)
  {
  }

  /** At a fixed point the climb rests, whatever its rounds and the mass above. */
  lemma ClimbRests(c: Config, bins: seq<real>, mass: real, floor: real, t: real, n: nat)
    requires |bins| == BINS && (forall x :: 0 <= c.scale.binOf(x)) && floor > 0.0
    requires IsFixedPoint(c, bins, floor, t)
    ensures Climb(c, bins, mass, floor, t, n) == Settled(t)
  {
  }

  lemma ClimbsOn(c: Config, bins: seq<real>, mass: real, floor: real, i: nat, k: nat, n: nat)
    requires c.Valid() && |bins| == BINS && floor > 0.0 && n > 0
    requires i < k && Passes(c, bins, mass, floor, i, k) && RisesAt(c, bins, floor, i)
    requires Climb(c, bins, mass, floor, Iterate(c, bins, floor, i + 1), n - 1) == Settled(Iterate(c, bins, floor, k))
    ensures Climb(c, bins, mass, floor, Iterate(c, bins, floor, i), n) == Settled(Iterate(c, bins, floor, k))
  {
    ClimbRound(c, bins, mass, floor, Iterate(c, bins, floor, i), n);
  }

  /** With the guards passed and rounds enough, the climb comes to rest on the fixed iterate. */
  lemma {:induction false} ClimbsTo(c: Config, bins: seq<real>, mass: real, floor: real, i: nat, k: nat, n: nat)
    requires c.Valid() && Histogram(bins) && mass > 0.0 && floor > 0.0
    requires FixedFirstAt(c, bins, floor, k) && GuardsPass(c, bins, mass, floor, 0, k) && i <= k <= i + n
    ensures Climb(c, bins, mass, floor, Iterate(c, bins, floor, i), n) == Settled(Iterate(c, bins, floor, k))
    decreases n
  {
    if i == k {
      ClimbRests(c, bins, mass, floor, Iterate(c, bins, floor, k), n);
    } else {
      ClimbsTo(c, bins, mass, floor, i + 1, k, n - 1);
      OnTheWay(c, bins, mass, floor, i, k);
      ClimbsOn(c, bins, mass, floor, i, k, n);
    }
  }

  lemma OnTheWay(c: Config, bins: seq<real>, mass: real, floor: real, i: nat, k: nat)
    requires |bins| == BINS && forall x :: 0 <= c.scale.binOf(x)
    requires Rises(c, bins, floor, 0, k) && GuardsPass(c, bins, mass, floor, 0, k) && i < k
    ensures Passes(c, bins, mass, floor, i, k) && RisesAt(c, bins, floor, i)
  {
  }

  /** From iterate i the climb comes to rest at iterate k, having passed the guards on the way. */
  ghost predicate RestsAt(c: Config, bins: seq<real>, mass: real, floor: real, i: nat, n: nat, k: nat)
    requires |bins| == BINS && forall x :: 0 <= c.scale.binOf(x)
  {
    && Climb(c, bins, mass, floor, Iterate(c, bins, floor, i), n) == Settled(Iterate(c, bins, floor, k))
    && i <= k <= i + n && Rises(c, bins, floor, i, k) && GuardsPass(c, bins, mass, floor, i, k)
  }

  lemma RestsHere(c: Config, bins: seq<real>, mass: real, floor: real, i: nat, n: nat)
    requires c.Valid() && |bins| == BINS
    requires Climb(c, bins, mass, floor, Iterate(c, bins, floor, i), n) == Settled(Iterate(c, bins, floor, i))
    ensures RestsAt(c, bins, mass, floor, i, n, i)
  {
  }

  /** The last step may be within the tolerance. */
  lemma RestsNext(c: Config, bins: seq<real>, mass: real, floor: real, i: nat, n: nat)
    requires c.Valid() && |bins| == BINS && floor > 0.0 && n > 0
    requires MassAbove(c.scale, bins, Iterate(c, bins, floor, i)) >= MIN_SPEECH_MASS * mass
    requires RisesAt(c, bins, floor, i)
    requires Iterate(c, bins, floor, i + 1) <= Iterate(c, bins, floor, i) * TOLERANCE
    ensures RestsAt(c, bins, mass, floor, i, n, i + 1)
  {
    ClimbRound(c, bins, mass, floor, Iterate(c, bins, floor, i), n);
  }

  lemma RestsLater(c: Config, bins: seq<real>, mass: real, floor: real, i: nat, n: nat, k: nat)
    requires c.Valid() && |bins| == BINS && floor > 0.0 && n > 0
    requires MassAbove(c.scale, bins, Iterate(c, bins, floor, i)) >= MIN_SPEECH_MASS * mass
    requires RisesAt(c, bins, floor, i)
    requires Iterate(c, bins, floor, i + 1) > Iterate(c, bins, floor, i) * TOLERANCE
    requires RestsAt(c, bins, mass, floor, i + 1, n - 1, k)
    ensures RestsAt(c, bins, mass, floor, i, n, k)
  {
    ClimbRound(c, bins, mass, floor, Iterate(c, bins, floor, i), n);
    assert Passes(c, bins, mass, floor, i, k);
  }

  /** Wherever the climb comes to rest is an iterate, and the guards let it pass all before. */
  lemma {:induction false} ClimbIsIterate(c: Config, bins: seq<real>, mass: real, floor: real, i: nat, n: nat)
    returns (k: nat)
    requires c.Valid() && Histogram(bins) && mass > 0.0 && floor > 0.0
    requires PointsUp(c, bins, floor, Iterate(c, bins, floor, i))
    ensures RestsAt(c, bins, mass, floor, i, n, k)
    decreases n
  {
    var t, next := Iterate(c, bins, floor, i), Iterate(c, bins, floor, i + 1);
    k := i;
    if n == 0 || MassAbove(c.scale, bins, t) < MIN_SPEECH_MASS * mass {
      RestsHere(c, bins, mass, floor, i, n);
    } else {
      StillPointsUp(c, bins, mass, floor, t);
      if next > t * TOLERANCE {
        k := ClimbIsIterate(c, bins, mass, floor, i + 1, n - 1);
        RestsLater(c, bins, mass, floor, i, n, k);
      } else if t < next {
        k := i + 1;
        RestsNext(c, bins, mass, floor, i, n);
      } else {
        ClimbRests(c, bins, mass, floor, t, n);
        RestsHere(c, bins, mass, floor, i, n);
      }
    }
  }

  /** Where there is mass above t the map does not lead down from t. */
  ghost predicate PointsUp(c: Config, bins: seq<real>, floor: real, t: real)
    requires |bins| == BINS && forall x :: 0 <= c.scale.binOf(x)
  {
    t >= floor && (Sum(bins, StartBin(c.scale, t), |bins|) > 0.0 ==> t <= Next(c, bins, floor, t))
  }

  lemma StillPointsUp(c: Config, bins: seq<real>, mass: real, floor: real, t: real)
    requires c.Valid() && Histogram(bins) && mass > 0.0 && floor > 0.0 && PointsUp(c, bins, floor, t)
    requires MassAbove(c.scale, bins, t) >= MIN_SPEECH_MASS * mass
    ensures var next := Next(c, bins, floor, t);
            t <= next && PointsUp(c, bins, floor, next) && (next > t * TOLERANCE ==> t < next)
  {
    var next := Next(c, bins, floor, t);
    assert MIN_SPEECH_MASS * mass > 0.0;
    if Sum(bins, StartBin(c.scale, next), |bins|) > 0.0 {
      NextMonotone(c, bins, floor, t, next);
    }
  }

  lemma {:induction false} RiseIsStrict(c: Config, bins: seq<real>, floor: real, j: nat, k: nat)
    requires |bins| == BINS && forall x :: 0 <= c.scale.binOf(x)
    requires j < k && Rises(c, bins, floor, 0, k)
    ensures Iterate(c, bins, floor, j) < Iterate(c, bins, floor, k)
    decreases k
  {
    assert RisesAt(c, bins, floor, k - 1);
    if j < k - 1 {
      RiseIsStrict(c, bins, floor, j, k - 1);
    }
  }

  /** A rise does not go beyond a fixed iterate. */
  lemma RiseEndsAt(c: Config, bins: seq<real>, floor: real, j: nat, k: nat)
    requires |bins| == BINS && forall x :: 0 <= c.scale.binOf(x)
    requires Rises(c, bins, floor, 0, j) && FixedFirstAt(c, bins, floor, k)
    ensures j <= k
  {
    assert k < j ==> RisesAt(c, bins, floor, k);
  }

  /**
   * When the iterates rise to a fixed point, the climb reaches it exactly when it has
   * rounds enough, the mass above every iterate before it is enough to go on, and no
   * earlier step is within the tolerance.
   */
  lemma ClimbReachesIff(c: Config, bins: seq<real>, mass: real, floor: real, k: nat, n: nat)
    requires c.Valid() && Histogram(bins) && mass > 0.0 && floor > 0.0
    requires FixedFirstAt(c, bins, floor, k)
    ensures Climb(c, bins, mass, floor, floor, n) == Settled(Iterate(c, bins, floor, k))
            <==> k <= n && GuardsPass(c, bins, mass, floor, 0, k)
  {
    assert Iterate(c, bins, floor, 0) == floor;
    var j := ClimbIsIterate(c, bins, mass, floor, 0, n);
    RiseEndsAt(c, bins, floor, j, k);
    if j < k {
      RiseIsStrict(c, bins, floor, j, k);
    }
    if k <= n && GuardsPass(c, bins, mass, floor, 0, k) {
      ClimbsTo(c, bins, mass, floor, 0, k, n);
    }
  }

  ghost predicate IsLowestFixedPoint(c: Config, bins: seq<real>, floor: real, t: real)
    requires |bins| == BINS && forall x :: 0 <= StartBin(c.scale, x)
  {
    IsFixedPoint(c, bins, floor, t) && forall fixed :: IsFixedPoint(c, bins, floor, fixed) ==> t <= fixed
  }

  /**
   * For every histogram: the climb finds the lowest fixed point exactly when the
   * iterates rise to a fixed one within its rounds and its guards let it go so far.
   */
  lemma LowestFixedPointIff(c: Config, bins: seq<real>, mass: real, floor: real, n: nat)
    requires c.Valid() && Histogram(bins) && mass > 0.0 && floor > 0.0
    ensures Climb(c, bins, mass, floor, floor, n).Settled?
    ensures IsLowestFixedPoint(c, bins, floor, Climb(c, bins, mass, floor, floor, n).t)
            <==> exists k: nat :: k <= n && FixedFirstAt(c, bins, floor, k) && GuardsPass(c, bins, mass, floor, 0, k)
  {
    assert Iterate(c, bins, floor, 0) == floor;
    var j := ClimbIsIterate(c, bins, mass, floor, 0, n);
    var r := Iterate(c, bins, floor, j);
    if IsLowestFixedPoint(c, bins, floor, r) {
      assert FixedFirstAt(c, bins, floor, j);
    }
    if k: nat :| k <= n && FixedFirstAt(c, bins, floor, k) && GuardsPass(c, bins, mass, floor, 0, k) {
      ClimbsTo(c, bins, mass, floor, 0, k, n);
      forall fixed | IsFixedPoint(c, bins, floor, fixed) ensures r <= fixed {
        ClimbStaysBelow(c, bins, mass, floor, floor, n, fixed);
      }
    }
  }

  // ----- when there is a fixed point

  /** The bin whose level the speech arm is taken from. */
  function SpeechBin(c: Config, bins: seq<real>, t: real): int
    requires |bins| == BINS && 0 <= StartBin(c.scale, t)
  {
    var start := StartBin(c.scale, t);
    FirstReaching(bins, start, start, Share(c.speechQuantile, Sum(bins, start, |bins|)))
  }

  lemma SpeechBinInRange(c: Config, bins: seq<real>, t: real)
    requires c.Valid() && Histogram(bins)
    ensures 0 <= SpeechBin(c, bins, t) < BINS
  {
    var start := StartBin(c.scale, t);
    QuantileBinsInOrder(bins, c.speechQuantile, start, start);
  }

  /** Up to a fixed point the map leads up from every level that is not fixed, and there is mass above. */
  lemma LeadsUp(c: Config, bins: seq<real>, floor: real, t: real, fixed: real)
    requires c.Valid() && Histogram(bins) && floor > 0.0 && PointsUp(c, bins, floor, t) && t <= fixed
    requires IsFixedPoint(c, bins, floor, fixed) && !IsFixedPoint(c, bins, floor, t)
    ensures Sum(bins, StartBin(c.scale, t), |bins|) > 0.0 && t < Next(c, bins, floor, t) <= fixed
  {
    NoMassMeansFloor(c, bins, floor, t, fixed);
    assert Sum(bins, StartBin(c.scale, t), |bins|) > 0.0;
    NextStaysBelow(c, bins, floor, t, fixed);
  }

  /** Where there is no mass the map leads to the floor, and so it does from every level above. */
  lemma NoMassMeansFloor(c: Config, bins: seq<real>, floor: real, low: real, high: real)
    requires c.Valid() && Histogram(bins) && floor > 0.0 && low <= high
    ensures Sum(bins, StartBin(c.scale, low), |bins|) <= 0.0 ==>
              Next(c, bins, floor, low) == floor && Next(c, bins, floor, high) == floor
  {
    var start, last := StartBin(c.scale, low), StartBin(c.scale, high);
    assert 0 <= start <= last < BINS;
    SumSplit(bins, start, last, |bins|);
    SumNonNegative(bins, start, last);
    SumNonNegative(bins, last, |bins|);
  }

  /** Where two steps lead up, the second takes its level from a higher bin. */
  lemma BinsRise(c: Config, bins: seq<real>, floor: real, t: real)
    requires c.Valid() && Histogram(bins) && floor > 0.0 && t >= floor
    requires Sum(bins, StartBin(c.scale, t), |bins|) > 0.0
    requires Sum(bins, StartBin(c.scale, Next(c, bins, floor, t)), |bins|) > 0.0
    requires t < Next(c, bins, floor, t) < Next(c, bins, floor, Next(c, bins, floor, t))
    ensures SpeechBin(c, bins, t) < SpeechBin(c, bins, Next(c, bins, floor, t))
  {
    var next := Next(c, bins, floor, t);
    var low, high := SpeechBin(c, bins, t), SpeechBin(c, bins, next);
    SpeechBinInRange(c, bins, t);
    SpeechBinInRange(c, bins, next);
    assert next == Share(c.speechFactor, c.scale.valueOf(low));
    assert Next(c, bins, floor, next) == Share(c.speechFactor, c.scale.valueOf(high));
    if high <= low {
      ShareMonotone(c.speechFactor, c.scale.valueOf(high), c.scale.valueOf(low));
    }
  }

  /** Iterate m lies below the fixed point and has mass above it, and its bin has risen m times. */
  ghost predicate StillBelow(c: Config, bins: seq<real>, floor: real, fixed: real, m: nat)
    requires |bins| == BINS && forall x :: 0 <= c.scale.binOf(x)
  {
    var t := Iterate(c, bins, floor, m);
    && floor <= t < Next(c, bins, floor, t) <= fixed
    && Sum(bins, StartBin(c.scale, t), |bins|) > 0.0
    && SpeechBin(c, bins, t) >= m
  }

  /** The next iterate is still below too, unless it is fixed. */
  lemma StaysBelow(c: Config, bins: seq<real>, floor: real, fixed: real, m: nat)
    requires c.Valid() && Histogram(bins) && floor > 0.0 && IsFixedPoint(c, bins, floor, fixed)
    requires StillBelow(c, bins, floor, fixed, m)
    requires !IsFixedPoint(c, bins, floor, Iterate(c, bins, floor, m + 1))
    ensures StillBelow(c, bins, floor, fixed, m + 1)
  {
    var t, next := Iterate(c, bins, floor, m), Iterate(c, bins, floor, m + 1);
    assert next == Next(c, bins, floor, t);
    if Sum(bins, StartBin(c.scale, next), |bins|) > 0.0 {
      NextMonotone(c, bins, floor, t, next);
    }
    LeadsUp(c, bins, floor, next, fixed);
    BinsRise(c, bins, floor, t);
  }

  /** All iterates up to m have risen, and from m the map still leads up. */
  ghost predicate RisenTo(c: Config, bins: seq<real>, floor: real, fixed: real, m: nat)
    requires |bins| == BINS && forall x :: 0 <= c.scale.binOf(x)
  {
    Rises(c, bins, floor, 0, m) && StillBelow(c, bins, floor, fixed, m)
  }

  lemma RisenToNone(c: Config, bins: seq<real>, floor: real, fixed: real)
    requires c.Valid() && Histogram(bins) && floor > 0.0 && IsFixedPoint(c, bins, floor, fixed)
    ensures FixedFirstAt(c, bins, floor, 0) || RisenTo(c, bins, floor, fixed, 0)
  {
    if !IsFixedPoint(c, bins, floor, floor) {
      LeadsUp(c, bins, floor, floor, fixed);
      SpeechBinInRange(c, bins, floor);
    }
  }

  lemma RisenOneMore(c: Config, bins: seq<real>, floor: real, fixed: real, m: nat)
    requires c.Valid() && Histogram(bins) && floor > 0.0 && IsFixedPoint(c, bins, floor, fixed)
    requires RisenTo(c, bins, floor, fixed, m)
    ensures FixedFirstAt(c, bins, floor, m + 1) || RisenTo(c, bins, floor, fixed, m + 1)
  {
    RisesOneMore(c, bins, floor, fixed, m);
    if !IsFixedPoint(c, bins, floor, Iterate(c, bins, floor, m + 1)) {
      StaysBelow(c, bins, floor, fixed, m);
    }
  }

  lemma RisesOneMore(c: Config, bins: seq<real>, floor: real, fixed: real, m: nat)
    requires |bins| == BINS && forall x :: 0 <= c.scale.binOf(x)
    requires RisenTo(c, bins, floor, fixed, m)
    ensures Rises(c, bins, floor, 0, m + 1)
  {
    assert RisesAt(c, bins, floor, m);
  }

  /** What goes on until something is found has gone on m times, or something was found by then. */
  lemma {:induction false} FoundOrGoesOn(found: nat -> bool, goesOn: nat -> bool, m: nat) returns (k: nat)
    requires found(0) || goesOn(0)
    requires forall i: nat :: goesOn(i) ==> found(i + 1) || goesOn(i + 1)
    ensures k <= m && (found(k) || goesOn(m))
  {
    if m == 0 {
      k := 0;
    } else {
      k := FoundOrGoesOn(found, goesOn, m - 1);
      if !found(k) && !goesOn(m) {
        k := m;
      }
    }
  }

  /** If the map has a fixed point at all, then its iterates rise to one within as many steps as there are bins. */
  lemma FixedPointIsReached(c: Config, bins: seq<real>, floor: real, fixed: real) returns (k: nat)
    requires c.Valid() && Histogram(bins) && floor > 0.0 && IsFixedPoint(c, bins, floor, fixed)
    ensures k <= BINS && FixedFirstAt(c, bins, floor, k)
  {
    RisenToNone(c, bins, floor, fixed);
    forall m: nat | RisenTo(c, bins, floor, fixed, m)
      ensures FixedFirstAt(c, bins, floor, m + 1) || RisenTo(c, bins, floor, fixed, m + 1)
    {
      RisenOneMore(c, bins, floor, fixed, m);
    }
    k := FoundOrGoesOn((i: nat) => FixedFirstAt(c, bins, floor, i),
                       (i: nat) => RisenTo(c, bins, floor, fixed, i), |bins|);
    RisenTooFar(c, bins, floor, fixed, |bins|);
  }

  /** There are not more bins to rise to. */
  lemma RisenTooFar(c: Config, bins: seq<real>, floor: real, fixed: real, m: nat)
    requires c.Valid() && Histogram(bins) && m >= BINS
    ensures !RisenTo(c, bins, floor, fixed, m)
  {
    SpeechBinInRange(c, bins, Iterate(c, bins, floor, m));
  }

  /**
   * So whenever there is a fixed point, the lowest one is an iterate, and the climb
   * finds it exactly when it has rounds enough and the guards let it go so far.
   */
  lemma ClimbFindsLowestIff(c: Config, bins: seq<real>, mass: real, floor: real, fixed: real, n: nat) returns (k: nat)
    requires c.Valid() && Histogram(bins) && mass > 0.0 && floor > 0.0 && IsFixedPoint(c, bins, floor, fixed)
    ensures k <= BINS && IsLowestFixedPoint(c, bins, floor, Iterate(c, bins, floor, k))
    ensures Climb(c, bins, mass, floor, floor, n) == Settled(Iterate(c, bins, floor, k))
            <==> k <= n && GuardsPass(c, bins, mass, floor, 0, k)
  {
    k := FixedPointIsReached(c, bins, floor, fixed);
    ClimbReachesIff(c, bins, mass, floor, k, n);
    forall other | IsFixedPoint(c, bins, floor, other) ensures Iterate(c, bins, floor, k) <= other {
      RisesBelow(c, bins, floor, k, other);
    }
  }

  /** Rising iterates do not pass a fixed point. */
  lemma {:induction false} RisesBelow(c: Config, bins: seq<real>, floor: real, k: nat, fixed: real)
    requires c.Valid() && Histogram(bins) && floor > 0.0
    requires Rises(c, bins, floor, 0, k) && IsFixedPoint(c, bins, floor, fixed)
    ensures floor <= Iterate(c, bins, floor, k) <= fixed
    decreases k
  {
    if k > 0 {
      RisesBelow(c, bins, floor, k - 1, fixed);
      assert RisesAt(c, bins, floor, k - 1);
      var t := Iterate(c, bins, floor, k - 1);
      LeadsUp(c, bins, floor, t, fixed);
    }
  }

  // ----- one update

  function Decayed(bins: seq<real>, decay: real): seq<real> {
    seq(|bins|, i requires 0 <= i < |bins| => Share(decay, bins[i]))
  }

  /** The slew limit, and below it the floor that lets a zero threshold start to move. */
  function Slewed(c: Config, threshold: real, t: real): real {
    Max(Min(Max(t, threshold * (1.0 - c.maxSlew)), threshold * (1.0 + c.maxSlew)), c.minThreshold)
  }

  function Recompute(c: Config, s: State): State
    requires |s.bins| == BINS && forall x :: 0 <= c.scale.binOf(x)
  {
    var bins, mass := Decayed(s.bins, c.decay), Share(c.decay, s.mass);
    var faded := s.(bins := bins, mass := mass);
    if s.frames <= c.warmupFrames || mass <= 0.0 then faded
    else
      var floor := Floor(c, bins);
      match Climb(c, bins, mass, floor, floor, MAX_CLIMB)
      case Abandoned => faded
      case Settled(t) => faded.(threshold := Slewed(c, s.threshold, t))
  }

  function Observe(c: Config, s: State, rms: real): State
    requires |s.bins| == BINS && 0 <= c.scale.binOf(rms) < BINS
  {
    var bin := c.scale.binOf(rms);
    s.(bins := s.bins[bin := s.bins[bin] + 1.0], mass := s.mass + 1.0)
  }

  /** Judges one frame and folds it into the estimate. */
  function IsSpeech(c: Config, s: State, level: Level): (bool, State)
    requires |s.bins| == BINS && forall x :: 0 <= c.scale.binOf(x) < BINS
  {
    match level
    case Empty => (false, s)
    case NotFinite => (false, s)
    case Rms(rms) =>
      var counted := Observe(c, s, rms).(frames := s.frames + 1, sinceUpdate := s.sinceUpdate + 1);
      var after := if counted.sinceUpdate >= c.updateFrames then Recompute(c, counted.(sinceUpdate := 0)) else counted;
      (rms >= if after.frames <= c.warmupFrames then c.fallback else after.threshold, after)
  }

  function Fresh(c: Config): State {
    State(seq(BINS, _ => 0.0), 0.0, 0, 0, c.fallback)
  }

  /** The state after a whole recording. */
  function Heard(c: Config, levels: seq<Level>): (s: State)
    requires forall x :: 0 <= c.scale.binOf(x) < BINS
    ensures |s.bins| == BINS
  {
    if levels == [] then Fresh(c) else IsSpeech(c, Heard(c, levels[..|levels| - 1]), levels[|levels| - 1]).1
  }

  // ----- what every recording keeps

  function TotalMass(bins: seq<real>): real {
    Sum(bins, 0, |bins|)
  }

  ghost predicate Sane(s: State) {
    Histogram(s.bins) && s.mass == TotalMass(s.bins) && s.threshold >= 0.0
  }

  lemma {:induction false} DecayScalesSum(bins: seq<real>, decay: real, lo: int, hi: int)
    requires 0 <= lo && hi <= |bins|
    ensures Sum(Decayed(bins, decay), lo, hi) == Share(decay, Sum(bins, lo, hi))
    decreases hi - lo
  {
    if lo < hi {
      DecayScalesSum(bins, decay, lo, hi - 1);
      assert decay * (Sum(bins, lo, hi - 1) + bins[hi - 1]) == decay * Sum(bins, lo, hi - 1) + decay * bins[hi - 1];
    }
  }

  lemma {:induction false} SumUpdate(bins: seq<real>, k: int, extra: real, lo: int, hi: int)
    requires 0 <= lo <= hi <= |bins| && 0 <= k < |bins|
    ensures Sum(bins[k := bins[k] + extra], lo, hi) == Sum(bins, lo, hi) + if lo <= k < hi then extra else 0.0
    decreases hi - lo
  {
    if lo < hi {
      SumUpdate(bins, k, extra, lo, hi - 1);
    }
  }

  lemma ObserveSane(c: Config, s: State, rms: real)
    requires c.Valid() && Sane(s)
    ensures Sane(Observe(c, s, rms)) && Observe(c, s, rms).mass > 0.0
  {
    CountSane(s, c.scale.binOf(rms));
  }

  lemma CountSane(s: State, bin: int)
    requires Sane(s) && 0 <= bin < BINS
    ensures var after := s.(bins := s.bins[bin := s.bins[bin] + 1.0], mass := s.mass + 1.0);
            Sane(after) && after.mass > 0.0
  {
    CountedHistogram(s.bins, bin);
    SumNonNegative(s.bins, 0, |s.bins|);
  }

  lemma CountedHistogram(bins: seq<real>, bin: int)
    requires Histogram(bins) && 0 <= bin < BINS
    ensures Histogram(bins[bin := bins[bin] + 1.0])
    ensures TotalMass(bins[bin := bins[bin] + 1.0]) == TotalMass(bins) + 1.0
  {
    SumUpdate(bins, bin, 1.0, 0, |bins|);
  }

  lemma DecayedSane(c: Config, s: State)
    requires c.Valid() && Sane(s)
    ensures Sane(s.(bins := Decayed(s.bins, c.decay), mass := Share(c.decay, s.mass)))
    ensures s.mass > 0.0 ==> Share(c.decay, s.mass) > 0.0
  {
    DecayScalesSum(s.bins, c.decay, 0, |s.bins|);
    forall i | 0 <= i < BINS ensures Decayed(s.bins, c.decay)[i] >= 0.0 {
      ShareMonotone(c.decay, 0.0, s.bins[i]);
    }
    ShareMonotone(c.decay, s.mass, s.mass);
  }

  /** With any mass at all the noise guard is positive. */
  lemma FloorPositive(c: Config, bins: seq<real>)
    requires c.Valid() && Histogram(bins) && TotalMass(bins) > 0.0
    ensures Floor(c, bins) > 0.0
  {
    QuantileMonotone(c.scale, bins, c.noiseQuantile, 0.0, 0.0);
    var x := Quantile(c.scale, bins, c.noiseQuantile, 0.0);
    ShareMonotone(c.noiseFactor, x, x);
  }

  /** The new threshold is within the slew limit of the old one, or is the configured minimum. */
  ghost predicate SmallStep(c: Config, before: real, after: real) {
    after == c.minThreshold || before * (1.0 - c.maxSlew) <= after <= before * (1.0 + c.maxSlew)
  }

  /** Among the thresholds that one step may reach, the new one is nearest to the aim. */
  lemma SlewAimsAt(c: Config, threshold: real, t: real, x: real)
    requires c.maxSlew > 0.0 && threshold >= 0.0 && c.minThreshold <= t
    requires threshold * (1.0 - c.maxSlew) <= x <= threshold * (1.0 + c.maxSlew) && c.minThreshold <= x
    ensures Apart(Slewed(c, threshold, t), t) <= Apart(x, t)
  {
  }

  function Apart(x: real, y: real): real {
    if x >= y then x - y else y - x
  }

  lemma SlewIsSmall(c: Config, threshold: real, t: real)
    requires c.Valid() && threshold >= 0.0
    ensures SmallStep(c, threshold, Slewed(c, threshold, t)) && Slewed(c, threshold, t) >= c.minThreshold
  {
    var down, up := 1.0 - c.maxSlew, 1.0 + c.maxSlew;
    assert threshold * (up - down) == threshold * up - threshold * down;
    assert threshold * (up - down) >= 0.0;
  }

  /**
   * An update that sets the threshold aims at a t between the noise guard and every
   * fixed point of the map, and then moves towards it by a small step.
   */
  lemma RecomputeAimsBelowFixedPoints(c: Config, s: State, fixed: real) returns (floor: real, t: real)
    requires c.Valid() && Sane(s) && s.frames > c.warmupFrames && s.mass > 0.0
    ensures var bins := Decayed(s.bins, c.decay);
            && floor == Floor(c, bins) > 0.0
            && floor <= t
            && Recompute(c, s).threshold == Slewed(c, s.threshold, t)
            && SmallStep(c, s.threshold, Recompute(c, s).threshold)
            && (IsFixedPoint(c, bins, floor, fixed) ==> t <= fixed)
            && (MassAbove(c.scale, bins, t) > 0.0 ==> t <= Next(c, bins, floor, t))
  {
    var bins, mass := Decayed(s.bins, c.decay), Share(c.decay, s.mass);
    DecayedSane(c, s);
    FloorPositive(c, bins);
    floor := Floor(c, bins);
    assert floor <= Next(c, bins, floor, floor);
    assert IsFixedPoint(c, bins, floor, fixed) ==> floor <= fixed;
    ClimbStaysBelow(c, bins, mass, floor, floor, MAX_CLIMB, fixed);
    t := Climb(c, bins, mass, floor, floor, MAX_CLIMB).t;
    SlewIsSmall(c, s.threshold, t);
  }

  lemma RecomputeSane(c: Config, s: State)
    requires c.Valid() && Sane(s) && s.mass > 0.0
    ensures Sane(Recompute(c, s)) && Recompute(c, s).mass > 0.0
    ensures Recompute(c, s).threshold == s.threshold || SmallStep(c, s.threshold, Recompute(c, s).threshold)
  {
    DecayedSane(c, s);
    if s.frames > c.warmupFrames {
      var _, t := RecomputeAimsBelowFixedPoints(c, s, 0.0);
      SlewIsSmall(c, s.threshold, t);
    }
  }

  lemma IsSpeechSane(c: Config, s: State, level: Level)
    requires c.Valid() && Sane(s)
    ensures var after := IsSpeech(c, s, level).1;
            Sane(after) && (after.threshold == s.threshold || SmallStep(c, s.threshold, after.threshold))
  {
    if level.Rms? {
      ObserveSane(c, s, level.value);
      RecomputeSane(c, Observe(c, s, level.value).(frames := s.frames + 1, sinceUpdate := 0));
    }
  }

  /** Over any recording the mass is the sum of the bins and no frame moves the threshold far. */
  lemma {:induction false} HeardSane(c: Config, levels: seq<Level>)
    requires c.Valid()
    ensures Sane(Heard(c, levels))
    ensures levels != [] ==>
              var before := Heard(c, levels[..|levels| - 1]);
              Heard(c, levels).threshold == before.threshold
              || SmallStep(c, before.threshold, Heard(c, levels).threshold)
  {
    if levels == [] {
      EmptySum(0, BINS);
    } else {
      HeardSane(c, levels[..|levels| - 1]);
      IsSpeechSane(c, Heard(c, levels[..|levels| - 1]), levels[|levels| - 1]);
    }
  }

  // ----- what the histogram remembers

  /** Each frame heard counts one in its bin, and every update since, its own included, fades it by the decay. */
  function Remembered(c: Config, levels: seq<Level>, b: int): real
    requires forall x :: 0 <= c.scale.binOf(x) < BINS
  {
    if levels == [] then 0.0
    else
      var front, last := levels[..|levels| - 1], levels[|levels| - 1];
      var before := Remembered(c, front, b);
      if !last.Rms? then before
      else
        var counted := before + if c.scale.binOf(last.value) == b then 1.0 else 0.0;
        if Since(Counts(levels), c.updateFrames) == 0 then Share(c.decay, counted) else counted
  }

  lemma {:induction false} HistogramRemembers(c: Config, levels: seq<Level>, b: int)
    requires c.Valid() && 0 <= b < BINS
    ensures Heard(c, levels).bins[b] == Remembered(c, levels, b)
  {
    if levels != [] {
      var front, last := levels[..|levels| - 1], levels[|levels| - 1];
      HistogramRemembers(c, front, b);
      HeardCounts(c, front);
      if last.Rms? {
        FrameRemembered(c, Heard(c, front), last.value, b);
      }
    }
  }

  lemma FrameRemembered(c: Config, s: State, rms: real, b: int)
    requires c.Valid() && |s.bins| == BINS && 0 <= b < BINS
    ensures var counted := s.bins[b] + if c.scale.binOf(rms) == b then 1.0 else 0.0;
            IsSpeech(c, s, Rms(rms)).1.bins[b] ==
            if s.sinceUpdate + 1 >= c.updateFrames then Share(c.decay, counted) else counted
  {
    if s.sinceUpdate + 1 >= c.updateFrames {
      LoudIsUpdate(c, s, rms);
      RecomputeFades(c, Counted(c, s, rms));
    } else {
      NoUpdateYet(c, s, rms);
    }
  }

  // ----- the verdict

  /** How many frames told the detector something. */
  function Counts(levels: seq<Level>): nat {
    if levels == [] then 0
    else Counts(levels[..|levels| - 1]) + if levels[|levels| - 1].Rms? then 1 else 0
  }

  /** How many of them came after the last update. */
  function Since(k: nat, period: nat): nat {
    if k == 0 || Since(k - 1, period) + 1 >= period then 0 else Since(k - 1, period) + 1
  }

  lemma HeardSnoc(c: Config, levels: seq<Level>, level: Level)
    requires forall x :: 0 <= c.scale.binOf(x) < BINS
    ensures Heard(c, levels + [level]) == IsSpeech(c, Heard(c, levels), level).1
  {
    assert (levels + [level])[..|levels|] == levels;
  }

  /** Only a completed update period after the warm-up may move the threshold. */
  lemma CountedMoves(c: Config, s: State, rms: real)
    requires c.Valid() && |s.bins| == BINS
    ensures var after := IsSpeech(c, s, Rms(rms)).1;
            && after.frames == s.frames + 1
            && after.sinceUpdate == (if s.sinceUpdate + 1 >= c.updateFrames then 0 else s.sinceUpdate + 1)
            && (after.threshold != s.threshold ==> after.sinceUpdate == 0 && after.frames > c.warmupFrames)
  {
    RecomputeFades(c, Observe(c, s, rms).(frames := s.frames + 1, sinceUpdate := 0));
  }

  /** The counters count what was told, and until the warm-up is over the fallback stays in force. */
  lemma {:induction false} HeardCounts(c: Config, levels: seq<Level>)
    requires c.Valid()
    ensures var s := Heard(c, levels);
            && s.frames == Counts(levels) && s.sinceUpdate == Since(Counts(levels), c.updateFrames)
            && (s.frames <= c.warmupFrames ==> s.threshold == c.fallback)
  {
    if levels != [] {
      var front, last := levels[..|levels| - 1], levels[|levels| - 1];
      HeardCounts(c, front);
      if last.Rms? {
        CountedMoves(c, Heard(c, front), last.value);
      }
    }
  }

  /**
   * After any recording: a frame that tells nothing is no speech and changes nothing;
   * any other is speech exactly when its level reaches the threshold in force after it,
   * which is the fallback as long as no more frames than the warm-up have told
   * something, and which only the last frame of an update period may have moved.
   */
  lemma VerdictIff(c: Config, levels: seq<Level>, level: Level)
    requires c.Valid()
    ensures var before, after := Heard(c, levels), Heard(c, levels + [level]);
            var speech := IsSpeech(c, before, level).0;
            var k := Counts(levels) + 1;
            && (!level.Rms? ==> !speech && after == before)
            && (level.Rms? ==>
                  && (speech <==> level.value >= after.threshold)
                  && (k <= c.warmupFrames ==> after.threshold == c.fallback)
                  && (k <= c.warmupFrames || Since(k, c.updateFrames) != 0 ==> after.threshold == before.threshold))
  {
    HeardCounts(c, levels);
    HeardCounts(c, levels + [level]);
    HeardSnoc(c, levels, level);
    CountsSnoc(levels, level);
    if level.Rms? {
      CountedMoves(c, Heard(c, levels), level.value);
      RmsVerdict(c, Heard(c, levels), level.value);
    }
  }

  /**
   * At the end of an update period after the warm-up the threshold does move, by the
   * slew, towards where the climb on the faded histogram settles: between the noise
   * floor and every fixed point.
   */
  lemma UpdateMoves(c: Config, levels: seq<Level>, rms: real, fixed: real) returns (floor: real, t: real)
    requires c.Valid() && Since(Counts(levels) + 1, c.updateFrames) == 0 && Counts(levels) + 1 > c.warmupFrames
    ensures var before, after := Heard(c, levels), Heard(c, levels + [Rms(rms)]);
            && floor == Floor(c, after.bins) <= t
            && Climb(c, after.bins, after.mass, floor, floor, MAX_CLIMB) == Settled(t)
            && after.threshold == Slewed(c, before.threshold, t)
            && (IsFixedPoint(c, after.bins, floor, fixed) ==> t <= fixed)
  {
    var before := Heard(c, levels);
    HeardSane(c, levels);
    HeardCounts(c, levels);
    HeardSnoc(c, levels, Rms(rms));
    LoudIsUpdate(c, before, rms);
    ObserveSane(c, before, rms);
    floor, t := RecomputeSettles(c, Counted(c, before, rms), fixed);
  }

  lemma RecomputeSettles(c: Config, s: State, fixed: real) returns (floor: real, t: real)
    requires c.Valid() && Sane(s) && s.mass > 0.0 && s.frames > c.warmupFrames
    ensures var after := Recompute(c, s);
            && floor == Floor(c, after.bins) <= t
            && Climb(c, after.bins, after.mass, floor, floor, MAX_CLIMB) == Settled(t)
            && after.threshold == Slewed(c, s.threshold, t)
            && (IsFixedPoint(c, after.bins, floor, fixed) ==> t <= fixed)
  {
    RecomputeFades(c, s);
    DecayedSane(c, s);
    var bins, mass := Decayed(s.bins, c.decay), Share(c.decay, s.mass);
    FloorPositive(c, bins);
    floor := Floor(c, bins);
    ClimbSettlesBelow(c, bins, mass, floor, fixed);
    t := Climb(c, bins, mass, floor, floor, MAX_CLIMB).t;
  }

  lemma ClimbSettlesBelow(c: Config, bins: seq<real>, mass: real, floor: real, fixed: real)
    requires c.Valid() && Histogram(bins) && mass > 0.0 && floor > 0.0
    ensures var r := Climb(c, bins, mass, floor, floor, MAX_CLIMB);
            r.Settled? && floor <= r.t && (IsFixedPoint(c, bins, floor, fixed) ==> r.t <= fixed)
  {
    assert floor <= Next(c, bins, floor, floor);
    assert IsFixedPoint(c, bins, floor, fixed) ==> floor <= fixed;
    ClimbStaysBelow(c, bins, mass, floor, floor, MAX_CLIMB, fixed);
  }

  lemma CountsSnoc(levels: seq<Level>, level: Level)
    ensures Counts(levels + [level]) == Counts(levels) + if level.Rms? then 1 else 0
  {
    assert (levels + [level])[..|levels|] == levels;
  }

  lemma RmsVerdict(c: Config, s: State, rms: real)
    requires c.Valid() && |s.bins| == BINS
    requires var after := IsSpeech(c, s, Rms(rms)).1;
             after.frames <= c.warmupFrames ==> after.threshold == c.fallback
    ensures IsSpeech(c, s, Rms(rms)).0 <==> rms >= IsSpeech(c, s, Rms(rms)).1.threshold
  {
  }

  lemma {:induction false} EmptySum(lo: int, hi: int)
    requires 0 <= lo && hi <= BINS
    ensures Sum(seq(BINS, _ => 0.0), lo, hi) == 0.0
    decreases hi - lo
  {
    if lo < hi {
      EmptySum(lo, hi - 1);
    }
  }

  // ----- a recording at which the climb stops short

  /** All mass in two bins. */
  function TwoBins(a: int, x: real, b: int, y: real): seq<real> {
    seq(BINS, i => if i == a then x else if i == b then y else 0.0)
  }

  lemma {:induction false} TwoBinsSum(a: int, x: real, b: int, y: real, lo: int, hi: int)
    requires 0 <= lo && hi <= BINS && a < b
    ensures Sum(TwoBins(a, x, b, y), lo, hi) == (if lo <= a < hi then x else 0.0) + if lo <= b < hi then y else 0.0
    decreases hi - lo
  {
    if lo < hi {
      TwoBinsSum(a, x, b, y, lo, hi - 1);
    }
  }

  /** From a start up to bin b the quantile lies in bin a while a has enough mass, and beyond a in bin b. */
  lemma TwoBinsFirst(a: int, x: real, b: int, y: real, start: int, target: real)
    requires 0 <= a < b < BINS && 0.0 < target && 0 <= start <= b
    ensures start <= a && target <= x ==> FirstReaching(TwoBins(a, x, b, y), start, start, target) == a
    ensures a < start && target <= y ==> FirstReaching(TwoBins(a, x, b, y), start, start, target) == b
  {
    var bins := TwoBins(a, x, b, y);
    if start <= a && target <= x {
      TwoBinsSum(a, x, b, y, start, a + 1);
      FirstReachingIsLeast(bins, start, start, target, a);
      TwoBinsSum(a, x, b, y, start, FirstReaching(bins, start, start, target) + 1);
    } else if a < start && target <= y {
      TwoBinsSum(a, x, b, y, start, b + 1);
      FirstReachingIsLeast(bins, start, start, target, b);
      TwoBinsSum(a, x, b, y, start, FirstReaching(bins, start, start, target) + 1);
    }
  }

  function NoiseFloor(c: Config, a: int): real {
    Max(Share(c.noiseFactor, c.scale.valueOf(a)), c.minThreshold)
  }

  function SpeechLevel(c: Config, b: int): real {
    Share(c.speechFactor, c.scale.valueOf(b))
  }

  /** Speech in bin b stands out clearly against noise in bin a. */
  ghost predicate StandsOut(c: Config, a: int, b: int) {
    && 0 <= a < b < BINS
    && a < c.scale.binOf(NoiseFloor(c, a))
    && NoiseFloor(c, a) < SpeechLevel(c, b)
    && c.scale.binOf(SpeechLevel(c, b)) <= b
  }

  lemma TwoBinsFloor(c: Config, a: int, x: real, b: int, y: real)
    requires c.Valid() && StandsOut(c, a, b) && x > 0.0 && y > 0.0
    requires Share(c.noiseQuantile, x + y) <= x
    ensures Floor(c, TwoBins(a, x, b, y)) == NoiseFloor(c, a)
  {
    TwoBinsSum(a, x, b, y, 0, BINS);
    ShareMonotone(c.noiseQuantile, x + y, x + y);
    TwoBinsFirst(a, x, b, y, 0, Share(c.noiseQuantile, x + y));
  }

  lemma TwoBinsNext(c: Config, a: int, x: real, b: int, y: real, t: real)
    requires c.Valid() && StandsOut(c, a, b) && x > 0.0 && y > 0.0
    requires NoiseFloor(c, a) <= t <= SpeechLevel(c, b)
    ensures MassAbove(c.scale, TwoBins(a, x, b, y), t) == y
    ensures Next(c, TwoBins(a, x, b, y), NoiseFloor(c, a), t) == SpeechLevel(c, b)
  {
    ShareMonotone(c.noiseFactor, c.scale.valueOf(a), c.scale.valueOf(a));
    var start := c.scale.binOf(t);
    assert a < start <= b && StartBin(c.scale, t) == start;
    TwoBinsSum(a, x, b, y, start, BINS);
    ShareMonotone(c.speechQuantile, y, y);
    ShareOfSum(c.speechQuantile, y, 0.0);
    TwoBinsFirst(a, x, b, y, start, Share(c.speechQuantile, y));
  }

  /** From t the climb does not move in any number of rounds. */
  ghost predicate StaysAt(c: Config, bins: seq<real>, mass: real, t: real)
    requires |bins| == BINS && forall x :: 0 <= c.scale.binOf(x)
  {
    forall n: nat :: Climb(c, bins, mass, t, t, n) == Settled(t)
  }

  /** Little mass in bin b: the climb stays at the floor for any number of rounds. */
  lemma TwoBinsSettle(c: Config, a: int, x: real, b: int, y: real)
    requires c.Valid() && StandsOut(c, a, b) && x > 0.0 && y > 0.0 && y < MIN_SPEECH_MASS * (x + y)
    ensures var bins, floor := TwoBins(a, x, b, y), NoiseFloor(c, a);
            StaysAt(c, bins, x + y, floor)
  {
    TwoBinsNext(c, a, x, b, y, NoiseFloor(c, a));
  }

  lemma TwoBinsDecay(a: int, x: real, b: int, y: real, decay: real)
    ensures Decayed(TwoBins(a, x, b, y), decay) == TwoBins(a, Share(decay, x), b, Share(decay, y))
  {
    assert decay * 0.0 == 0.0;
  }

  /** An update fades the histogram and touches nothing else but the threshold. */
  lemma RecomputeFades(c: Config, s: State)
    requires |s.bins| == BINS && forall x :: 0 <= c.scale.binOf(x)
    ensures var after := Recompute(c, s);
            && after.bins == Decayed(s.bins, c.decay) && after.mass == Share(c.decay, s.mass)
            && after.frames == s.frames && after.sinceUpdate == s.sinceUpdate
  {
  }

  lemma QuietIsCounted(c: Config, a: int, b: int, s: State)
    requires c.Valid() && 0 <= a < b < BINS && s.bins == TwoBins(a, s.mass, b, 0.0)
    ensures Counted(c, s, c.scale.valueOf(a)).bins == TwoBins(a, s.mass + 1.0, b, 0.0)
  {
  }

  lemma NoUpdateYet(c: Config, s: State, rms: real)
    requires |s.bins| == BINS && (forall x :: 0 <= c.scale.binOf(x) < BINS) && s.sinceUpdate + 1 < c.updateFrames
    ensures IsSpeech(c, s, Rms(rms)).1 == Counted(c, s, rms).(sinceUpdate := s.sinceUpdate + 1)
  {
  }

  lemma QuietFrame(c: Config, a: int, b: int, s: State)
    requires c.Valid() && 0 <= a < b < BINS && s.bins == TwoBins(a, s.mass, b, 0.0)
    ensures var after := IsSpeech(c, s, Rms(c.scale.valueOf(a))).1;
            && after.bins == TwoBins(a, after.mass, b, 0.0) && after.frames == s.frames + 1
            && if s.sinceUpdate + 1 >= c.updateFrames
               then after.sinceUpdate == 0 && after.mass == Share(c.decay, s.mass + 1.0)
               else after.sinceUpdate == s.sinceUpdate + 1 && after.mass == s.mass + 1.0
  {
    var level := c.scale.valueOf(a);
    QuietIsCounted(c, a, b, s);
    if s.sinceUpdate + 1 >= c.updateFrames {
      LoudIsUpdate(c, s, level);
      RecomputeFades(c, Counted(c, s, level));
      TwoBinsDecay(a, s.mass + 1.0, b, 0.0, c.decay);
    } else {
      NoUpdateYet(c, s, level);
    }
  }

  function Quiet(level: real, k: nat): seq<Level> {
    seq(k, _ => Rms(level))
  }

  /** At the end of such a recording the loud frame is speech exactly when it reaches the threshold then in force. */
  lemma LoudFrameVerdict(c: Config, a: int, b: int) returns (levels: seq<Level>)
    requires c.Valid() && c.updateFrames >= 50 && c.noiseQuantile <= 0.98 && StandsOut(c, a, b)
    ensures levels != [] && levels[|levels| - 1] == Rms(c.scale.valueOf(b))
    ensures var before := Heard(c, levels[..|levels| - 1]);
            IsSpeech(c, before, levels[|levels| - 1]).0 <==>
            c.scale.valueOf(b) >= Slewed(c, before.threshold, NoiseFloor(c, a))
  {
    levels := ThinTailStopsShort(c, a, b);
    var front := levels[..|levels| - 1];
    assert levels == front + [levels[|levels| - 1]];
    VerdictIff(c, front, levels[|levels| - 1]);
  }

  lemma {:induction false} SinceUp(k: nat, j: nat, period: nat)
    requires Since(k, period) == 0 && j < period
    ensures Since(k + j, period) == j
  {
    if j > 0 {
      SinceUp(k, j - 1, period);
    }
  }

  lemma {:induction false} FullPeriods(m: nat, period: nat)
    requires period > 0
    ensures period * m >= m && Since(period * m, period) == 0
  {
    if m > 0 {
      FullPeriods(m - 1, period);
      SinceUp(period * (m - 1), period - 1, period);
      assert period * (m - 1) + (period - 1) + 1 == period * m;
    }
  }

  /** Only noise so far: the frames since the last update, and mass from before it. */
  ghost predicate HeardNoise(c: Config, a: int, b: int, s: State, k: nat) {
    && s.bins == TwoBins(a, s.mass, b, 0.0)
    && s.frames == k && s.sinceUpdate == Since(k, c.updateFrames)
    && s.mass >= s.sinceUpdate as real
    && (k >= c.updateFrames ==> s.mass > s.sinceUpdate as real)
  }

  lemma NoiseGoesOn(c: Config, a: int, b: int, s: State, k: nat)
    requires c.Valid() && 0 <= a < b < BINS && HeardNoise(c, a, b, s, k) && (k < c.updateFrames ==> s.sinceUpdate == k)
    ensures var after := IsSpeech(c, s, Rms(c.scale.valueOf(a))).1;
            HeardNoise(c, a, b, after, k + 1) && (k + 1 < c.updateFrames ==> after.sinceUpdate == k + 1)
  {
    QuietFrame(c, a, b, s);
    ShareMonotone(c.decay, s.mass + 1.0, s.mass + 1.0);
  }

  lemma {:induction false} QuietHeard(c: Config, a: int, b: int, k: nat)
    requires c.Valid() && 0 <= a < b < BINS
    ensures var s := Heard(c, Quiet(c.scale.valueOf(a), k));
            HeardNoise(c, a, b, s, k) && (k < c.updateFrames ==> s.sinceUpdate == k)
  {
    if k == 0 {
      assert TwoBins(a, 0.0, b, 0.0) == seq(BINS, _ => 0.0);
    } else {
      var level := c.scale.valueOf(a);
      QuietHeard(c, a, b, k - 1);
      assert Quiet(level, k)[..k - 1] == Quiet(level, k - 1);
      NoiseGoesOn(c, a, b, Heard(c, Quiet(level, k - 1)), k - 1);
    }
  }

  /** One loud frame among more than fifty is less than two percent. */
  lemma OneInFifty(c: Config, mass: real)
    requires c.Valid() && c.noiseQuantile <= 0.98 && mass > 49.0
    ensures var x, y := Share(c.decay, mass), Share(c.decay, 1.0);
            x > 0.0 && y > 0.0 && y < MIN_SPEECH_MASS * (x + y) && Share(c.noiseQuantile, x + y) <= x
  {
    ScaledApart(c.decay, mass);
    ThinShare(c.noiseQuantile, Share(c.decay, mass), Share(c.decay, 1.0));
  }

  lemma ScaledApart(d: real, mass: real)
    requires d > 0.0 && mass > 49.0
    ensures Share(d, mass) > 49.0 * Share(d, 1.0) && Share(d, 1.0) > 0.0
  {
    ShareMonotone(d, mass - 49.0, mass - 49.0);
    assert d * (mass - 49.0) == d * mass - d * 49.0;
  }

  lemma ThinShare(q: real, x: real, y: real)
    requires y > 0.0 && x > 49.0 * y && q <= 0.98
    ensures y < MIN_SPEECH_MASS * (x + y) && Share(q, x + y) <= x
  {
    ShareGrows(q, 0.98, x + y);
  }

  lemma ShareGrows(q: real, r: real, x: real)
    requires q <= r && x >= 0.0
    ensures Share(q, x) <= Share(r, x)
  {
    assert (r - q) * x >= 0.0;
  }

  /** What an update does when the climb stays at the floor. */
  lemma RecomputeStays(c: Config, s: State, bins: seq<real>, mass: real, floor: real) returns (after: State)
    requires c.Valid() && |s.bins| == BINS && s.frames > c.warmupFrames
    requires bins == Decayed(s.bins, c.decay) && mass == Share(c.decay, s.mass) > 0.0
    requires Floor(c, bins) == floor && StaysAt(c, bins, mass, floor)
    ensures after == Recompute(c, s)
    ensures after == s.(bins := bins, mass := mass, threshold := Slewed(c, s.threshold, floor))
  {
    after := s.(bins := bins, mass := mass, threshold := Slewed(c, s.threshold, floor));
    assert Climb(c, bins, mass, floor, floor, MAX_CLIMB) == Settled(floor);
  }

  /**
   * The climb need not reach a fixed point at all. Noise, and then one loud frame that
   * completes an update period of at least fifty frames after the warm-up: at the end
   * of such a recording the detector has just updated its threshold, and the climb
   * stayed at the noise floor, and would for any number of rounds, although the floor
   * is not a fixed point and the map has one above it.
   */
  lemma ThinTailStopsShort(c: Config, a: int, b: int) returns (levels: seq<Level>)
    requires c.Valid() && c.updateFrames >= 50 && c.noiseQuantile <= 0.98 && StandsOut(c, a, b)
    ensures levels != [] && levels == Quiet(c.scale.valueOf(a), |levels| - 1) + [Rms(c.scale.valueOf(b))]
    ensures StopsShort(c, Heard(c, levels[..|levels| - 1]), Heard(c, levels), NoiseFloor(c, a), SpeechLevel(c, b))
  {
    var level := c.scale.valueOf(a);
    FullPeriods(c.warmupFrames + 1, c.updateFrames);
    var k := c.updateFrames * (c.warmupFrames + 1) + (c.updateFrames - 1);
    SinceUp(k - (c.updateFrames - 1), c.updateFrames - 1, c.updateFrames);
    levels := Quiet(level, k) + [Rms(c.scale.valueOf(b))];
    assert levels[..k] == Quiet(level, k);
    QuietHeard(c, a, b, k);
    AtLeastOnePeriod(c.updateFrames, c.warmupFrames);
    var _ := ShortOfSpeech(c, a, b, Heard(c, Quiet(level, k)));
  }

  lemma AtLeastOnePeriod(period: nat, warmup: nat)
    requires period > 0
    ensures period * (warmup + 1) >= period
  {
    assert period * (warmup + 1) == period * warmup + period && period * warmup >= 0;
  }

  /** The climb stays at the noise floor, which is no fixed point, although there is one above it. */
  ghost predicate ClimbsShort(c: Config, bins: seq<real>, mass: real, floor: real, fixed: real)
    requires |bins| == BINS && forall x :: 0 <= c.scale.binOf(x)
  {
    && Floor(c, bins) == floor && StaysAt(c, bins, mass, floor)
    && !IsFixedPoint(c, bins, floor, floor)
    && floor < fixed && IsFixedPoint(c, bins, floor, fixed)
  }

  /** An update after the warm-up at which that happens. */
  ghost predicate StopsShort(c: Config, before: State, after: State, floor: real, fixed: real)
    requires |after.bins| == BINS && forall x :: 0 <= c.scale.binOf(x)
  {
    && after.frames > c.warmupFrames && after.sinceUpdate == 0
    && ClimbsShort(c, after.bins, after.mass, floor, fixed)
    && after.threshold == Slewed(c, before.threshold, floor)
  }

  /** A frame is counted, and then an update begins. */
  function Counted(c: Config, s: State, rms: real): State
    requires |s.bins| == BINS && 0 <= c.scale.binOf(rms) < BINS
  {
    Observe(c, s, rms).(frames := s.frames + 1, sinceUpdate := 0)
  }

  lemma LoudIsUpdate(c: Config, s: State, rms: real)
    requires |s.bins| == BINS && (forall x :: 0 <= c.scale.binOf(x) < BINS) && s.sinceUpdate + 1 >= c.updateFrames
    ensures IsSpeech(c, s, Rms(rms)).1 == Recompute(c, Counted(c, s, rms))
  {
  }

  lemma LoudIsCounted(c: Config, a: int, b: int, s: State)
    requires c.Valid() && 0 <= a < b < BINS && s.bins == TwoBins(a, s.mass, b, 0.0)
    ensures Counted(c, s, c.scale.valueOf(b)).bins == TwoBins(a, s.mass, b, 1.0)
  {
  }

  lemma SharesAdd(q: real, x: real, y: real)
    ensures Share(q, x + y) == Share(q, x) + Share(q, y)
  {
  }

  /** The histogram after the loud frame. */
  lemma ThinHistogram(c: Config, a: int, b: int, mass: real) returns (bins: seq<real>, total: real)
    requires c.Valid() && c.noiseQuantile <= 0.98 && StandsOut(c, a, b) && mass > 49.0
    ensures bins == Decayed(TwoBins(a, mass, b, 1.0), c.decay) && total == Share(c.decay, mass + 1.0) > 0.0
    ensures ClimbsShort(c, bins, total, NoiseFloor(c, a), SpeechLevel(c, b))
  {
    var x, y := Share(c.decay, mass), Share(c.decay, 1.0);
    bins, total := TwoBins(a, x, b, y), x + y;
    OneInFifty(c, mass);
    LoudHistogram(c, a, x, b, y);
    TwoBinsDecay(a, mass, b, 1.0, c.decay);
    SharesAdd(c.decay, mass, 1.0);
  }

  /** One loud frame completes an update period. */
  lemma LoudFrame(c: Config, a: int, b: int, s: State, bins: seq<real>, total: real, floor: real) returns (after: State)
    requires c.Valid() && 0 <= a < b < BINS && s.bins == TwoBins(a, s.mass, b, 0.0)
    requires s.frames >= c.warmupFrames && s.sinceUpdate + 1 >= c.updateFrames
    requires bins == Decayed(TwoBins(a, s.mass, b, 1.0), c.decay) && total == Share(c.decay, s.mass + 1.0) > 0.0
    requires Floor(c, bins) == floor && StaysAt(c, bins, total, floor)
    ensures after == IsSpeech(c, s, Rms(c.scale.valueOf(b))).1
    ensures after == State(bins, total, s.frames + 1, 0, Slewed(c, s.threshold, floor))
  {
    var counted := Counted(c, s, c.scale.valueOf(b));
    LoudIsCounted(c, a, b, s);
    after := RecomputeStays(c, counted, bins, total, floor);
    LoudIsUpdate(c, s, c.scale.valueOf(b));
  }

  /** One loud frame after noise, at the end of an update period. */
  lemma ShortOfSpeech(c: Config, a: int, b: int, s: State) returns (after: State)
    requires c.Valid() && c.noiseQuantile <= 0.98 && StandsOut(c, a, b)
    requires s.bins == TwoBins(a, s.mass, b, 0.0) && s.mass > 49.0
    requires s.frames >= c.warmupFrames && s.sinceUpdate + 1 >= c.updateFrames
    ensures after == IsSpeech(c, s, Rms(c.scale.valueOf(b))).1
    ensures StopsShort(c, s, after, NoiseFloor(c, a), SpeechLevel(c, b))
  {
    var bins, total := ThinHistogram(c, a, b, s.mass);
    after := LoudFrame(c, a, b, s, bins, total, NoiseFloor(c, a));
  }

  lemma LoudHistogram(c: Config, a: int, x: real, b: int, y: real)
    requires c.Valid() && StandsOut(c, a, b) && x > 0.0 && y > 0.0
    requires y < MIN_SPEECH_MASS * (x + y) && Share(c.noiseQuantile, x + y) <= x
    ensures ClimbsShort(c, TwoBins(a, x, b, y), x + y, NoiseFloor(c, a), SpeechLevel(c, b))
  {
    TwoBinsFloor(c, a, x, b, y);
    TwoBinsNext(c, a, x, b, y, NoiseFloor(c, a));
    TwoBinsNext(c, a, x, b, y, SpeechLevel(c, b));
    TwoBinsSettle(c, a, x, b, y);
  }

  /** The histogram's scale: 51 bins to a factor of ten, in small steps. */
  ghost predicate Logarithmic(sc: Scale) {
    && sc.Valid()
    && (forall i :: 0 <= i < BINS - 51 ==> sc.valueOf(i + 51) == 10.0 * sc.valueOf(i))
    && (forall i :: 0 <= i < BINS - 1 ==> sc.valueOf(i + 1) <= 1.05 * sc.valueOf(i))
  }

  /** The calibrated factors. */
  predicate Calibrated(c: Config) {
    && c.speechQuantile == 0.9 && c.speechFactor == 0.3767
    && c.noiseQuantile == 0.1 && c.noiseFactor == 1.8 && c.minThreshold == 0.002
  }

  /** So the calibrated detector stops short on its own scale, for speech 40 dB above any noise that sets its floor. */
  lemma CalibratedStandsOut(c: Config, a: int)
    requires c.Valid() && Logarithmic(c.scale) && Calibrated(c)
    requires 0 <= a < BINS - 102 && 0.002 <= 1.8 * c.scale.valueOf(a)
    ensures StandsOut(c, a, a + 102) && c.noiseQuantile <= 0.98
  {
    var level, loud := c.scale.valueOf(a), c.scale.valueOf(a + 102);
    assert c.scale.valueOf(a + 51 + 51) == 10.0 * c.scale.valueOf(a + 51);
    assert loud == 100.0 * level && level > 0.0;
    assert NoiseFloor(c, a) == 1.8 * level && SpeechLevel(c, a + 102) == 0.3767 * loud;
    assert c.scale.valueOf(a + 1) <= NoiseFloor(c, a);
    assert c.scale.binOf(c.scale.valueOf(a + 1)) == a + 1;
    assert c.scale.binOf(loud) == a + 102;
  }

  // ----- the detector object

  class AdaptiveEnergyVAD {
    const cfg: Config
    const bins: array<real>
    var mass: real
    var frames: nat
    var sinceUpdate: nat
    var threshold: real

    ghost predicate Valid()
      reads this
    {
      cfg.Valid() && bins.Length == BINS
    }

    ghost function Now(): State
      reads this, bins
    {
      State(bins[..], mass, frames, sinceUpdate, threshold)
    }

    constructor (c: Config)
      requires c.Valid()
      ensures Valid() && cfg == c && fresh(bins) && Now() == Fresh(c)
    {
      cfg := c;
      bins := new real[BINS](_ => 0.0);
      mass, frames, sinceUpdate, threshold := 0.0, 0, 0, c.fallback;
      new;
      assert bins[..] == seq(BINS, _ => 0.0);
    }

    method ObserveLevel(rms: real)
      requires Valid()
      modifies this, bins
      ensures Now() == Observe(cfg, old(Now()), rms)
    {
      var bin := cfg.scale.binOf(rms);
      bins[bin] := bins[bin] + 1.0;
      mass := mass + 1.0;
    }

    /** The mass at or above a level. */
    method TailMass(from: real) returns (total: real)
      requires Valid()
      ensures total == MassAbove(cfg.scale, bins[..], from)
    {
      total := SumFrom(cfg.scale.binOf(from));
    }

    method SumFrom(start: int) returns (total: real)
      requires Valid() && 0 <= start < BINS
      ensures total == Sum(bins[..], start, |bins[..]|)
    {
      total := 0.0;
      for i := start to BINS
        invariant total == Sum(bins[..], start, i)
      {
        total := total + bins[i];
      }
    }

    /** The q-th quantile of the mass at or above a level. */
    method FindQuantile(q: real, from: real) returns (level: real)
      requires Valid()
      ensures level == Quantile(cfg.scale, bins[..], q, from)
    {
      var start := if from > 0.0 then cfg.scale.binOf(from) else 0;
      var total := SumFrom(start);
      if total <= 0.0 {
        return 0.0;
      }
      var target, running := Share(q, total), 0.0;
      for i := start to BINS
        invariant running == Sum(bins[..], start, i)
        invariant FirstReaching(bins[..], start, start, target) == FirstReaching(bins[..], start, i, target)
      {
        running := running + bins[i];
        if running >= target {
          return cfg.scale.valueOf(i);
        }
      }
      return cfg.scale.valueOf(BINS - 1);
    }

    method Fade()
      requires Valid()
      modifies this, bins
      ensures Now() == old(Now()).(bins := Decayed(old(bins[..]), cfg.decay), mass := Share(cfg.decay, old(mass)))
    {
      for i := 0 to BINS
        invariant mass == old(mass) && frames == old(frames)
        invariant sinceUpdate == old(sinceUpdate) && threshold == old(threshold)
        invariant forall k :: 0 <= k < BINS ==>
                    bins[k] == if k < i then Share(cfg.decay, old(bins[k])) else old(bins[k])
      {
        bins[i] := Share(cfg.decay, bins[i]);
      }
      mass := Share(cfg.decay, mass);
      assert bins[..] == Decayed(old(bins[..]), cfg.decay);
    }

    /** One application of the map. */
    method NextThreshold(floor: real, t: real) returns (next: real)
      requires Valid()
      ensures next == Next(cfg, bins[..], floor, t)
    {
      var quantile := FindQuantile(cfg.speechQuantile, t);
      next := Max(Share(cfg.speechFactor, quantile), floor);
    }

    /** The fixed-point iteration; it changes nothing but its result. */
    method ClimbFrom(floor: real, rounds: nat) returns (result: Climbed)
      requires Valid()
      ensures result == Climb(cfg, bins[..], mass, floor, floor, rounds)
    {
      var t := floor;
      ghost var counts := bins[..];
      for n := 0 to rounds
        invariant counts == bins[..]
        invariant Climb(cfg, counts, mass, floor, floor, rounds) == Climb(cfg, counts, mass, floor, t, rounds - n)
      {
        var tail := TailMass(t);
        if tail < MIN_SPEECH_MASS * mass {
          return Settled(t);
        }
        var next := NextThreshold(floor, t);
        if next <= 0.0 {
          return Abandoned;
        }
        if next <= t * TOLERANCE {
          return Settled(Max(t, next));
        }
        t := next;
      }
      return Settled(t);
    }

    method RecomputeThreshold()
      requires Valid()
      modifies this, bins
      ensures Now() == Recompute(cfg, old(Now()))
    {
      Fade();
      if frames <= cfg.warmupFrames || mass <= 0.0 {
        return;
      }
      var noise := FindQuantile(cfg.noiseQuantile, 0.0);
      var floor := Max(Share(cfg.noiseFactor, noise), cfg.minThreshold);
      var climbed := ClimbFrom(floor, MAX_CLIMB);
      if climbed.Settled? {
        threshold := Slewed(cfg, threshold, climbed.t);
      }
    }

    method Judge(level: Level) returns (speech: bool)
      requires Valid()
      modifies this, bins
      ensures (speech, Now()) == IsSpeech(cfg, old(Now()), level)
    {
      if !level.Rms? {
        return false;
      }
      ObserveLevel(level.value);
      frames := frames + 1;
      sinceUpdate := sinceUpdate + 1;
      if sinceUpdate >= cfg.updateFrames {
        sinceUpdate := 0;
        RecomputeThreshold();
      }
      return level.value >= if frames <= cfg.warmupFrames then cfg.fallback else threshold;
    }
  }
}
