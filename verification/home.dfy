/**
 * Proximity estimation on the home screen: the distance category, the
 * normalised progress value with its five-bucket label, and the vibration
 * trigger. Arithmetic is exact (`real`), not IEEE-754.
 */
module Home {
  import opened Options

  datatype Distance = VeryClose | Close | Medium | Far | VeryFar

  /** Position of a category from nearest (0) to farthest (4). */
  function Farness(d: Distance): nat {
    match d
    case VeryClose => 0
    case Close => 1
    case Medium => 2
    case Far => 3
    case VeryFar => 4
  }

  /** How many of the thresholds lie strictly above x. */
  function Exceeded(thresholds: seq<real>, x: real): (n: nat)
    ensures n <= |thresholds|
  {
    if thresholds == [] then 0
    else (if x < thresholds[0] then 1 else 0) + Exceeded(thresholds[1..], x)
  }

  /** Over four descending thresholds, Exceeded picks the band x lies in. */
  lemma ExceededFour(t0: real, t1: real, t2: real, t3: real, x: real)
    requires t0 > t1 > t2 > t3
    ensures Exceeded([t0, t1, t2, t3], x)
              == if x >= t0 then 0 else if x >= t1 then 1 else if x >= t2 then 2 else if x >= t3 then 3 else 4
  {
    var ts := [t0, t1, t2, t3];
    assert ts[1..] == [t1, t2, t3];
    assert [t1, t2, t3][1..] == [t2, t3];
    assert [t2, t3][1..] == [t3];
    assert [t3][1..] == [];
    assert Exceeded([t3], x) == if x < t3 then 1 else 0;
    assert Exceeded([t2, t3], x) == (if x < t2 then 1 else 0) + Exceeded([t3], x);
    assert Exceeded([t1, t2, t3], x) == (if x < t1 then 1 else 0) + Exceeded([t2, t3], x);
    assert Exceeded(ts, x) == (if x < t0 then 1 else 0) + Exceeded([t1, t2, t3], x);
  }

  /** Inclusive lower bounds, in dBm, of the first four distance categories. */
  const DistanceThresholds: seq<real> := [-50.0, -70.0, -80.0, -90.0]

  /** Inclusive lower bounds, on the progress scale, of the first four labels. */
  const LabelThresholds: seq<real> := [0.8, 0.6, 0.4, 0.2]

  /** The progress bounds expressed as integer RSSI values. */
  const LabelRssiThresholds: seq<real> := [-52.0, -64.0, -76.0, -88.0]

  /** getDistanceFromRSSI: the category is the number of thresholds the reading falls below. */
  function DistanceFromRssi(rssi: int): (d: Distance)
    ensures Farness(d) == Exceeded(DistanceThresholds, rssi as real)
  {
    ExceededFour(-50.0, -70.0, -80.0, -90.0, rssi as real);
    if rssi >= -50 then VeryClose
    else if rssi >= -70 then Close
    else if rssi >= -80 then Medium
    else if rssi >= -90 then Far
    else VeryFar
  }

  function Max(a: real, b: real): real { if a >= b then a else b }
  function Min(a: real, b: real): real { if a <= b then a else b }

  const MinRssi: int := -100
  const MaxRssi: int := -40

  /** getProgressFromRSSI: map [-100, -40] linearly onto [0, 1] and clamp. */
  function Progress(rssi: int): (p: real)
    ensures 0.0 <= p <= 1.0
    ensures rssi <= MinRssi ==> p == 0.0
    ensures rssi >= MaxRssi ==> p == 1.0
    ensures MinRssi <= rssi <= MaxRssi ==> p * 60.0 == (rssi + 100) as real
  {
    var progress := ((rssi - MinRssi) as real) / ((MaxRssi - MinRssi) as real);
    Max(0.0, Min(1.0, progress))
  }

  /** The label under the progress bar: the number of label bounds the progress falls below. */
  function ProgressLabel(p: real): (d: Distance)
    ensures Farness(d) == Exceeded(LabelThresholds, p)
  {
    ExceededFour(0.8, 0.6, 0.4, 0.2, p);
    if p >= 0.8 then VeryClose
    else if p >= 0.6 then Close
    else if p >= 0.4 then Medium
    else if p >= 0.2 then Far
    else VeryFar
  }

  /** The vibration condition of the rssi effect. */
  function ShouldVibrate(rssi: Option<int>): bool {
    rssi.Some? && Progress(rssi.value) <= 0.3
  }

  /**
   * The rssi effect runs when the reading changes between renders, and
   * vibrates when the new reading is far enough.
   */
  function VibratesOnRender(previous: Option<int>, current: Option<int>): (v: bool)
    ensures v <==> current != previous && current.Some? && current.value <= -82
  {
    VibrationThreshold(current);
    current != previous && ShouldVibrate(current)
  }

  /** More thresholds lie above a smaller value. */
  lemma {:induction false} ExceededAntitone(thresholds: seq<real>, x: real, y: real)
    requires x <= y
    ensures Exceeded(thresholds, y) <= Exceeded(thresholds, x)
    decreases |thresholds|
  {
    if thresholds != [] {
      ExceededAntitone(thresholds[1..], x, y);
    }
  }

  /** A stronger signal never gives a farther category. */
  lemma DistanceMonotone(a: int, b: int)
    requires a <= b
    ensures Farness(DistanceFromRssi(b)) <= Farness(DistanceFromRssi(a))
  {
    ExceededAntitone(DistanceThresholds, a as real, b as real);
  }

  /** The bounds are inclusive lower bounds. */
  lemma DistanceBoundaries()
    ensures DistanceFromRssi(-50) == VeryClose && DistanceFromRssi(-51) == Close
    ensures DistanceFromRssi(-70) == Close && DistanceFromRssi(-71) == Medium
    ensures DistanceFromRssi(-80) == Medium && DistanceFromRssi(-81) == Far
    ensures DistanceFromRssi(-90) == Far && DistanceFromRssi(-91) == VeryFar
  {
  }

  /** Progress never decreases as the signal gets stronger. */
  lemma ProgressMonotone(a: int, b: int)
    requires a <= b
    ensures Progress(a) <= Progress(b)
  {
  }

  /** A higher progress never gives a farther label. */
  lemma ProgressLabelMonotone(p: real, q: real)
    requires p <= q
    ensures Farness(ProgressLabel(q)) <= Farness(ProgressLabel(p))
  {
    ExceededAntitone(LabelThresholds, p, q);
  }

  /** The label shown for a reading, as a function of the integer RSSI. */
  lemma LabelRssiBounds(rssi: int)
    ensures Farness(ProgressLabel(Progress(rssi))) == Exceeded(LabelRssiThresholds, rssi as real)
  {
    var p := Progress(rssi);
    ExceededFour(-52.0, -64.0, -76.0, -88.0, rssi as real);
    ExceededFour(0.8, 0.6, 0.4, 0.2, p);
    if rssi < MinRssi || rssi > MaxRssi {
    } else {
      assert p * 60.0 == (rssi + 100) as real;
      assert p >= 0.8 <==> rssi >= -52;
      assert p >= 0.6 <==> rssi >= -64;
      assert p >= 0.4 <==> rssi >= -76;
      assert p >= 0.2 <==> rssi >= -88;
    }
  }

  /** The label under the bar never gets farther as the signal gets stronger. */
  lemma LabelMonotoneInRssi(a: int, b: int)
    requires a <= b
    ensures Farness(ProgressLabel(Progress(b))) <= Farness(ProgressLabel(Progress(a)))
  {
    ProgressMonotone(a, b);
    ProgressLabelMonotone(Progress(a), Progress(b));
  }

  /** The label and the category are computed separately and can disagree. */
  lemma LabelDisagreesWithDistance()
    ensures DistanceFromRssi(-51) == Close
    ensures ProgressLabel(Progress(-51)) == VeryClose
  {
    assert Progress(-51) * 60.0 == 49.0;
  }

  /** For an integer reading, vibration fires exactly at -82 dBm and below. */
  lemma VibrationThreshold(rssi: Option<int>)
    ensures ShouldVibrate(rssi) <==> rssi.Some? && rssi.value <= -82
  {
    if rssi.Some? && MinRssi <= rssi.value <= MaxRssi {
      assert Progress(rssi.value) * 60.0 == (rssi.value + 100) as real;
    }
  }
}
