/** Records shared by the fixation filter, the trial container and the hit test:
    one raw SMI sample, one fixation, and the arithmetic the filter applies to a
    window of coordinates (Python's max, min and statistics.mean). */
module Records {

  /** The viewport the filter accepts: a 1920 x 1080 pixel screen. */
  const ScreenWidth: real := 1920.0
  const ScreenHeight: real := 1080.0

  /** One row of SMI trial data. Only the columns the core reads are kept:
      column 0 (timestamp), column 1 (record tag, "SMP" for a gaze sample),
      column 27 (right-eye code, "-1" when invalid) and columns 23/24
      (right-eye point of regard in pixels, already parsed as numbers). */
  datatype Sample = Sample(timestamp: int, tag: string, rightEye: string, x: real, y: real)

  /** A fixation: trial, participant, timestamp, duration, centroid and token. */
  datatype Fixation = Fixation(
    trial: int,
    participant: string,
    timestamp: int,
    duration: int,
    x: real,
    y: real,
    token: string)

  /** A gaze sample of a valid right eye: the only rows the filter and the
      offset correction look at. */
  predicate IsEyeSample(s: Sample) {
    s.tag == "SMP" && s.rightEye != "-1"
  }

  /** Inside the screen, both edges inclusive. */
  predicate OnScreen(x: real, y: real) {
    0.0 <= x <= ScreenWidth && 0.0 <= y <= ScreenHeight
  }

  function Sum(xs: seq<real>): real
    decreases |xs|
  {
    if xs == [] then 0.0 else Sum(xs[..|xs| - 1]) + xs[|xs| - 1]
  }

  /** statistics.mean, on exact reals. */
  function Mean(xs: seq<real>): real
    requires |xs| > 0
  {
    Sum(xs) / |xs| as real
  }

  function Max(xs: seq<real>): real
    requires |xs| > 0
  {
    if |xs| == 1 then xs[0]
    else
      var rest := Max(xs[1..]);
      if xs[0] >= rest then xs[0] else rest
  }

  function Min(xs: seq<real>): real
    requires |xs| > 0
  {
    if |xs| == 1 then xs[0]
    else
      var rest := Min(xs[1..]);
      if xs[0] <= rest then xs[0] else rest
  }

  /** (max x - min x) + (max y - min y) over a window. */
  function Dispersion(xs: seq<real>, ys: seq<real>): real
    requires |xs| > 0 && |ys| > 0
  {
    (Max(xs) - Min(xs)) + (Max(ys) - Min(ys))
  }

  /** A window of one point has no spread. */
  lemma SinglePointDispersion(x: real, y: real)
    ensures Dispersion([x], [y]) == 0.0
  {
  }

  /** Bounds on every element bound the sum. */
  lemma {:induction false} SumBounds(xs: seq<real>, lo: real, hi: real)
    requires forall k :: 0 <= k < |xs| ==> lo <= xs[k] <= hi
    ensures lo * |xs| as real <= Sum(xs) <= hi * |xs| as real
    decreases |xs|
  {
    if xs != [] {
      var n := |xs| - 1;
      SumBounds(xs[..n], lo, hi);
      assert lo * (n + 1) as real == lo * n as real + lo;
      assert hi * (n + 1) as real == hi * n as real + hi;
    }
  }

  /** The mean lies between any common lower and upper bound of the window. */
  lemma MeanBounds(xs: seq<real>, lo: real, hi: real)
    requires |xs| > 0
    requires forall k :: 0 <= k < |xs| ==> lo <= xs[k] <= hi
    ensures lo <= Mean(xs) <= hi
  {
    SumBounds(xs, lo, hi);
    var n := |xs| as real;
    assert Mean(xs) * n == Sum(xs);
  }
}
