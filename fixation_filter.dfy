/** The dispersion fixation filter of SMIRed250_Trial.filter_fixations, as a
    specification: a left fold of one step per sample over the trial data.
    Trial.FilterFixations (trial.dfy) is the imperative loop and is proved
    to compute Detect. */
module FixationFilter {
  import opened Records

  /** Python's int(math.ceil(a / b)) on integers: the least q with q * b >= a
      when b is positive, and the least q with q * b <= a when b is negative. */
  function CeilDiv(a: int, b: int): (q: int)
    requires b != 0
    ensures b > 0 ==> (q - 1) * b < a <= q * b
    ensures b < 0 ==> q * b <= a < (q - 1) * b
  {
    if b > 0 then
      var f := (-a) / b;
      assert -a == f * b + (-a) % b;
      assert (-f - 1) * b == -(f * b) - b;
      -f
    else
      var f := a / (-b);
      assert a == f * (-b) + a % (-b);
      assert (-f - 1) * b == f * (-b) + (-b);
      -f
  }

  /** What the filter reads besides the samples: the trial and participant it
      stamps on each fixation, the window size ceil(min_duration / sample_duration)
      and the dispersion threshold. */
  datatype Settings = Settings(trial: int, participant: string, windowSize: int, maxDispersion: real)
  {
    /** A popped window that is emitted is never empty, so the mean is defined:
        either the window must be longer than a non-negative size, or a single
        point (dispersion 0) never breaches. */
    predicate CanEmit() {
      maxDispersion >= 0.0 || windowSize >= 0
    }
  }

  /** The loop state: the open window (window_x, window_y) and the fixations so far. */
  datatype FilterState = FilterState(windowX: seq<real>, windowY: seq<real>, fixations: seq<Fixation>)

  const Initial := FilterState([], [], [])

  /** A sample that enters the window: a valid right-eye gaze sample on screen. */
  predicate Accepted(s: Sample) {
    IsEyeSample(s) && OnScreen(s.x, s.y)
  }

  /** Appending s to the window pushes its dispersion over the threshold. */
  predicate Breaches(st: FilterState, s: Sample, cfg: Settings) {
    Dispersion(st.windowX + [s.x], st.windowY + [s.y]) > cfg.maxDispersion
  }

  /** Step s emits a fixation from the window st holds. */
  predicate Emits(st: FilterState, s: Sample, cfg: Settings) {
    Accepted(s) && Breaches(st, s, cfg) && |st.windowX| == |st.windowY| && |st.windowX| > cfg.windowSize
  }

  /** The fixation built from a popped window when sample s breached it:
      s's timestamp, four time units per sample, the centroid, token "na". */
  function WindowFixation(st: FilterState, s: Sample, cfg: Settings): (f: Fixation)
    requires |st.windowX| > 0 && |st.windowY| > 0
    ensures f.trial == cfg.trial && f.participant == cfg.participant && f.token == "na"
    ensures f.timestamp == s.timestamp && f.duration == 4 * |st.windowX| > 0
    ensures (forall k :: 0 <= k < |st.windowX| ==> 0.0 <= st.windowX[k] <= ScreenWidth) ==> 0.0 <= f.x <= ScreenWidth
    ensures (forall k :: 0 <= k < |st.windowY| ==> 0.0 <= st.windowY[k] <= ScreenHeight) ==> 0.0 <= f.y <= ScreenHeight
  {
    assert (forall k :: 0 <= k < |st.windowX| ==> 0.0 <= st.windowX[k] <= ScreenWidth) ==>
        0.0 <= Mean(st.windowX) <= ScreenWidth by {
      if forall k :: 0 <= k < |st.windowX| ==> 0.0 <= st.windowX[k] <= ScreenWidth {
        MeanBounds(st.windowX, 0.0, ScreenWidth);
      }
    }
    assert (forall k :: 0 <= k < |st.windowY| ==> 0.0 <= st.windowY[k] <= ScreenHeight) ==>
        0.0 <= Mean(st.windowY) <= ScreenHeight by {
      if forall k :: 0 <= k < |st.windowY| ==> 0.0 <= st.windowY[k] <= ScreenHeight {
        MeanBounds(st.windowY, 0.0, ScreenHeight);
      }
    }
    Fixation(cfg.trial, cfg.participant, s.timestamp, |st.windowX| * 4, Mean(st.windowX), Mean(st.windowY), "na")
  }

  /** One iteration of the loop over the trial data. */
  function Step(st: FilterState, s: Sample, cfg: Settings): (next: FilterState)
    requires |st.windowX| == |st.windowY| && cfg.CanEmit()
    ensures |next.windowX| == |next.windowY|
    ensures next.fixations == st.fixations || (Emits(st, s, cfg) && |next.fixations| == |st.fixations| + 1)
    ensures st.fixations <= next.fixations
    ensures |next.fixations| > |st.fixations| ==> next.fixations[|st.fixations|].timestamp == s.timestamp
  {
    if !Accepted(s) then st
    else if !Breaches(st, s, cfg) then FilterState(st.windowX + [s.x], st.windowY + [s.y], st.fixations)
    else if |st.windowX| > cfg.windowSize then
      assert st.windowX != [] by {
        if st.windowX == [] {
          SinglePointDispersion(s.x, s.y);
        }
      }
      FilterState([], [], st.fixations + [WindowFixation(st, s, cfg)])
    else FilterState([], [], st.fixations)
  }

  /** The state after the loop has processed every sample of `samples`. */
  function Run(samples: seq<Sample>, cfg: Settings): (st: FilterState)
    requires cfg.CanEmit()
    ensures |st.windowX| == |st.windowY|
    ensures |st.fixations| <= |samples|
    decreases |samples|
  {
    if samples == [] then Initial
    else Step(Run(samples[..|samples| - 1], cfg), samples[|samples| - 1], cfg)
  }

  /** The loop state after sample i is one Step from the state before it. */
  lemma RunStep(samples: seq<Sample>, i: nat, cfg: Settings)
    requires cfg.CanEmit() && i < |samples|
    ensures Run(samples[..i + 1], cfg) == Step(Run(samples[..i], cfg), samples[i], cfg)
  {
    assert samples[..i + 1][..i] == samples[..i];
  }

  /** The fixation list filter_fixations leaves behind. */
  function Detect(samples: seq<Sample>, cfg: Settings): (fs: seq<Fixation>)
    requires cfg.CanEmit()
    ensures |fs| <= |Kept(samples)|
  {
    RejectedSamplesIgnored(samples, cfg);
    Run(samples, cfg).fixations
  }

  /** The samples that enter the window, in stream order. */
  function Kept(samples: seq<Sample>): (r: seq<Sample>)
    ensures forall k :: 0 <= k < |r| ==> Accepted(r[k])
    decreases |samples|
  {
    if samples == [] then []
    else
      var n := |samples| - 1;
      Kept(samples[..n]) + (if Accepted(samples[n]) then [samples[n]] else [])
  }

  /** The rule that decides each step: a fixation is appended exactly when an
      accepted sample breaches a window longer than the window size; the new
      fixation is stamped with that sample and the window is cleared, so the
      breaching sample does not seed the next window. */
  lemma EmissionRule(samples: seq<Sample>, s: Sample, cfg: Settings)
    requires cfg.CanEmit()
    ensures var st := Run(samples, cfg);
      Detect(samples + [s], cfg) ==
        if Emits(st, s, cfg) then Detect(samples, cfg) + [WindowFixation(st, s, cfg)]
        else Detect(samples, cfg)
    ensures Accepted(s) && Breaches(Run(samples, cfg), s, cfg) ==> Run(samples + [s], cfg).windowX == []
    ensures !Accepted(s) ==> Run(samples + [s], cfg) == Run(samples, cfg)
  {
    assert (samples + [s])[..|samples|] == samples;
    var st := Run(samples, cfg);
    if Emits(st, s, cfg) {
      assert st.windowX != [] by {
        if st.windowX == [] {
          SinglePointDispersion(s.x, s.y);
        }
      }
    }
  }

  /** After every prefix the open window is on screen and, when non-empty, its
      dispersion is within the threshold. */
  ghost predicate Tight(st: FilterState, cfg: Settings) {
    |st.windowX| == |st.windowY|
    && (forall k :: 0 <= k < |st.windowX| ==> OnScreen(st.windowX[k], st.windowY[k]))
    && (|st.windowX| > 0 ==> Dispersion(st.windowX, st.windowY) <= cfg.maxDispersion)
  }

  lemma {:induction false} WindowStaysTight(samples: seq<Sample>, cfg: Settings)
    requires cfg.CanEmit()
    ensures Tight(Run(samples, cfg), cfg)
    decreases |samples|
  {
    if samples != [] {
      var n := |samples| - 1;
      WindowStaysTight(samples[..n], cfg);
    }
  }

  /** The timestamps of the samples that enter the window. */
  ghost function AcceptedTimestamps(samples: seq<Sample>): set<int> {
    set k | 0 <= k < |samples| && Accepted(samples[k]) :: samples[k].timestamp
  }

  /** What every emitted fixation looks like. */
  ghost predicate WellFormedFixation(f: Fixation, samples: seq<Sample>, cfg: Settings) {
    && f.trial == cfg.trial
    && f.participant == cfg.participant
    && f.token == "na"
    && f.duration % 4 == 0
    && f.duration >= 4
    && f.duration / 4 > cfg.windowSize
    && OnScreen(f.x, f.y)
    && f.timestamp in AcceptedTimestamps(samples)
  }

  /** A fixation well formed for a stream stays so for any longer stream. */
  lemma WellFormedExtends(f: Fixation, prefix: seq<Sample>, samples: seq<Sample>, cfg: Settings)
    requires prefix <= samples
    requires WellFormedFixation(f, prefix, cfg)
    ensures WellFormedFixation(f, samples, cfg)
  {
    var k :| 0 <= k < |prefix| && Accepted(prefix[k]) && prefix[k].timestamp == f.timestamp;
    assert samples[k] == prefix[k];
  }

  /** The fixation a breaching sample emits is well formed. */
  lemma EmittedWellFormed(prefix: seq<Sample>, s: Sample, cfg: Settings)
    requires cfg.CanEmit()
    requires Emits(Run(prefix, cfg), s, cfg)
    ensures Run(prefix, cfg).windowX != []
    ensures WellFormedFixation(WindowFixation(Run(prefix, cfg), s, cfg), prefix + [s], cfg)
  {
    var st := Run(prefix, cfg);
    assert st.windowX != [] by {
      if st.windowX == [] {
        SinglePointDispersion(s.x, s.y);
      }
    }
    WindowStaysTight(prefix, cfg);
    MeanBounds(st.windowX, 0.0, ScreenWidth);
    MeanBounds(st.windowY, 0.0, ScreenHeight);
    assert (prefix + [s])[|prefix|] == s;
  }

  /** Every fixation has a positive duration that is a multiple of 4 and
      covers more samples than the window size, a centroid on screen, token
      "na", and the timestamp of an accepted sample of the stream. */
  lemma {:induction false} FixationsWellFormed(samples: seq<Sample>, cfg: Settings)
    requires cfg.CanEmit()
    ensures forall f :: f in Detect(samples, cfg) ==> WellFormedFixation(f, samples, cfg)
    decreases |samples|
  {
    if samples != [] {
      var n := |samples| - 1;
      var prefix, s := samples[..n], samples[n];
      assert samples == prefix + [s];
      FixationsWellFormed(prefix, cfg);
      EmissionRule(prefix, s, cfg);
      forall f | f in Detect(prefix, cfg) ensures WellFormedFixation(f, samples, cfg) {
        WellFormedExtends(f, prefix, samples, cfg);
      }
      if Emits(Run(prefix, cfg), s, cfg) {
        EmittedWellFormed(prefix, s, cfg);
      }
    }
  }

  /** Samples that do not enter the window change nothing: the whole loop
      state on a stream equals the state on its accepted samples alone. */
  lemma {:induction false} RejectedSamplesIgnored(samples: seq<Sample>, cfg: Settings)
    requires cfg.CanEmit()
    ensures Run(Kept(samples), cfg) == Run(samples, cfg)
    decreases |samples|
  {
    if samples != [] {
      var n := |samples| - 1;
      var prefix := samples[..n];
      var s := samples[n];
      RejectedSamplesIgnored(prefix, cfg);
      var kept := Kept(prefix);
      assert samples[..n] == prefix;
      if Accepted(s) {
        assert Kept(samples) == kept + [s];
        assert (kept + [s])[..|kept|] == kept;
        calc {
          Run(Kept(samples), cfg);
          Step(Run(kept, cfg), s, cfg);
          Step(Run(prefix, cfg), s, cfg);
        }
      } else {
        assert Kept(samples) == kept;
        assert Run(samples, cfg) == Run(prefix, cfg);
      }
    }
  }

  lemma {:induction false} KeptAppend(a: seq<Sample>, b: seq<Sample>)
    ensures Kept(a + b) == Kept(a) + Kept(b)
    decreases |b|
  {
    if b == [] {
      assert a + b == a;
    } else {
      var n := |b| - 1;
      assert (a + b)[..|a + b| - 1] == a + b[..n];
      KeptAppend(a, b[..n]);
    }
  }

  /** Removing one sample that is not a valid on-screen gaze sample from
      anywhere in the stream leaves the fixation list unchanged. */
  lemma DropRejectedSample(before: seq<Sample>, s: Sample, after: seq<Sample>, cfg: Settings)
    requires cfg.CanEmit()
    requires !Accepted(s)
    ensures Detect(before + [s] + after, cfg) == Detect(before + after, cfg)
  {
    var none: seq<Sample> := [];
    assert Kept([s]) == none by {
      assert [s][..0] == none;
    }
    calc {
      Kept(before + [s] + after);
      { KeptAppend(before + [s], after); }
      Kept(before + [s]) + Kept(after);
      { KeptAppend(before, [s]); }
      Kept(before) + Kept(after);
      { KeptAppend(before, after); }
      Kept(before + after);
    }
    RejectedSamplesIgnored(before + [s] + after, cfg);
    RejectedSamplesIgnored(before + after, cfg);
  }

  /** Fixations are only ever appended: the list for a stream is a prefix of
      the list for any extension of it, so a window still open when the stream
      ends contributes nothing. */
  lemma {:induction false} OutputOnlyGrows(samples: seq<Sample>, more: seq<Sample>, cfg: Settings)
    requires cfg.CanEmit()
    ensures Detect(samples, cfg) <= Detect(samples + more, cfg)
    decreases |more|
  {
    if more == [] {
      assert samples + more == samples;
    } else {
      var n := |more| - 1;
      assert (samples + more)[..|samples + more| - 1] == samples + more[..n];
      OutputOnlyGrows(samples, more[..n], cfg);
    }
  }

  /** An empty stream yields no fixation. */
  lemma EmptyStream(cfg: Settings)
    requires cfg.CanEmit()
    ensures Detect([], cfg) == []
  {
  }

  /** The four samples of the worked stream below. */
  const WorkedConfig := Settings(1, "p", 1, 25.0)
  const SampleA := Sample(0, "SMP", "0", 100.0, 100.0)
  const SampleB := Sample(4, "SMP", "0", 102.0, 100.0)
  const SampleC := Sample(8, "SMP", "0", 400.0, 100.0)
  const SampleD := Sample(12, "SMP", "0", 400.0, 100.0)

  lemma WorkedFirstTwo()
    ensures Run([SampleA, SampleB], WorkedConfig) == FilterState([100.0, 102.0], [100.0, 100.0], [])
  {
    var none: seq<Sample> := [];
    assert [SampleA][..0] == none;
    assert Run([SampleA], WorkedConfig) == FilterState([100.0], [100.0], []);
    assert [SampleA, SampleB][..1] == [SampleA];
    assert [100.0, 102.0][1..] == [102.0];
    assert [100.0, 100.0][1..] == [100.0];
    assert Dispersion([100.0, 102.0], [100.0, 100.0]) == 2.0;
  }

  lemma WorkedBreachDispersion()
    ensures Dispersion([100.0, 102.0, 400.0], [100.0, 100.0, 100.0]) == 300.0
  {
    assert [100.0, 102.0, 400.0][1..] == [102.0, 400.0];
    assert [102.0, 400.0][1..] == [400.0];
    assert [100.0, 100.0, 100.0][1..] == [100.0, 100.0];
    assert [100.0, 100.0][1..] == [100.0];
  }

  lemma WorkedCentroid()
    ensures Mean([100.0, 102.0]) == 101.0 && Mean([100.0, 100.0]) == 100.0
  {
    assert [100.0, 102.0][..1] == [100.0];
    assert [100.0, 100.0][..1] == [100.0];
    assert [100.0][..0] == [];
  }

  lemma WorkedBreach()
    ensures Run([SampleA, SampleB, SampleC], WorkedConfig)
      == FilterState([], [], [Fixation(1, "p", 8, 8, 101.0, 100.0, "na")])
  {
    WorkedFirstTwo();
    WorkedBreachDispersion();
    WorkedCentroid();
    var st := Run([SampleA, SampleB], WorkedConfig);
    assert [SampleA, SampleB, SampleC][..2] == [SampleA, SampleB];
    assert st.windowX + [SampleC.x] == [100.0, 102.0, 400.0];
    assert st.windowY + [SampleC.y] == [100.0, 100.0, 100.0];
    assert Emits(st, SampleC, WorkedConfig);
  }

  /** A worked stream with window size 1 and threshold 25: two samples at x = 100
      and x = 102, then a breaching sample at x = 400 (t = 8), then another at
      x = 400 (t = 12). One fixation: stamped 8, the breaching sample's time,
      duration 8, centroid (101, 100); the breaching sample is dropped, so the
      open window holds only the last sample. */
  lemma BreachingSampleStampsAndIsDropped()
    ensures Detect([SampleA, SampleB, SampleC, SampleD], WorkedConfig) == [Fixation(1, "p", 8, 8, 101.0, 100.0, "na")]
    ensures Run([SampleA, SampleB, SampleC, SampleD], WorkedConfig).windowX == [400.0]
  {
    WorkedBreach();
    assert [SampleA, SampleB, SampleC, SampleD][..3] == [SampleA, SampleB, SampleC];
  }
}
