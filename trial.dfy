/** One trial of an SMI experiment: its samples, the fixations the filter
    derives from them, and the history of manual offset corrections. */
module Trials {
  import opened Records
  import opened FixationFilter

  /** One manual correction, in pixels. */
  datatype Offset = Offset(dx: real, dy: real)

  /** The x components of a history, in order. */
  function XOffsets(history: seq<Offset>): seq<real> {
    seq(|history|, i requires 0 <= i < |history| => history[i].dx)
  }

  /** The y components of a history, in order. */
  function YOffsets(history: seq<Offset>): seq<real> {
    seq(|history|, i requires 0 <= i < |history| => history[i].dy)
  }

  /** The componentwise sum of an offset history (what get_offset folds):
      the sum of the x offsets and the sum of the y offsets. */
  function SumOffsets(history: seq<Offset>): (total: Offset)
    ensures total.dx == Sum(XOffsets(history)) && total.dy == Sum(YOffsets(history))
    decreases |history|
  {
    if history == [] then Offset(0.0, 0.0)
    else
      var n := |history| - 1;
      var total := SumOffsets(history[..n]);
      var last := history[n];
      assert XOffsets(history)[..n] == XOffsets(history[..n]);
      assert YOffsets(history)[..n] == YOffsets(history[..n]);
      Offset(total.dx + last.dx, total.dy + last.dy)
  }

  /** Summing a concatenated history adds the two totals. */
  lemma {:induction false} SumOffsetsAppend(h1: seq<Offset>, h2: seq<Offset>)
    ensures SumOffsets(h1 + h2) == Offset(SumOffsets(h1).dx + SumOffsets(h2).dx, SumOffsets(h1).dy + SumOffsets(h2).dy)
    decreases |h2|
  {
    if h2 == [] {
      assert h1 + h2 == h1;
    } else {
      var n := |h2| - 1;
      assert (h1 + h2)[..|h1 + h2| - 1] == h1 + h2[..n];
      SumOffsetsAppend(h1, h2[..n]);
    }
  }

  /** One sample moved by (dx, dy) when it is a valid right-eye gaze sample. */
  function ShiftSample(s: Sample, dx: real, dy: real): Sample {
    if IsEyeSample(s) then s.(x := s.x + dx, y := s.y + dy) else s
  }

  /** The whole trial data after sample_offset(dx, dy). */
  function Shifted(data: seq<Sample>, dx: real, dy: real): (r: seq<Sample>)
    ensures |r| == |data|
  {
    seq(|data|, i requires 0 <= i < |data| => ShiftSample(data[i], dx, dy))
  }

  /** Shifting twice is shifting once by the sum. */
  lemma ShiftedTwice(data: seq<Sample>, a: Offset, b: Offset)
    ensures Shifted(Shifted(data, a.dx, a.dy), b.dx, b.dy) == Shifted(data, a.dx + b.dx, a.dy + b.dy)
  {
  }

  /** The trial data after sample_offset was called once per history entry, in order. */
  function Replay(data: seq<Sample>, history: seq<Offset>): seq<Sample>
    decreases |history|
  {
    if history == [] then data
    else
      var last := history[|history| - 1];
      Shifted(Replay(data, history[..|history| - 1]), last.dx, last.dy)
  }

  /** Applying a history entry by entry moves every valid gaze sample by
      get_offset's total and leaves the others untouched. */
  lemma {:induction false} ReplayIsTotalShift(data: seq<Sample>, history: seq<Offset>)
    ensures Replay(data, history) == Shifted(data, SumOffsets(history).dx, SumOffsets(history).dy)
    decreases |history|
  {
    if history == [] {
      assert Shifted(data, 0.0, 0.0) == data;
    } else {
      var n := |history| - 1;
      ReplayIsTotalShift(data, history[..n]);
      ShiftedTwice(data, SumOffsets(history[..n]), history[n]);
    }
  }

  /** Undoing a replayed history, as reset_offset does, gives back the
      original samples. */
  lemma ResetRestoresSamples(data: seq<Sample>, history: seq<Offset>)
    ensures Shifted(Replay(data, history), -SumOffsets(history).dx, -SumOffsets(history).dy) == data
  {
    ReplayIsTotalShift(data, history);
    var t := SumOffsets(history);
    ShiftedTwice(data, t, Offset(-t.dx, -t.dy));
    assert Shifted(data, 0.0, 0.0) == data;
  }

  /** Trial and SMIRed250_Trial together: the SMI trial container. */
  class Trial {
    const trialId: int
    const participant: string
    const image: string
    var data: seq<Sample>
    var offsetHistory: seq<Offset>
    var fixations: seq<Fixation>

    constructor (trial: int, participant: string, data: seq<Sample>, image: string)
      ensures trialId == trial && this.participant == participant && this.image == image
      ensures this.data == data && offsetHistory == [] && fixations == []
    {
      this.trialId := trial;
      this.participant := participant;
      this.image := image;
      this.data := data;
      this.offsetHistory := [];
      this.fixations := [];
    }

    /** The total offset applied so far. */
    function GetOffset(): (total: Offset)
      reads this
      ensures total.dx == Sum(XOffsets(offsetHistory)) && total.dy == Sum(YOffsets(offsetHistory))
      ensures offsetHistory == [] ==> total == Offset(0.0, 0.0)
    {
      SumOffsets(offsetHistory)
    }

    /** The settings filter_fixations derives from its arguments and this trial. */
    function FilterSettings(minimumDuration: int, sampleDuration: int, maximumDispersion: real): Settings
      requires sampleDuration != 0
      reads this
    {
      Settings(trialId, participant, CeilDiv(minimumDuration, sampleDuration), maximumDispersion)
    }

    /** filter_fixations: replaces the fixation list with the one the
        dispersion filter derives from the trial data. The result depends on
        the data and the arguments only, so a second call gives the same list. */
    method FilterFixations(minimumDuration: int, sampleDuration: int, maximumDispersion: real)
      requires sampleDuration != 0
      requires FilterSettings(minimumDuration, sampleDuration, maximumDispersion).CanEmit()
      modifies this`fixations
      ensures fixations == Detect(data, FilterSettings(minimumDuration, sampleDuration, maximumDispersion))
    {
      ghost var cfg := FilterSettings(minimumDuration, sampleDuration, maximumDispersion);
      fixations := [];
      var windowSize := CeilDiv(minimumDuration, sampleDuration);
      var windowX: seq<real> := [];
      var windowY: seq<real> := [];
      for i := 0 to |data|
        invariant FilterState(windowX, windowY, fixations) == Run(data[..i], cfg)
      {
        RunStep(data, i, cfg);
        ghost var before := FilterState(windowX, windowY, fixations);
        var sample := data[i];
        if sample.tag != "SMP" || sample.rightEye == "-1" {
          continue;
        }
        var x, y := sample.x, sample.y;
        if x < 0.0 || y < 0.0 || x > 1920.0 || y > 1080.0 {
          continue;
        }
        assert Accepted(sample);
        windowX := windowX + [x];
        windowY := windowY + [y];
        var dispersion := (Max(windowX) - Min(windowX)) + (Max(windowY) - Min(windowY));
        if dispersion > maximumDispersion {
          assert Breaches(before, sample, cfg);
          windowX := windowX[..|windowX| - 1];
          windowY := windowY[..|windowY| - 1];
          assert windowX == before.windowX && windowY == before.windowY;
          if |windowX| == |windowY| && |windowX| > windowSize {
            assert windowX != [] by {
              if windowX == [] {
                SinglePointDispersion(x, y);
              }
            }
            fixations := fixations + [Fixation(trialId, participant, sample.timestamp, |windowX| * 4,
                                               Mean(windowX), Mean(windowY), "na")];
            assert fixations == before.fixations + [WindowFixation(before, sample, cfg)];
          }
          windowX := [];
          windowY := [];
        } else {
          assert !Breaches(before, sample, cfg);
        }
      }
      assert data[..|data|] == data;
    }

    /** sample_offset: records (dx, dy) in the history and moves every valid
        right-eye gaze sample by it; every other sample is left as it was. */
    method SampleOffset(dx: real, dy: real)
      modifies this
      ensures offsetHistory == old(offsetHistory) + [Offset(dx, dy)]
      ensures GetOffset() == Offset(old(GetOffset()).dx + dx, old(GetOffset()).dy + dy)
      ensures data == Shifted(old(data), dx, dy)
      ensures fixations == old(fixations)
    {
      offsetHistory := offsetHistory + [Offset(dx, dy)];
      assert offsetHistory[..|offsetHistory| - 1] == old(offsetHistory);
      var i := 0;
      while i < |data|
        invariant 0 <= i <= |data| == |old(data)|
        invariant forall k :: 0 <= k < i ==> data[k] == ShiftSample(old(data)[k], dx, dy)
        invariant forall k :: i <= k < |data| ==> data[k] == old(data)[k]
        invariant offsetHistory == old(offsetHistory) + [Offset(dx, dy)]
        invariant fixations == old(fixations)
      {
        var sample := data[i];
        assert sample == old(data)[i];
        if sample.tag != "SMP" || sample.rightEye == "-1" {
          i := i + 1;
          continue;
        }
        data := data[i := sample.(x := sample.x + dx, y := sample.y + dy)];
        i := i + 1;
      }
    }

    /** reset_offset: undoes every recorded offset at once by applying the
        negated total through sample_offset. The history is not emptied: it
        ends up holding that one negated entry, so get_offset afterwards
        reports the negated total rather than zero. */
    method ResetOffset()
      modifies this
      ensures offsetHistory == [Offset(-old(GetOffset()).dx, -old(GetOffset()).dy)]
      ensures GetOffset() == Offset(-old(GetOffset()).dx, -old(GetOffset()).dy)
      ensures data == Shifted(old(data), -old(GetOffset()).dx, -old(GetOffset()).dy)
      ensures fixations == old(fixations)
    {
      var xTotal, yTotal := 0.0, 0.0;
      for i := 0 to |offsetHistory|
        invariant xTotal == -SumOffsets(offsetHistory[..i]).dx
        invariant yTotal == -SumOffsets(offsetHistory[..i]).dy
      {
        assert offsetHistory[..i + 1][..i] == offsetHistory[..i];
        xTotal := xTotal + offsetHistory[i].dx * -1.0;
        yTotal := yTotal + offsetHistory[i].dy * -1.0;
      }
      assert offsetHistory[..|offsetHistory|] == offsetHistory;
      offsetHistory := [];
      SampleOffset(xTotal, yTotal);
    }
  }

  /** Because reset_offset leaves the negated total in the history, a second
      reset applies the original total again: the samples return to where
      they were before the first reset and the history holds the old total. */
  method ResetTwice(t: Trial)
    modifies t
    ensures t.data == old(t.data)
    ensures t.offsetHistory == [old(t.GetOffset())]
  {
    ghost var total := t.GetOffset();
    t.ResetOffset();
    t.ResetOffset();
    ShiftedTwice(old(t.data), Offset(-total.dx, -total.dy), total);
    assert Shifted(old(t.data), 0.0, 0.0) == old(t.data);
  }

  /** filter_fixations clears the list before filling it, so calling it a
      second time with the same arguments leaves the same list. */
  method FilterTwice(t: Trial, minimumDuration: int, sampleDuration: int, maximumDispersion: real)
    returns (first: seq<Fixation>)
    requires sampleDuration != 0
    requires t.FilterSettings(minimumDuration, sampleDuration, maximumDispersion).CanEmit()
    modifies t`fixations
    ensures t.fixations == first
  {
    t.FilterFixations(minimumDuration, sampleDuration, maximumDispersion);
    first := t.fixations;
    t.FilterFixations(minimumDuration, sampleDuration, maximumDispersion);
  }
}
