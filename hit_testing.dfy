/** overlap and hit_test: the cross join of a trial's fixations with the
    token AOIs of its code image, filtered by a box test around each AOI. */
module HitTesting {
  import opened Records
  import opened AoiExtraction
  import opened Trials

  /** One row of the AOI table after tokens and srcML tags were attached. */
  datatype TokenRow = TokenRow(aoi: Aoi, token: string, srcmlTag: string)

  /** One row of hit_test's result. */
  datatype GazeRecord = GazeRecord(
    trial: int,
    participant: string,
    codeFile: string,
    codeLanguage: string,
    timestamp: int,
    duration: int,
    x: real,
    y: real,
    aoiX: real,
    aoiY: real,
    aoiWidth: real,
    aoiHeight: real,
    token: string,
    length: nat,
    srcml: string)

  /** overlap: the AOI box moved up and left by radius / 2 and grown by
      radius / 2, edges inclusive. The two shifts cancel on the right and the
      bottom, so only the left and top edges are widened. */
  function Overlap(fix: Fixation, row: TokenRow, radius: real): (hit: bool)
    ensures hit <==>
      && row.aoi.x - radius / 2.0 <= fix.x <= row.aoi.x + row.aoi.width
      && row.aoi.y - radius / 2.0 <= fix.y <= row.aoi.y + row.aoi.height
  {
    var boxX := row.aoi.x - radius / 2.0;
    var boxY := row.aoi.y - radius / 2.0;
    var boxW := row.aoi.width + radius / 2.0;
    var boxH := row.aoi.height + radius / 2.0;
    fix.x >= boxX && fix.x <= boxX + boxW && fix.y >= boxY && fix.y <= boxY + boxH
  }

  /** The record for a fixation that hits a row: code_file and code_language
      both take the image name, length is the token's length. */
  function Record(fix: Fixation, row: TokenRow): (r: GazeRecord)
    ensures r.codeFile == r.codeLanguage == row.aoi.image
    ensures r.length == |row.token|
  {
    GazeRecord(fix.trial, fix.participant, row.aoi.image, row.aoi.image, fix.timestamp, fix.duration,
               fix.x, fix.y, row.aoi.x, row.aoi.y, row.aoi.width, row.aoi.height,
               row.token, |row.token|, row.srcmlTag)
  }

  /** The records of one fixation against the rows, in row order. */
  function HitsOf(fix: Fixation, rows: seq<TokenRow>, radius: real): (r: seq<GazeRecord>)
    ensures |r| <= |rows|
    ensures forall k :: 0 <= k < |r| ==>
      r[k].trial == fix.trial && r[k].participant == fix.participant && r[k].timestamp == fix.timestamp
      && r[k].duration == fix.duration && r[k].x == fix.x && r[k].y == fix.y
    decreases |rows|
  {
    if rows == [] then []
    else
      var n := |rows| - 1;
      HitsOf(fix, rows[..n], radius) + (if Overlap(fix, rows[n], radius) then [Record(fix, rows[n])] else [])
  }

  /** The records of all fixations, fixation by fixation. */
  function HitRecords(fixations: seq<Fixation>, rows: seq<TokenRow>, radius: real): (r: seq<GazeRecord>)
    ensures |r| <= |fixations| * |rows|
    decreases |fixations|
  {
    if fixations == [] then []
    else
      var n := |fixations| - 1;
      assert |fixations| * |rows| == n * |rows| + |rows|;
      HitRecords(fixations[..n], rows, radius) + HitsOf(fixations[n], rows, radius)
  }

  /** The (fixation, row) index pairs of fixation i that pass the test, in row order. */
  function PairsOf(i: nat, fix: Fixation, rows: seq<TokenRow>, radius: real): seq<(nat, nat)>
    decreases |rows|
  {
    if rows == [] then []
    else
      var n := |rows| - 1;
      PairsOf(i, fix, rows[..n], radius) + (if Overlap(fix, rows[n], radius) then [(i, n)] else [])
  }

  /** Every (fixation, row) index pair that passes the test, fixation-major. */
  function HitPairs(fixations: seq<Fixation>, rows: seq<TokenRow>, radius: real): seq<(nat, nat)>
    decreases |fixations|
  {
    if fixations == [] then []
    else
      var n := |fixations| - 1;
      HitPairs(fixations[..n], rows, radius) + PairsOf(n, fixations[n], rows, radius)
  }

  /** Pair p comes strictly before pair q in fixation-major, then row, order. */
  predicate Before(p: (nat, nat), q: (nat, nat)) {
    p.0 < q.0 || (p.0 == q.0 && p.1 < q.1)
  }

  /** Every pair of ps names a fixation and a row that passes overlap. */
  predicate PairsHit(ps: seq<(nat, nat)>, fixations: seq<Fixation>, rows: seq<TokenRow>, radius: real) {
    forall k :: 0 <= k < |ps| ==>
      ps[k].0 < |fixations| && ps[k].1 < |rows| && Overlap(fixations[ps[k].0], rows[ps[k].1], radius)
  }

  /** Pairs in fixation-major, then row, order: none is repeated. */
  predicate InPairOrder(ps: seq<(nat, nat)>) {
    forall k, l :: 0 <= k < l < |ps| ==> Before(ps[k], ps[l])
  }

  /** Every pair of ps names fixation i and a row that fixation hits. */
  predicate PairsOfFixation(ps: seq<(nat, nat)>, i: nat, fix: Fixation, rows: seq<TokenRow>, radius: real) {
    forall k :: 0 <= k < |ps| ==> ps[k].0 == i && ps[k].1 < |rows| && Overlap(fix, rows[ps[k].1], radius)
  }

  /** The row indices of ps increase. */
  predicate RowsIncrease(ps: seq<(nat, nat)>) {
    forall k, l :: 0 <= k < l < |ps| ==> ps[k].1 < ps[l].1
  }

  /** The pairs of one fixation: each names that fixation and a row it hits,
      every hit row is named, and row indices increase. */
  lemma {:induction false} PairsOfSpec(i: nat, fix: Fixation, rows: seq<TokenRow>, radius: real)
    ensures PairsOfFixation(PairsOf(i, fix, rows, radius), i, fix, rows, radius)
    ensures forall j :: 0 <= j < |rows| && Overlap(fix, rows[j], radius) ==> (i, j) in PairsOf(i, fix, rows, radius)
    ensures RowsIncrease(PairsOf(i, fix, rows, radius))
    decreases |rows|
  {
    if rows != [] {
      var n := |rows| - 1;
      var prefix := rows[..n];
      PairsOfSpec(i, fix, prefix, radius);
      var before := PairsOf(i, fix, prefix, radius);
      var ps := PairsOf(i, fix, rows, radius);
      assert ps == before + (if Overlap(fix, rows[n], radius) then [(i, n)] else []);
      forall k | 0 <= k < |ps|
        ensures ps[k].0 == i && ps[k].1 < |rows| && Overlap(fix, rows[ps[k].1], radius)
      {
        if k < |before| {
          assert ps[k] == before[k];
          assert rows[ps[k].1] == prefix[ps[k].1];
        }
      }
      forall j | 0 <= j < |rows| && Overlap(fix, rows[j], radius)
        ensures (i, j) in ps
      {
        if j < n {
          assert rows[j] == prefix[j];
          assert (i, j) in before;
        }
      }
      forall k, l | 0 <= k < l < |ps|
        ensures ps[k].1 < ps[l].1
      {
        assert ps[k] == before[k];
        if l < |before| {
          assert ps[l] == before[l];
        }
      }
    }
  }

  /** The records of one fixation are its pairs' records. */
  lemma {:induction false} HitsOfArePairs(i: nat, fix: Fixation, rows: seq<TokenRow>, radius: real)
    ensures var ps := PairsOf(i, fix, rows, radius);
      |HitsOf(fix, rows, radius)| == |ps| &&
      forall k :: 0 <= k < |ps| ==> ps[k].1 < |rows| && HitsOf(fix, rows, radius)[k] == Record(fix, rows[ps[k].1])
    decreases |rows|
  {
    if rows != [] {
      var n := |rows| - 1;
      var prefix := rows[..n];
      HitsOfArePairs(i, fix, prefix, radius);
      assert forall j :: 0 <= j < n ==> rows[j] == prefix[j];
    }
  }

  /** Every pair names a fixation and a row that passes overlap. */
  lemma {:induction false} HitPairsSound(fixations: seq<Fixation>, rows: seq<TokenRow>, radius: real)
    ensures PairsHit(HitPairs(fixations, rows, radius), fixations, rows, radius)
    decreases |fixations|
  {
    if fixations != [] {
      var n := |fixations| - 1;
      var prefix := fixations[..n];
      HitPairsSound(prefix, rows, radius);
      PairsOfSpec(n, fixations[n], rows, radius);
      var before := HitPairs(prefix, rows, radius);
      var last := PairsOf(n, fixations[n], rows, radius);
      var ps := before + last;
      forall k | 0 <= k < |ps|
        ensures ps[k].0 < |fixations| && ps[k].1 < |rows| && Overlap(fixations[ps[k].0], rows[ps[k].1], radius)
      {
        if k < |before| {
          assert ps[k] == before[k];
          assert fixations[ps[k].0] == prefix[ps[k].0];
        } else {
          assert ps[k] == last[k - |before|];
        }
      }
    }
  }

  /** Every passing pair is named. */
  lemma {:induction false} HitPairsComplete(fixations: seq<Fixation>, rows: seq<TokenRow>, radius: real)
    ensures forall i, j :: 0 <= i < |fixations| && 0 <= j < |rows| && Overlap(fixations[i], rows[j], radius) ==>
      (i, j) in HitPairs(fixations, rows, radius)
    decreases |fixations|
  {
    if fixations != [] {
      var n := |fixations| - 1;
      var prefix := fixations[..n];
      HitPairsComplete(prefix, rows, radius);
      PairsOfSpec(n, fixations[n], rows, radius);
      var before := HitPairs(prefix, rows, radius);
      var last := PairsOf(n, fixations[n], rows, radius);
      assert HitPairs(fixations, rows, radius) == before + last;
      forall i, j | 0 <= i < |fixations| && 0 <= j < |rows| && Overlap(fixations[i], rows[j], radius)
        ensures (i, j) in before + last
      {
        if i < n {
          assert prefix[i] == fixations[i];
          assert (i, j) in before;
        } else {
          assert (i, j) in last;
        }
      }
    }
  }

  /** Pairs come in fixation-major, then row, order, so none is repeated. */
  lemma {:induction false} HitPairsOrdered(fixations: seq<Fixation>, rows: seq<TokenRow>, radius: real)
    ensures InPairOrder(HitPairs(fixations, rows, radius))
    decreases |fixations|
  {
    if fixations != [] {
      var n := |fixations| - 1;
      var prefix := fixations[..n];
      HitPairsOrdered(prefix, rows, radius);
      HitPairsSound(prefix, rows, radius);
      PairsOfSpec(n, fixations[n], rows, radius);
      var before := HitPairs(prefix, rows, radius);
      var last := PairsOf(n, fixations[n], rows, radius);
      var ps := before + last;
      forall k, l | 0 <= k < l < |ps|
        ensures Before(ps[k], ps[l])
      {
        if l < |before| {
          assert ps[k] == before[k] && ps[l] == before[l];
        } else if k < |before| {
          assert ps[k] == before[k] && ps[l] == last[l - |before|];
        } else {
          assert ps[k] == last[k - |before|] && ps[l] == last[l - |before|];
        }
      }
    }
  }

  /** The k-th record is the record of the k-th pair. */
  lemma {:induction false} HitRecordsArePairs(fixations: seq<Fixation>, rows: seq<TokenRow>, radius: real)
    ensures var ps := HitPairs(fixations, rows, radius);
      |HitRecords(fixations, rows, radius)| == |ps| &&
      forall k :: 0 <= k < |ps| ==>
        && ps[k].0 < |fixations| && ps[k].1 < |rows|
        && HitRecords(fixations, rows, radius)[k] == Record(fixations[ps[k].0], rows[ps[k].1])
    decreases |fixations|
  {
    if fixations != [] {
      var n := |fixations| - 1;
      var prefix := fixations[..n];
      HitRecordsArePairs(prefix, rows, radius);
      PairsOfSpec(n, fixations[n], rows, radius);
      HitsOfArePairs(n, fixations[n], rows, radius);
      var before := HitPairs(prefix, rows, radius);
      var ps := before + PairsOf(n, fixations[n], rows, radius);
      var records := HitRecords(fixations, rows, radius);
      var prior := HitRecords(prefix, rows, radius);
      forall k | 0 <= k < |ps|
        ensures ps[k].0 < |fixations| && ps[k].1 < |rows| && records[k] == Record(fixations[ps[k].0], rows[ps[k].1])
      {
        if k < |before| {
          assert records[k] == prior[k];
          assert fixations[ps[k].0] == prefix[ps[k].0];
        } else {
          assert records[k] == HitsOf(fixations[n], rows, radius)[k - |prior|];
        }
      }
    }
  }

  /** hit_test's promise: one record per (fixation, row) pair that passes
      overlap, and none for any other pair, in fixation-major then row order. */
  lemma HitPairsSpec(fixations: seq<Fixation>, rows: seq<TokenRow>, radius: real)
    ensures PairsHit(HitPairs(fixations, rows, radius), fixations, rows, radius)
    ensures forall i, j :: 0 <= i < |fixations| && 0 <= j < |rows| && Overlap(fixations[i], rows[j], radius) ==>
      (i, j) in HitPairs(fixations, rows, radius)
    ensures InPairOrder(HitPairs(fixations, rows, radius))
    ensures var ps := HitPairs(fixations, rows, radius);
      |HitRecords(fixations, rows, radius)| == |ps| &&
      forall k :: 0 <= k < |ps| ==> HitRecords(fixations, rows, radius)[k] == Record(fixations[ps[k].0], rows[ps[k].1])
  {
    HitPairsSound(fixations, rows, radius);
    HitPairsComplete(fixations, rows, radius);
    HitPairsOrdered(fixations, rows, radius);
    HitRecordsArePairs(fixations, rows, radius);
  }

  /** A fixation that hits two rows yields two records: matching is many to
      many, not nearest-AOI. */
  lemma TwoHitsTwoRecords(fix: Fixation, a: TokenRow, b: TokenRow, radius: real)
    requires Overlap(fix, a, radius) && Overlap(fix, b, radius)
    ensures HitRecords([fix], [a, b], radius) == [Record(fix, a), Record(fix, b)]
  {
    assert [fix][..0] == [] && [a, b][..1] == [a] && [a][..0] == [];
    assert HitsOf(fix, [a], radius) == [Record(fix, a)];
    assert HitsOf(fix, [a, b], radius) == [Record(fix, a), Record(fix, b)];
    assert HitRecords([fix], [a, b], radius) == HitsOf(fix, [a, b], radius);
  }

  /** The right and bottom edges are not widened: an AOI at (40, 40) of size
      5 x 5, with radius 25, is missed by a fixation at (50, 50), though
      one at its left-top corner minus 12.5 on each axis hits it. */
  lemma RightEdgeNotWidened(fix: Fixation, row: TokenRow)
    requires row.aoi.x == 40.0 && row.aoi.y == 40.0 && row.aoi.width == 5.0 && row.aoi.height == 5.0
    ensures fix.x == 50.0 && fix.y == 50.0 ==> !Overlap(fix, row, 25.0)
    ensures fix.x == 27.5 && fix.y == 27.5 ==> Overlap(fix, row, 25.0)
    ensures fix.x == 45.0 && fix.y == 45.0 ==> Overlap(fix, row, 25.0)
  {
  }

  /** hit_test: for every fixation of the trial, for every row, append the
      record when overlap holds. */
  method HitTest(trial: Trial, rows: seq<TokenRow>, radius: real) returns (result: seq<GazeRecord>)
    ensures result == HitRecords(trial.fixations, rows, radius)
  {
    var fixations := trial.fixations;
    result := [];
    for i := 0 to |fixations|
      invariant result == HitRecords(fixations[..i], rows, radius)
    {
      var fix := fixations[i];
      assert fixations[..i + 1][..i] == fixations[..i];
      ghost var before := result;
      for j := 0 to |rows|
        invariant result == before + HitsOf(fix, rows[..j], radius)
      {
        assert rows[..j + 1][..j] == rows[..j];
        if Overlap(fix, rows[j], radius) {
          result := result + [Record(fix, rows[j])];
        }
      }
      assert rows[..|rows|] == rows;
    }
    assert fixations[..|fixations|] == fixations;
  }
}
