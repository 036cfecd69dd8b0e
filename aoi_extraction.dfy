/** find_rectangles: AOI extraction from a binarised code image by two
    projection scans. The image is a grid of rows of pixels, each 0 (ink) or
    255 (background), as PIL's convert('1') leaves it; PIL's
    crop(box).getextrema() is replaced by the minimum over the box. */
module AoiExtraction {

  /** img[y][x]: rows top to bottom, pixels left to right. */
  type Image = seq<seq<int>>

  const Ink := 0
  const Paper := 255

  /** A non-empty rectangular grid of binarised pixels. */
  predicate WellFormed(img: Image) {
    && |img| > 0
    && |img[0]| > 0
    && (forall i :: 0 <= i < |img| ==> |img[i]| == |img[0]|)
    && (forall i, k :: 0 <= i < |img| && 0 <= k < |img[i]| ==> img[i][k] == Ink || img[i][k] == Paper)
  }

  function Width(img: Image): nat
    requires |img| > 0
  {
    |img[0]|
  }

  function Height(img: Image): nat {
    |img|
  }

  /** A box with at least one pixel, inside the image. */
  predicate InBox(img: Image, left: int, upper: int, right: int, lower: int)
    requires WellFormed(img)
  {
    0 <= left < right <= Width(img) && 0 <= upper < lower <= Height(img)
  }

  /** The smallest pixel of row[left..right]. */
  function RowMin(row: seq<int>, left: nat, right: nat): int
    requires left < right <= |row|
    decreases right - left
  {
    if left + 1 == right then row[left]
    else
      var rest := RowMin(row, left + 1, right);
      if row[left] <= rest then row[left] else rest
  }

  /** The minimum of crop((left, upper, right, lower)).getextrema(). */
  function BoxMin(img: Image, left: nat, upper: nat, right: nat, lower: nat): (m: int)
    requires WellFormed(img) && InBox(img, left, upper, right, lower)
    ensures forall r :: upper <= r < lower ==> m <= RowMin(img[r], left, right)
    decreases lower - upper
  {
    var first := RowMin(img[upper], left, right);
    if upper + 1 == lower then first
    else
      var rest := BoxMin(img, left, upper + 1, right, lower);
      if first <= rest then first else rest
  }

  lemma {:induction false} RowMinIsMin(row: seq<int>, left: nat, right: nat)
    requires left < right <= |row|
    ensures forall k :: left <= k < right ==> RowMin(row, left, right) <= row[k]
    ensures exists k :: left <= k < right && row[k] == RowMin(row, left, right)
    decreases right - left
  {
    if left + 1 < right {
      RowMinIsMin(row, left + 1, right);
      if row[left] <= RowMin(row, left + 1, right) {
        assert row[left] == RowMin(row, left, right);
      }
    } else {
      assert row[left] == RowMin(row, left, right);
    }
  }

  /** BoxMin is the darkest pixel of the box: no pixel is smaller and some
      pixel equals it; on a binarised image it is Ink or Paper. */
  lemma {:induction false} BoxMinIsMin(img: Image, left: nat, upper: nat, right: nat, lower: nat)
    requires WellFormed(img) && InBox(img, left, upper, right, lower)
    ensures forall i, k :: upper <= i < lower && left <= k < right ==> BoxMin(img, left, upper, right, lower) <= img[i][k]
    ensures exists i, k :: upper <= i < lower && left <= k < right && img[i][k] == BoxMin(img, left, upper, right, lower)
    ensures BoxMin(img, left, upper, right, lower) in {Ink, Paper}
    decreases lower - upper
  {
    RowMinIsMin(img[upper], left, right);
    if upper + 1 < lower {
      BoxMinIsMin(img, left, upper + 1, right, lower);
    }
  }

  /** A box is all background exactly when its minimum is Paper. */
  lemma BlankBox(img: Image, left: nat, upper: nat, right: nat, lower: nat)
    requires WellFormed(img) && InBox(img, left, upper, right, lower)
    ensures BoxMin(img, left, upper, right, lower) == Paper <==>
      forall i, k :: upper <= i < lower && left <= k < right ==> img[i][k] == Paper
  {
    BoxMinIsMin(img, left, upper, right, lower);
  }

  /** The transition rule both scans use on the sequence of probe minima m:
      position p opens a run of ink when p > 1, the previous probe was blank
      and this one is not. */
  predicate IsRise(m: seq<int>, p: int) {
    1 < p < |m| && m[p - 1] == Paper && m[p] == Ink
  }

  /** Position p closes a run of ink when p > 1, the previous probe held ink
      and this one is blank. */
  predicate IsFall(m: seq<int>, p: int) {
    1 < p < |m| && m[p - 1] == Ink && m[p] == Paper
  }

  /** The start bounds a scan records, in scan order. */
  function Rises(m: seq<int>): seq<int>
    decreases |m|
  {
    if m == [] then []
    else
      var n := |m| - 1;
      Rises(m[..n]) + (if IsRise(m, n) then [n] else [])
  }

  /** The end bounds a scan records: each fall position plus the margin. */
  function Falls(m: seq<int>, margin: nat): seq<int>
    decreases |m|
  {
    if m == [] then []
    else
      var n := |m| - 1;
      Falls(m[..n], margin) + (if IsFall(m, n) then [n + margin] else [])
  }

  /** The start bounds are exactly the rises, strictly increasing. */
  lemma {:induction false} RisesSpec(m: seq<int>)
    ensures forall k :: 0 <= k < |Rises(m)| ==> IsRise(m, Rises(m)[k])
    ensures forall p :: IsRise(m, p) ==> p in Rises(m)
    ensures forall k, l :: 0 <= k < l < |Rises(m)| ==> Rises(m)[k] < Rises(m)[l]
    decreases |m|
  {
    if m != [] {
      var n := |m| - 1;
      RisesSpec(m[..n]);
      var before := Rises(m[..n]);
      assert forall k :: 0 <= k < |before| ==> before[k] < n && IsRise(m, before[k]);
      assert forall p :: IsRise(m, p) && p < n ==> IsRise(m[..n], p);
    }
  }

  /** The end bounds are exactly the falls shifted by the margin, strictly increasing. */
  lemma {:induction false} FallsSpec(m: seq<int>, margin: nat)
    ensures forall k :: 0 <= k < |Falls(m, margin)| ==> IsFall(m, Falls(m, margin)[k] - margin)
    ensures forall p :: IsFall(m, p) ==> p + margin in Falls(m, margin)
    ensures forall k, l :: 0 <= k < l < |Falls(m, margin)| ==> Falls(m, margin)[k] < Falls(m, margin)[l]
    decreases |m|
  {
    if m != [] {
      var n := |m| - 1;
      FallsSpec(m[..n], margin);
      var before := Falls(m[..n], margin);
      assert forall k :: 0 <= k < |before| ==> before[k] - margin < n && IsFall(m, before[k] - margin);
      assert forall p :: IsFall(m, p) && p < n ==> IsFall(m[..n], p);
    }
  }

  /** Recording one more probe adds at most its own position to the bounds. */
  lemma ScanStep(m: seq<int>, x: int, margin: nat)
    ensures Rises(m + [x]) == Rises(m) + (if |m| > 1 && m[|m| - 1] == Paper && x == Ink then [|m|] else [])
    ensures Falls(m + [x], margin) == Falls(m, margin) + (if |m| > 1 && m[|m| - 1] == Ink && x == Paper then [|m| + margin] else [])
  {
    assert (m + [x])[..|m|] == m;
  }

  /** The probe minima of the vertical pass: a full-width box of height
      margin_height at every row in [0, height - margin_height). */
  function RowProbes(img: Image, marginHeight: nat): (m: seq<int>)
    requires WellFormed(img) && marginHeight > 0
    ensures |m| == if Height(img) > marginHeight then Height(img) - marginHeight else 0
  {
    var n := if Height(img) > marginHeight then Height(img) - marginHeight else 0;
    seq(n, p requires 0 <= p < n => BoxMin(img, 0, p, Width(img), p + marginHeight))
  }

  /** The probe minima of the horizontal pass over the band [upper, lower):
      a box of width margin_width at every column in [0, width - margin_width). */
  function ColumnProbes(img: Image, upper: nat, lower: nat, marginWidth: nat): (m: seq<int>)
    requires WellFormed(img) && marginWidth > 0 && upper < lower <= Height(img)
    ensures |m| == if Width(img) > marginWidth then Width(img) - marginWidth else 0
  {
    var n := if Width(img) > marginWidth then Width(img) - marginWidth else 0;
    seq(n, p requires 0 <= p < n => BoxMin(img, p, upper, p + marginWidth, lower))
  }

  /** Python's zip: pairs up to the shorter list. */
  function Zip(a: seq<int>, b: seq<int>): (z: seq<(int, int)>)
    ensures |z| == if |a| < |b| then |a| else |b|
  {
    var n := if |a| < |b| then |a| else |b|;
    seq(n, i requires 0 <= i < n => (a[i], b[i]))
  }

  /** The line bands: zip(upper_bounds, lower_bounds) of the vertical pass. */
  function Bands(img: Image, marginHeight: nat): seq<(int, int)>
    requires WellFormed(img) && marginHeight > 0
  {
    var m := RowProbes(img, marginHeight);
    Zip(Rises(m), Falls(m, marginHeight))
  }

  /** The token bounds of one band: zip(left_bounds, right_bounds). */
  function Tokens(img: Image, upper: nat, lower: nat, marginWidth: nat): seq<(int, int)>
    requires WellFormed(img) && marginWidth > 0 && upper < lower <= Height(img)
  {
    var m := ColumnProbes(img, upper, lower, marginWidth);
    Zip(Rises(m), Falls(m, marginWidth))
  }

  /** One row of the AOI table; the name "line <line> part <part>" is Name(). */
  datatype Aoi = Aoi(kind: string, line: nat, part: nat, x: real, y: real, width: real, height: real, image: string)
  {
    /** The f-string name: "line ", the line numeral, " part ", the part numeral. */
    function Name(): (name: string)
      ensures |name| == 11 + |Decimal(line)| + |Decimal(part)|
      ensures name[..5] == "line " && Numeral(name[5..5 + |Decimal(line)|], line)
      ensures name[5 + |Decimal(line)|..11 + |Decimal(line)|] == " part "
      ensures Numeral(name[11 + |Decimal(line)|..], part)
    {
      var l := Decimal(line);
      var name := "line " + l + " part " + Decimal(part);
      assert name[5..5 + |l|] == l;
      assert name[11 + |l|..] == Decimal(part);
      name
    }
  }

  predicate IsDigit(c: char) {
    '0' <= c <= '9'
  }

  /** The number a string of decimal digits denotes, most significant digit first. */
  function Value(s: string): nat
    requires forall k :: 0 <= k < |s| ==> IsDigit(s[k])
    decreases |s|
  {
    if s == [] then 0
    else
      var last := s[|s| - 1];
      assert IsDigit(last);
      10 * Value(s[..|s| - 1]) + (last as int - '0' as int)
  }

  /** s is the numeral Python writes for n: decimal digits without a leading
      zero, denoting n. */
  predicate Numeral(s: string, n: nat) {
    && |s| > 0
    && (forall k :: 0 <= k < |s| ==> IsDigit(s[k]))
    && (s[0] == '0' ==> |s| == 1)
    && Value(s) == n
  }

  function Digit(d: nat): (c: char)
    requires d < 10
    ensures IsDigit(c) && c as int - '0' as int == d
  {
    ('0' as int + d) as char
  }

  /** The decimal numeral of n, as Python's f-string writes it. */
  function Decimal(n: nat): (s: string)
    ensures Numeral(s, n)
    decreases n
  {
    if n < 10 then
      var s := [Digit(n)];
      assert s[..0] == [];
      s
    else
      var s := Decimal(n / 10) + [Digit(n % 10)];
      assert s[..|s| - 1] == Decimal(n / 10);
      s
  }

  /** A numeral that starts where another one does cannot run past the space
      that ends the other. */
  lemma NumeralStopsAtSpace(name: string, start: nat, end: nat, n: nat, len: nat)
    requires start + len <= |name| && end < |name| && start <= end
    requires name[end] == ' '
    requires Numeral(name[start..start + len], n)
    ensures start + len <= end
  {
    forall k | start <= k < start + len
      ensures IsDigit(name[k])
    {
      assert name[start..start + len][k - start] == name[k];
    }
  }

  /** Two rows with the same name have the same line and part numbers, so the
      names of a table whose (line, part) pairs differ are all different. */
  lemma NameDeterminesNumbers(a: Aoi, b: Aoi)
    requires a.Name() == b.Name()
    ensures a.line == b.line && a.part == b.part
  {
    SameLineLength(a, b);
    var name, l := a.Name(), |Decimal(a.line)|;
    SameValue(name[5..5 + l], a.line, b.line);
    SameValue(name[11 + l..], a.part, b.part);
  }

  /** Equal names have line numerals of equal length. */
  lemma SameLineLength(a: Aoi, b: Aoi)
    requires a.Name() == b.Name()
    ensures |Decimal(a.line)| == |Decimal(b.line)|
  {
    var name := a.Name();
    var la, lb := |Decimal(a.line)|, |Decimal(b.line)|;
    SpaceAfterLine(a);
    SpaceAfterLine(b);
    NumeralStopsAtSpace(name, 5, 5 + la, b.line, lb);
    NumeralStopsAtSpace(name, 5, 5 + lb, a.line, la);
  }

  /** The line numeral of a name is followed by a space. */
  lemma SpaceAfterLine(a: Aoi)
    ensures 5 + |Decimal(a.line)| < |a.Name()| && a.Name()[5 + |Decimal(a.line)|] == ' '
    ensures Numeral(a.Name()[5..5 + |Decimal(a.line)|], a.line)
  {
    var l := |Decimal(a.line)|;
    assert a.Name()[5 + l] == a.Name()[5 + l..11 + l][0];
  }

  /** A string is the numeral of one number only. */
  lemma SameValue(s: string, n: nat, m: nat)
    requires Numeral(s, n) && Numeral(s, m)
    ensures n == m
  {
  }

  /** The row for one token after the margin correction: the token's box
      [left, right) x [upper, lower) narrowed by half the probe width on each
      side. */
  function TokenAoi(line: nat, part: nat, left: int, upper: int, right: int, lower: int,
                    marginWidth: nat, image: string): (a: Aoi)
    ensures a.kind == "sub-line" && a.line == line && a.part == part && a.image == image
    ensures a.x - marginWidth as real / 2.0 == left as real
    ensures a.x + a.width == right as real - marginWidth as real / 2.0
    ensures a.y == upper as real && a.y + a.height == lower as real
  {
    Aoi("sub-line", line, part, left as real + marginWidth as real / 2.0, upper as real,
        (right - left - marginWidth) as real, (lower - upper) as real, image)
  }

  /** The rows for the tokens of one band, parts numbered from 1. */
  function LineParts(img: Image, image: string, upper: nat, lower: nat, marginWidth: nat, line: nat): (parts: seq<Aoi>)
    requires WellFormed(img) && marginWidth > 0 && upper < lower <= Height(img)
  {
    var tokens := Tokens(img, upper, lower, marginWidth);
    seq(|tokens|, j requires 0 <= j < |tokens| =>
      TokenAoi(line, j + 1, tokens[j].0, upper, tokens[j].1, lower, marginWidth, image))
  }

  /** Why find_rectangles raises instead of returning a table. */
  datatype ExtractError =
    | EmptyBand          // a zipped band with lower <= upper: PIL refuses the crop or finds no extrema
    | LineLevelUndefined // level 'line' reads left_bounds[0] and the undefined names up/low

  datatype Result<T> = Ok(value: T) | Err(error: ExtractError)

  /** The outcome of the band loop over the first |bands| bands. */
  function ExtractBands(img: Image, image: string, level: string, marginWidth: nat, bands: seq<(int, int)>): (r: Result<seq<Aoi>>)
    requires WellFormed(img) && marginWidth > 0
    requires forall k :: 0 <= k < |bands| ==> 0 <= bands[k].0 && bands[k].1 <= Height(img)
    ensures r.Ok? ==> forall k :: 0 <= k < |bands| ==> bands[k].0 < bands[k].1
    ensures r.Ok? ==> forall k :: 0 <= k < |r.value| ==> r.value[k].kind == "sub-line" && r.value[k].image == image
    decreases |bands|
  {
    if bands == [] then Ok([])
    else
      var n := |bands| - 1;
      match ExtractBands(img, image, level, marginWidth, bands[..n])
      case Err(e) => Err(e)
      case Ok(rows) =>
        var (upper, lower) := bands[n];
        PrefixBands(bands, n);
        if lower <= upper then Err(EmptyBand)
        else if level == "sub-line" then
          SubLineAppend(img, image, upper, lower, marginWidth, n + 1, rows);
          Ok(rows + LineParts(img, image, upper, lower, marginWidth, n + 1))
        else if level == "line" then Err(LineLevelUndefined)
        else Ok(rows)
  }

  /** A band of a prefix is the band at the same place in the whole list. */
  lemma PrefixBands(bands: seq<(int, int)>, n: nat)
    requires n <= |bands|
    ensures forall k :: 0 <= k < n ==> bands[..n][k] == bands[k]
  {
  }

  /** Appending a band's rows to 'sub-line' rows of the image keeps them so. */
  lemma SubLineAppend(img: Image, image: string, upper: nat, lower: nat, marginWidth: nat, line: nat, rows: seq<Aoi>)
    requires WellFormed(img) && marginWidth > 0 && upper < lower <= Height(img)
    requires forall k :: 0 <= k < |rows| ==> rows[k].kind == "sub-line" && rows[k].image == image
    ensures var all := rows + LineParts(img, image, upper, lower, marginWidth, line);
      forall k :: 0 <= k < |all| ==> all[k].kind == "sub-line" && all[k].image == image
  {
    var parts := LineParts(img, image, upper, lower, marginWidth, line);
    assert forall k :: 0 <= k < |parts| ==> parts[k].kind == "sub-line" && parts[k].image == image;
  }

  /** Every band lies inside the image: it starts at row 2 or below and its
      lower bound is at most the image height. */
  lemma BandsInsideImage(img: Image, marginHeight: nat)
    requires WellFormed(img) && marginHeight > 0
    ensures forall k :: 0 <= k < |Bands(img, marginHeight)| ==>
      2 <= Bands(img, marginHeight)[k].0 < Height(img) - marginHeight
      && Bands(img, marginHeight)[k].1 < Height(img)
  {
    var m := RowProbes(img, marginHeight);
    var bands := Bands(img, marginHeight);
    RisesSpec(m);
    FallsSpec(m, marginHeight);
    forall k | 0 <= k < |bands|
      ensures 2 <= bands[k].0 < Height(img) - marginHeight && bands[k].1 < Height(img)
    {
      assert IsRise(m, Rises(m)[k]);
      assert IsFall(m, Falls(m, marginHeight)[k] - marginHeight);
    }
  }

  /** The whole of find_rectangles on an already binarised image. */
  function Extract(img: Image, image: string, level: string, marginHeight: nat, marginWidth: nat): (r: Result<seq<Aoi>>)
    requires WellFormed(img) && marginHeight > 0 && marginWidth > 0
    ensures r.Ok? ==> forall k :: 0 <= k < |Bands(img, marginHeight)| ==> Bands(img, marginHeight)[k].0 < Bands(img, marginHeight)[k].1
    ensures r.Ok? ==> forall k :: 0 <= k < |r.value| ==> r.value[k].kind == "sub-line" && r.value[k].image == image
  {
    BandsInsideImage(img, marginHeight);
    ExtractBands(img, image, level, marginWidth, Bands(img, marginHeight))
  }

  /** One more band of the loop, given that the earlier ones succeeded. */
  lemma BandStep(img: Image, image: string, level: string, marginWidth: nat, bands: seq<(int, int)>, i: nat)
    requires WellFormed(img) && marginWidth > 0
    requires forall k :: 0 <= k < |bands| ==> 0 <= bands[k].0 && bands[k].1 <= Height(img)
    requires i < |bands|
    requires ExtractBands(img, image, level, marginWidth, bands[..i]).Ok?
    ensures var rows := ExtractBands(img, image, level, marginWidth, bands[..i]).value;
      var (upper, lower) := bands[i];
      ExtractBands(img, image, level, marginWidth, bands[..i + 1]) ==
        if lower <= upper then Err(EmptyBand)
        else if level == "sub-line" then Ok(rows + LineParts(img, image, upper, lower, marginWidth, i + 1))
        else if level == "line" then Err(LineLevelUndefined)
        else Ok(rows)
  {
    assert bands[..i + 1][..i] == bands[..i];
  }

  /** A table over several bands extends the table over all but the last one. */
  lemma LastBand(img: Image, image: string, level: string, marginWidth: nat, bands: seq<(int, int)>)
    requires WellFormed(img) && marginWidth > 0
    requires forall k :: 0 <= k < |bands| ==> 0 <= bands[k].0 && bands[k].1 <= Height(img)
    requires bands != [] && ExtractBands(img, image, level, marginWidth, bands).Ok?
    ensures var n := |bands| - 1;
      && ExtractBands(img, image, level, marginWidth, bands[..n]).Ok?
      && bands[n].0 < bands[n].1
      && level != "line"
      && ExtractBands(img, image, level, marginWidth, bands).value ==
         ExtractBands(img, image, level, marginWidth, bands[..n]).value +
         (if level == "sub-line" then LineParts(img, image, bands[n].0, bands[n].1, marginWidth, n + 1) else [])
  {
  }

  /** An error met in the band loop ends it: later bands cannot change it. */
  lemma {:induction false} ErrorPersists(img: Image, image: string, level: string, marginWidth: nat,
                                         bands: seq<(int, int)>, i: nat)
    requires WellFormed(img) && marginWidth > 0
    requires forall k :: 0 <= k < |bands| ==> 0 <= bands[k].0 && bands[k].1 <= Height(img)
    requires i <= |bands|
    requires ExtractBands(img, image, level, marginWidth, bands[..i]).Err?
    ensures ExtractBands(img, image, level, marginWidth, bands) == ExtractBands(img, image, level, marginWidth, bands[..i])
    decreases |bands| - i
  {
    if i < |bands| {
      assert bands[..i + 1][..i] == bands[..i];
      ErrorPersists(img, image, level, marginWidth, bands, i + 1);
    } else {
      assert bands[..i] == bands;
    }
  }

  /** Every probe of a scan over a binarised image is Ink or Paper. */
  predicate Binary(m: seq<int>) {
    forall p :: 0 <= p < |m| ==> m[p] == Ink || m[p] == Paper
  }

  lemma RowProbesBinary(img: Image, marginHeight: nat)
    requires WellFormed(img) && marginHeight > 0
    ensures Binary(RowProbes(img, marginHeight))
  {
    var m := RowProbes(img, marginHeight);
    forall p | 0 <= p < |m|
      ensures m[p] == Ink || m[p] == Paper
    {
      BoxMinIsMin(img, 0, p, Width(img), p + marginHeight);
    }
  }

  lemma ColumnProbesBinary(img: Image, upper: nat, lower: nat, marginWidth: nat)
    requires WellFormed(img) && marginWidth > 0 && upper < lower <= Height(img)
    ensures Binary(ColumnProbes(img, upper, lower, marginWidth))
  {
    var m := ColumnProbes(img, upper, lower, marginWidth);
    forall p | 0 <= p < |m|
      ensures m[p] == Ink || m[p] == Paper
    {
      BoxMinIsMin(img, p, upper, p + marginWidth, lower);
    }
  }

  /** Start and end bounds alternate: the k-th end follows the k-th start
      and precedes the (k+1)-th start, and one start is left unmatched exactly
      when the scan ends inside ink. */
  predicate Alternates(m: seq<int>, margin: nat) {
    && |Rises(m)| == |Falls(m, margin)| + (if |m| >= 2 && m[|m| - 1] == Ink then 1 else 0)
    && (forall k :: 0 <= k < |Falls(m, margin)| ==> Rises(m)[k] < Falls(m, margin)[k] - margin)
    && (forall k :: 0 <= k < |Falls(m, margin)| && k + 1 < |Rises(m)| ==> Falls(m, margin)[k] - margin < Rises(m)[k + 1])
  }

  /** A scan of at most two probes records no bound. */
  lemma {:induction false} ShortScan(m: seq<int>, margin: nat)
    requires |m| <= 2
    ensures Rises(m) == [] && Falls(m, margin) == []
    decreases |m|
  {
    if m != [] {
      ShortScan(m[..|m| - 1], margin);
    }
  }

  /** One more probe keeps the bounds alternating. */
  lemma AlternationStep(prev: seq<int>, x: int, margin: nat)
    requires Binary(prev) && (x == Ink || x == Paper)
    requires |prev| >= 2 && prev[1] == Paper
    requires Alternates(prev, margin)
    ensures Alternates(prev + [x], margin)
  {
    var n := |prev|;
    if prev[n - 1] == Paper && x == Ink {
      AlternationRise(prev, x, margin);
    } else if prev[n - 1] == Ink && x == Paper {
      AlternationFall(prev, x, margin);
    } else {
      AlternationSame(prev, x, margin);
    }
  }

  /** A probe that opens a run of ink adds the unmatched start. */
  lemma AlternationRise(prev: seq<int>, x: int, margin: nat)
    requires |prev| >= 2 && prev[|prev| - 1] == Paper && x == Ink
    requires Alternates(prev, margin)
    ensures Alternates(prev + [x], margin)
  {
    var m := prev + [x];
    var n := |prev|;
    var rises, falls := Rises(prev), Falls(prev, margin);
    ScanStep(prev, x, margin);
    assert Rises(m) == rises + [n] && Falls(m, margin) == falls;
    forall k | 0 <= k < |falls|
      ensures falls[k] - margin < n
    {
      FallsBelow(prev, margin, k);
    }
  }

  /** A probe that closes a run of ink matches the unmatched start. */
  lemma AlternationFall(prev: seq<int>, x: int, margin: nat)
    requires |prev| >= 2 && prev[|prev| - 1] == Ink && x == Paper
    requires Alternates(prev, margin)
    ensures Alternates(prev + [x], margin)
  {
    var m := prev + [x];
    var n := |prev|;
    var rises, falls := Rises(prev), Falls(prev, margin);
    ScanStep(prev, x, margin);
    assert Rises(m) == rises && Falls(m, margin) == falls + [n + margin];
    RisesBelow(prev, |falls|);
  }

  /** A probe equal to the one before records nothing. */
  lemma AlternationSame(prev: seq<int>, x: int, margin: nat)
    requires |prev| >= 2 && x == prev[|prev| - 1]
    requires Alternates(prev, margin)
    ensures Alternates(prev + [x], margin)
  {
    var m := prev + [x];
    var n := |prev|;
    ScanStep(prev, x, margin);
    assert Rises(m) == Rises(prev) && Falls(m, margin) == Falls(prev, margin);
    assert m[n] == prev[n - 1];
  }

  lemma RisesBelow(m: seq<int>, k: nat)
    requires k < |Rises(m)|
    ensures Rises(m)[k] < |m|
  {
    RisesSpec(m);
    assert IsRise(m, Rises(m)[k]);
  }

  lemma FallsBelow(m: seq<int>, margin: nat, k: nat)
    requires k < |Falls(m, margin)|
    ensures Falls(m, margin)[k] - margin < |m|
  {
    FallsSpec(m, margin);
    assert IsFall(m, Falls(m, margin)[k] - margin);
  }

  /** When the probe at position 1 is blank, start and end bounds alternate. */
  lemma {:induction false} Alternation(m: seq<int>, margin: nat)
    requires Binary(m)
    requires |m| >= 2 ==> m[1] == Paper
    ensures Alternates(m, margin)
    decreases |m|
  {
    if |m| > 2 {
      var n := |m| - 1;
      var prev := m[..n];
      Alternation(prev, margin);
      AlternationStep(prev, m[n], margin);
      assert prev + [m[n]] == m;
    } else {
      ShortScan(m, margin);
    }
  }

  /** The vertical pass of an image whose rows 1 to margin_height are blank
      yields bands that are never empty: each starts above where it ends. */
  lemma ProperBands(img: Image, marginHeight: nat)
    requires WellFormed(img) && marginHeight > 0
    requires Height(img) > marginHeight + 1 ==>
      forall i, k :: 1 <= i <= marginHeight && 0 <= k < Width(img) ==> img[i][k] == Paper
    ensures forall k :: 0 <= k < |Bands(img, marginHeight)| ==>
      Bands(img, marginHeight)[k].0 < Bands(img, marginHeight)[k].1 - marginHeight
  {
    var m := RowProbes(img, marginHeight);
    RowProbesBinary(img, marginHeight);
    if |m| >= 2 {
      BlankBox(img, 0, 1, Width(img), 1 + marginHeight);
    }
    Alternation(m, marginHeight);
  }

  /** The tokens of a band whose columns 1 to margin_width are blank have a
      positive width after the margin correction and do not overlap: each ends
      before the next one starts. */
  lemma ProperTokens(img: Image, upper: nat, lower: nat, marginWidth: nat)
    requires WellFormed(img) && marginWidth > 0 && upper < lower <= Height(img)
    requires Width(img) > marginWidth + 1 ==>
      forall i, k :: upper <= i < lower && 1 <= k <= marginWidth ==> img[i][k] == Paper
    ensures var t := Tokens(img, upper, lower, marginWidth);
      forall j :: 0 <= j < |t| ==> t[j].0 < t[j].1 - marginWidth
    ensures var t := Tokens(img, upper, lower, marginWidth);
      forall j :: 0 <= j < |t| - 1 ==> t[j].1 - marginWidth < t[j + 1].0
  {
    var m := ColumnProbes(img, upper, lower, marginWidth);
    ColumnProbesBinary(img, upper, lower, marginWidth);
    if |m| >= 2 {
      BlankBox(img, 1, upper, 1 + marginWidth, lower);
      assert m[1] == BoxMin(img, 1, upper, 1 + marginWidth, lower);
    }
    Alternation(m, marginWidth);
    assert Tokens(img, upper, lower, marginWidth) == Zip(Rises(m), Falls(m, marginWidth));
  }

  /** Every row of the table lies in a token of a proper band: its width is positive. */
  lemma PositiveTokenWidths(img: Image, image: string, upper: nat, lower: nat, marginWidth: nat, line: nat)
    requires WellFormed(img) && marginWidth > 0 && upper < lower <= Height(img)
    requires Width(img) > marginWidth + 1 ==>
      forall i, k :: upper <= i < lower && 1 <= k <= marginWidth ==> img[i][k] == Paper
    ensures forall r :: r in LineParts(img, image, upper, lower, marginWidth, line) ==> r.width > 0.0 && r.height > 0.0
  {
    ProperTokens(img, upper, lower, marginWidth);
  }

  /** Level 'line' succeeds only when there is no band at all. */
  lemma LineLevelFails(img: Image, image: string, marginWidth: nat, bands: seq<(int, int)>)
    requires WellFormed(img) && marginWidth > 0
    requires forall k :: 0 <= k < |bands| ==> 0 <= bands[k].0 && bands[k].1 <= Height(img)
    ensures ExtractBands(img, image, "line", marginWidth, bands).Ok? <==> bands == []
    ensures ExtractBands(img, image, "line", marginWidth, bands).Ok? ==> ExtractBands(img, image, "line", marginWidth, bands).value == []
  {
  }

  /** A level other than 'sub-line' or 'line' adds no row. */
  lemma {:induction false} OtherLevelsEmpty(img: Image, image: string, level: string, marginWidth: nat, bands: seq<(int, int)>)
    requires WellFormed(img) && marginWidth > 0
    requires forall k :: 0 <= k < |bands| ==> 0 <= bands[k].0 && bands[k].1 <= Height(img)
    requires level != "sub-line"
    ensures ExtractBands(img, image, level, marginWidth, bands).Ok? ==> ExtractBands(img, image, level, marginWidth, bands).value == []
    decreases |bands|
  {
    if bands != [] && ExtractBands(img, image, level, marginWidth, bands).Ok? {
      LastBand(img, image, level, marginWidth, bands);
      OtherLevelsEmpty(img, image, level, marginWidth, bands[..|bands| - 1]);
    }
  }

  /** When every band starts above where it ends, every level except 'line'
      gives a table. */
  lemma {:induction false} ProperBandsExtract(img: Image, image: string, level: string, marginWidth: nat, bands: seq<(int, int)>)
    requires WellFormed(img) && marginWidth > 0
    requires forall k :: 0 <= k < |bands| ==> 0 <= bands[k].0 < bands[k].1 <= Height(img)
    requires level != "line"
    ensures ExtractBands(img, image, level, marginWidth, bands).Ok?
    decreases |bands|
  {
    if bands != [] {
      ProperBandsExtract(img, image, level, marginWidth, bands[..|bands| - 1]);
    }
  }

  /** find_rectangles returns a table, at every level except 'line', for any
      image whose rows 1 to margin_height are blank. */
  lemma BlankTopMarginExtracts(img: Image, image: string, level: string, marginHeight: nat, marginWidth: nat)
    requires WellFormed(img) && marginHeight > 0 && marginWidth > 0
    requires Height(img) > marginHeight + 1 ==>
      forall i, k :: 1 <= i <= marginHeight && 0 <= k < Width(img) ==> img[i][k] == Paper
    requires level != "line"
    ensures Extract(img, image, level, marginHeight, marginWidth).Ok?
  {
    ProperBands(img, marginHeight);
    BandsInsideImage(img, marginHeight);
    ProperBandsExtract(img, image, level, marginWidth, Bands(img, marginHeight));
  }

  /** Each row is a 'sub-line' token of the band its line number names: it
      takes that band's top as y and its height, and carries the image name. */
  predicate RowsFromBands(rows: seq<Aoi>, bands: seq<(int, int)>, image: string) {
    forall r :: r in rows ==>
      && r.kind == "sub-line"
      && 1 <= r.line <= |bands|
      && r.part >= 1
      && r.y == bands[r.line - 1].0 as real
      && r.height == (bands[r.line - 1].1 - bands[r.line - 1].0) as real
      && r.height > 0.0
      && r.image == image
  }

  /** Rows come line by line, and within a line part by part. */
  predicate InScanOrder(rows: seq<Aoi>) {
    forall k, l :: 0 <= k < l < |rows| ==>
      rows[k].line < rows[l].line || (rows[k].line == rows[l].line && rows[k].part < rows[l].part)
  }

  /** The rows of one band all name that band's line, carry its top and
      height, and number their parts upwards from 1. */
  predicate RowsOfBand(parts: seq<Aoi>, line: nat, band: (int, int), image: string) {
    && band.0 < band.1
    && (forall r :: r in parts ==>
        && r.kind == "sub-line" && r.line == line && r.part >= 1
        && r.y == band.0 as real && r.height == (band.1 - band.0) as real && r.image == image)
    && (forall k, l :: 0 <= k < l < |parts| ==> parts[k].part < parts[l].part)
  }

  lemma LinePartsShape(img: Image, image: string, upper: nat, lower: nat, marginWidth: nat, line: nat)
    requires WellFormed(img) && marginWidth > 0 && upper < lower <= Height(img)
    ensures RowsOfBand(LineParts(img, image, upper, lower, marginWidth, line), line, (upper, lower), image)
  {
  }

  /** Appending the rows of band n + 1 to a table built from the first n bands. */
  lemma AppendBand(before: seq<Aoi>, parts: seq<Aoi>, bands: seq<(int, int)>, image: string)
    requires bands != []
    requires RowsFromBands(before, bands[..|bands| - 1], image) && InScanOrder(before)
    requires RowsOfBand(parts, |bands|, bands[|bands| - 1], image)
    ensures RowsFromBands(before + parts, bands, image) && InScanOrder(before + parts)
  {
    var prefix := bands[..|bands| - 1];
    var rows := before + parts;
    forall r | r in before
      ensures r.line <= |prefix| && bands[r.line - 1] == prefix[r.line - 1]
    {
    }
    forall k, l | 0 <= k < l < |rows|
      ensures rows[k].line < rows[l].line || (rows[k].line == rows[l].line && rows[k].part < rows[l].part)
    {
      if l < |before| {
        assert rows[k] == before[k] && rows[l] == before[l];
      } else if k < |before| {
        assert rows[k] in before;
        assert rows[l] in parts;
      } else {
        assert rows[k] == parts[k - |before|] && rows[l] == parts[l - |before|];
      }
    }
  }

  /** The table of level 'sub-line' is ordered by line then part, and every
      row belongs to the band its name gives. */
  lemma {:induction false} SubLineRows(img: Image, image: string, marginWidth: nat, bands: seq<(int, int)>)
    requires WellFormed(img) && marginWidth > 0
    requires forall k :: 0 <= k < |bands| ==> 0 <= bands[k].0 && bands[k].1 <= Height(img)
    ensures var table := ExtractBands(img, image, "sub-line", marginWidth, bands);
      table.Ok? ==> RowsFromBands(table.value, bands, image) && InScanOrder(table.value)
    decreases |bands|
  {
    if bands != [] && ExtractBands(img, image, "sub-line", marginWidth, bands).Ok? {
      var n := |bands| - 1;
      var prefix := bands[..n];
      LastBand(img, image, "sub-line", marginWidth, bands);
      SubLineRows(img, image, marginWidth, prefix);
      LinePartsShape(img, image, bands[n].0, bands[n].1, marginWidth, n + 1);
      AppendBand(ExtractBands(img, image, "sub-line", marginWidth, prefix).value,
                 LineParts(img, image, bands[n].0, bands[n].1, marginWidth, n + 1), bands, image);
    }
  }

  /** The table find_rectangles builds at level 'sub-line' lists its rows
      line by line and part by part, each inside the band its name gives. */
  lemma SubLineTable(img: Image, image: string, marginHeight: nat, marginWidth: nat)
    requires WellFormed(img) && marginHeight > 0 && marginWidth > 0
    ensures var table := Extract(img, image, "sub-line", marginHeight, marginWidth);
      table.Ok? ==> RowsFromBands(table.value, Bands(img, marginHeight), image) && InScanOrder(table.value)
  {
    BandsInsideImage(img, marginHeight);
    SubLineRows(img, image, marginWidth, Bands(img, marginHeight));
  }

  /** Probe p of the vertical pass is the box at rows [p, p + margin_height). */
  lemma RowProbeAt(img: Image, marginHeight: nat, p: nat)
    requires WellFormed(img) && marginHeight > 0 && p < |RowProbes(img, marginHeight)|
    ensures RowProbes(img, marginHeight)[p] == BoxMin(img, 0, p, Width(img), p + marginHeight)
  {
  }

  /** Probe p of the horizontal pass is the box at columns [p, p + margin_width). */
  lemma ColumnProbeAt(img: Image, upper: nat, lower: nat, marginWidth: nat, p: nat)
    requires WellFormed(img) && marginWidth > 0 && upper < lower <= Height(img)
    requires p < |ColumnProbes(img, upper, lower, marginWidth)|
    ensures ColumnProbes(img, upper, lower, marginWidth)[p] == BoxMin(img, p, upper, p + marginWidth, lower)
  {
  }

  /** Recording probe p after the probes before it: the bounds grow as ScanStep says. */
  lemma RecordProbe(probes: seq<int>, seen: seq<int>, p: nat, x: int, margin: nat)
    requires p < |probes| && seen == probes[..p] && probes[p] == x
    ensures probes[..p + 1] == seen + [x]
    ensures Rises(seen + [x]) == Rises(seen) + (if p > 1 && seen[p - 1] == Paper && x == Ink then [p] else [])
    ensures Falls(seen + [x], margin) == Falls(seen, margin) + (if p > 1 && seen[p - 1] == Ink && x == Paper then [p + margin] else [])
  {
    ScanStep(seen, x, margin);
  }

  /** The vertical pass: slides a full-width probe of height margin_height
      down the image and records start and end bounds by the transition rule. */
  method ScanRows(img: Image, marginHeight: nat) returns (upperBounds: seq<int>, lowerBounds: seq<int>)
    requires WellFormed(img) && marginHeight > 0
    ensures upperBounds == Rises(RowProbes(img, marginHeight))
    ensures lowerBounds == Falls(RowProbes(img, marginHeight), marginHeight)
  {
    ghost var probes := RowProbes(img, marginHeight);
    var width, height := Width(img), Height(img);
    var left, right := 0, width;
    var verticalResult: seq<int> := [];
    upperBounds, lowerBounds := [], [];
    var positions := if height > marginHeight then height - marginHeight else 0;
    for upper := 0 to positions
      invariant verticalResult == probes[..upper]
      invariant upperBounds == Rises(verticalResult)
      invariant lowerBounds == Falls(verticalResult, marginHeight)
    {
      var lower := upper + marginHeight;
      var minimum := BoxMin(img, left, upper, right, lower);
      RowProbeAt(img, marginHeight, upper);
      RecordProbe(probes, verticalResult, upper, minimum, marginHeight);
      if upper > 1 {
        if verticalResult[|verticalResult| - 1] == Paper && minimum == Ink {
          upperBounds := upperBounds + [upper];
        }
        if verticalResult[|verticalResult| - 1] == Ink && minimum == Paper {
          lowerBounds := lowerBounds + [lower];
        }
      }
      verticalResult := verticalResult + [minimum];
    }
    assert probes[..positions] == probes;
  }

  /** The horizontal pass over one band: slides a probe of width margin_width
      and the band's height across the image by the same transition rule. */
  method ScanColumns(img: Image, upperBound: nat, lowerBound: nat, marginWidth: nat)
    returns (leftBounds: seq<int>, rightBounds: seq<int>)
    requires WellFormed(img) && marginWidth > 0 && upperBound < lowerBound <= Height(img)
    ensures leftBounds == Rises(ColumnProbes(img, upperBound, lowerBound, marginWidth))
    ensures rightBounds == Falls(ColumnProbes(img, upperBound, lowerBound, marginWidth), marginWidth)
  {
    ghost var probes := ColumnProbes(img, upperBound, lowerBound, marginWidth);
    var width := Width(img);
    var horizontalResult: seq<int> := [];
    leftBounds, rightBounds := [], [];
    var positions := if width > marginWidth then width - marginWidth else 0;
    for left := 0 to positions
      invariant horizontalResult == probes[..left]
      invariant leftBounds == Rises(horizontalResult)
      invariant rightBounds == Falls(horizontalResult, marginWidth)
    {
      var right := left + marginWidth;
      var minimum := BoxMin(img, left, upperBound, right, lowerBound);
      ColumnProbeAt(img, upperBound, lowerBound, marginWidth, left);
      RecordProbe(probes, horizontalResult, left, minimum, marginWidth);
      if left > 1 {
        if horizontalResult[|horizontalResult| - 1] == Paper && minimum == Ink {
          leftBounds := leftBounds + [left];
        }
        if horizontalResult[|horizontalResult| - 1] == Ink && minimum == Paper {
          rightBounds := rightBounds + [right];
        }
      }
      horizontalResult := horizontalResult + [minimum];
    }
    assert probes[..positions] == probes;
  }

  /** The 'sub-line' rows of one band, built from the bounds of its
      horizontal pass: one row per token, parts counted from 1. */
  method BandRows(img: Image, image: string, upperBound: nat, lowerBound: nat, marginWidth: nat, line: nat,
                  tokens: seq<(int, int)>)
    returns (parts: seq<Aoi>)
    requires WellFormed(img) && marginWidth > 0 && upperBound < lowerBound <= Height(img)
    requires tokens == Tokens(img, upperBound, lowerBound, marginWidth)
    ensures parts == LineParts(img, image, upperBound, lowerBound, marginWidth, line)
  {
    ghost var spec := LineParts(img, image, upperBound, lowerBound, marginWidth, line);
    assert |spec| == |tokens|;
    parts := [];
    var partCount := 1;
    for j := 0 to |tokens|
      invariant partCount == j + 1
      invariant parts == spec[..j]
    {
      var (left, right) := tokens[j];
      assert spec[j] == TokenAoi(line, j + 1, left, upperBound, right, lowerBound, marginWidth, image);
      parts := parts + [TokenAoi(line, partCount, left, upperBound, right, lowerBound, marginWidth, image)];
      partCount := partCount + 1;
      assert spec[..j + 1] == spec[..j] + [spec[j]];
    }
    assert spec[..|tokens|] == spec;
  }

  /** The band loop of find_rectangles: per band the horizontal pass and, at
      level 'sub-line', one margin-corrected row per token named
      "line i part j"; line numbers advance for every band. */
  method AssembleTable(img: Image, image: string, level: string, marginWidth: nat, bands: seq<(int, int)>)
    returns (result: Result<seq<Aoi>>)
    requires WellFormed(img) && marginWidth > 0
    requires forall k :: 0 <= k < |bands| ==> 0 <= bands[k].0 && bands[k].1 <= Height(img)
    ensures result == ExtractBands(img, image, level, marginWidth, bands)
  {
    var rows: seq<Aoi> := [];
    var lineCount := 1;
    for i := 0 to |bands|
      invariant lineCount == i + 1
      invariant ExtractBands(img, image, level, marginWidth, bands[..i]) == Ok(rows)
    {
      BandStep(img, image, level, marginWidth, bands, i);
      var (upperBound, lowerBound) := bands[i];
      if lowerBound <= upperBound {
        ErrorPersists(img, image, level, marginWidth, bands, i + 1);
        return Err(EmptyBand);
      }
      var leftBounds, rightBounds := ScanColumns(img, upperBound, lowerBound, marginWidth);
      if level == "sub-line" {
        var tokens := Zip(leftBounds, rightBounds);
        var parts := BandRows(img, image, upperBound, lowerBound, marginWidth, lineCount, tokens);
        rows := rows + parts;
      } else if level == "line" {
        ErrorPersists(img, image, level, marginWidth, bands, i + 1);
        return Err(LineLevelUndefined);
      }
      lineCount := lineCount + 1;
    }
    assert bands[..|bands|] == bands;
    result := Ok(rows);
  }

  /** find_rectangles: the vertical pass, then the band loop over the zipped
      start and end bounds. */
  method FindRectangles(img: Image, image: string, level: string, marginHeight: nat, marginWidth: nat)
    returns (result: Result<seq<Aoi>>)
    requires WellFormed(img) && marginHeight > 0 && marginWidth > 0
    ensures result == Extract(img, image, level, marginHeight, marginWidth)
  {
    var upperBounds, lowerBounds := ScanRows(img, marginHeight);
    var bands := Zip(upperBounds, lowerBounds);
    assert bands == Bands(img, marginHeight);
    BandsInsideImage(img, marginHeight);
    result := AssembleTable(img, image, level, marginWidth, bands);
  }
}
