# EMIP Toolkit core in Dafny

The EMIP Toolkit (`emip_toolkit.py`) reads eye-movement data from code-reading
experiments and relates gaze to source-code tokens. This project models the
algorithmic core of that file and proves properties of the model:

- **The dispersion fixation filter** of an SMI trial (`SMIRed250_Trial.filter_fixations`).
  It moves a window over the trial's samples. Rejected samples are skipped. When a
  new sample pushes the window's dispersion `(max x - min x) + (max y - min y)`
  over the threshold, that sample is popped. If the remaining window has more
  than `ceil(minimum_duration / sample_duration)` samples, a fixation is recorded
  at its centroid. Then the window is cleared.
  - `fixation_filter.dfy` holds the specification: a left fold `Run` of one `Step` per sample.
  - `trial.dfy` holds the loop itself, `Trials.Trial.FilterFixations`, proved to compute it.
- **Manual offset correction** of a trial (`get_offset`, `sample_offset`, `reset_offset`).
  `Trials.Trial` is a class whose methods update the trial data and the offset
  history in place.
- **AOI extraction** (`find_rectangles`) from a binarised code image, in
  `aoi_extraction.dfy`.
  - A probe box of height `margin_height` slides down the image. The rows where
    the probe's darkest pixel turns from background (255) to ink (0) start a line
    band; the rows where it turns back end one.
  - Inside each band, a probe of width `margin_width` finds the tokens the same way.
  - At level `sub-line`, every token becomes a row named `line i part j`.
  - The image is a grid of pixels (`seq<seq<int>>`). PIL's
    `crop(box).getextrema()` minimum is the function `BoxMin`.
- **Hit testing** (`overlap`, `hit_test`) in `hit_testing.dfy`: a cross join of a
  trial's fixations with the token AOIs, filtered by a box test.
- `records.dfy` holds the shared records (`Sample`, `Fixation`) and the window
  arithmetic (max, min, mean).

The model follows the code as written, including behaviour that its own
comments, docstrings and variable names suggest otherwise (the docstring of
`filter_fixations` cites page 296 of the SMI iView X manual for the method):

- The fixation's timestamp is that of the sample that breached the window, not
  of the window's first sample.
- The duration is `len(window) * 4`, whatever `sample_duration` is.
- A window is recorded only when it holds strictly more than `window_size`
  samples. The comment at `emip_toolkit.py:369` says `>=`; the code uses `>`.
- The breaching sample is dropped; it does not seed the next window.
- `overlap` widens only the left and top edges of an AOI by `radius / 2`. The box
  is shifted by `radius / 2` and grown by `radius / 2`, so its right and bottom
  edges stay where the AOI's are (`HitTesting.RightEdgeNotWidened`). A fixation
  at (50, 50) is therefore not on an AOI at (40, 40) of size 5 x 5, radius 25.
- `reset_offset` empties the history and then calls `sample_offset` with the
  negated total. The history ends up holding that one entry, so `get_offset`
  afterwards reports the negated total, not zero. A second reset re-applies the
  original total (`Trials.ResetTwice`).
- At level `line`, `find_rectangles` fails on the first band. It reads the
  undefined names `up` and `low`, or `left_bounds[0]` of an empty list. The
  model returns `Err(LineLevelUndefined)` (`AoiExtraction.LineLevelFails`).

## Model

| member | source | states |
|---|---|---|
| Records.SinglePointDispersion | emip_toolkit.py:359 | a window of one sample has dispersion 0, so a lone sample never breaches a non-negative threshold |
| Records.MeanBounds | emip_toolkit.py:380-381 | the mean of a window lies between any common lower and upper bound of its elements |
| FixationFilter.CeilDiv | emip_toolkit.py:333 | the result is the ceiling of a / b: the least q with q * b >= a for b > 0, mirrored for b < 0 |
| FixationFilter.Step | emip_toolkit.py:339-386 | one loop iteration keeps the two windows the same length and either leaves the fixation list alone or appends exactly one fixation, stamped with the current sample's timestamp, after the old list, and only when the sample is accepted, breaches the window and the window is longer than the window size |
| FixationFilter.Run | emip_toolkit.py:339-386 | after any prefix of the data the windows have equal length and there are at most as many fixations as samples |
| FixationFilter.WindowFixation | emip_toolkit.py:370-382 | a recorded fixation carries the trial, participant, token "na", the breaching sample's timestamp and a duration of 4 per window sample; a window on screen has its centroid on screen |
| FixationFilter.Detect | emip_toolkit.py:329-392 | the fixation list filter_fixations leaves has at most one fixation per accepted sample |
| FixationFilter.Kept | emip_toolkit.py:341-352 | the filtered stream holds only valid right-eye samples on the 1920 x 1080 screen |
| FixationFilter.EmissionRule | emip_toolkit.py:362-386 | one more sample appends the window's fixation exactly when it is accepted, breaches the threshold and the window is longer than the window size; a breach always clears the window; a rejected sample changes no state |
| FixationFilter.WindowStaysTight | emip_toolkit.py:350-367 | the open window only holds on-screen points and its dispersion never exceeds the threshold |
| FixationFilter.EmittedWellFormed | emip_toolkit.py:370-382 | a fixation emitted on a breach comes from a non-empty window and is well formed |
| FixationFilter.FixationsWellFormed | emip_toolkit.py:370-382 | every fixation carries the trial and participant, token "na", a duration that is a positive multiple of 4 covering more samples than the window size, a centroid on screen, and the timestamp of an accepted sample |
| FixationFilter.RejectedSamplesIgnored | emip_toolkit.py:341-352 | the loop state on a stream equals the loop state on its accepted samples alone |
| FixationFilter.DropRejectedSample | emip_toolkit.py:341-352 | deleting a rejected sample anywhere in the stream leaves the fixation list unchanged |
| FixationFilter.OutputOnlyGrows | emip_toolkit.py:339-392 | fixations are only appended: the list for a stream is a prefix of the list for any extension, so an open window at the end adds nothing |
| FixationFilter.EmptyStream | emip_toolkit.py:330-339 | an empty stream yields no fixation |
| FixationFilter.BreachingSampleStampsAndIsDropped | emip_toolkit.py:362-386 | on a concrete stream the fixation takes the breaching sample's timestamp, duration 4 per sample and the centroid, and the breaching sample does not start the next window |
| Trials.SumOffsetsAppend | emip_toolkit.py:234-241 | the total of a concatenated history is the sum of the two totals |
| Trials.Shifted | emip_toolkit.py:276-288 | shifting keeps the number of samples |
| Trials.ShiftedTwice | emip_toolkit.py:276-288 | shifting by a and then by b equals shifting once by a + b |
| Trials.ReplayIsTotalShift | emip_toolkit.py:229-288 | applying a history offset by offset moves each valid sample by get_offset's total |
| Trials.ResetRestoresSamples | emip_toolkit.py:243-258 | shifting the replayed data by the negated total restores the original samples |
| Trials.Trial.constructor | emip_toolkit.py:292-294 | a new trial holds its data with an empty offset history and no fixations; SMIRed250_Trial.__init__ copies the data and calls Trial.__init__ (lines 187-211) for the rest |
| Trials.SumOffsets | emip_toolkit.py:229-241 | the total of a history is the sum of its x offsets and the sum of its y offsets |
| Trials.Trial.GetOffset | emip_toolkit.py:229-241 | get_offset returns the sums of the x and the y offsets of the history, and (0, 0) for an empty history |
| Trials.Trial.FilterFixations | emip_toolkit.py:307-386 | the loop leaves exactly the fixation list the filter specification Detect gives for the trial data, and changes nothing else |
| Trials.Trial.SampleOffset | emip_toolkit.py:260-288 | the offset is appended to the history, get_offset grows by it, each valid right-eye sample moves by it, all other samples and the fixations are unchanged |
| Trials.Trial.ResetOffset | emip_toolkit.py:243-258 | the history becomes the single negated total, get_offset reports the negated total, and each valid sample moves back by the old total |
| Trials.ResetTwice | emip_toolkit.py:243-258 | two resets in a row give back the original samples and leave the old total as the only history entry |
| Trials.FilterTwice | emip_toolkit.py:329-330 | a second filter_fixations call with the same arguments leaves the same list as the first |
| AoiExtraction.BoxMin | emip_toolkit.py:819 | the minimum of a crop box (the probes at lines 819 and 849) is at most the minimum of each of its rows |
| AoiExtraction.RowMinIsMin | emip_toolkit.py:819 | the row minimum is at most every pixel of the range and equal to one of them |
| AoiExtraction.BoxMinIsMin | emip_toolkit.py:819 | the box minimum is at most every pixel in the box, equals one of them, and is 0 or 255 |
| AoiExtraction.BlankBox | emip_toolkit.py:819 | the box minimum is 255 exactly when every pixel in the box is background |
| AoiExtraction.RisesSpec | emip_toolkit.py:821-824 | the start bounds are exactly the positions after position 1 where a blank probe is followed by an inked one, in increasing order |
| AoiExtraction.FallsSpec | emip_toolkit.py:825-827 | the end bounds are exactly the ink-to-blank positions after position 1 plus the margin, in increasing order |
| AoiExtraction.ScanStep | emip_toolkit.py:821-830 | one more probe adds at most its own position to the start or end bounds |
| AoiExtraction.RowProbes | emip_toolkit.py:814-819 | the vertical pass takes height - margin_height probes, or none when that is not positive |
| AoiExtraction.ColumnProbes | emip_toolkit.py:844-849 | the horizontal pass takes width - margin_width probes, or none when that is not positive |
| AoiExtraction.Zip | emip_toolkit.py:838 | zip pairs the bounds up to the shorter list |
| AoiExtraction.Decimal | emip_toolkit.py:867 | the numeral in an AOI name is the decimal numeral of the number: non-empty, digits only, no leading zero, and its digits denote the number |
| AoiExtraction.Aoi.Name | emip_toolkit.py:867 | a row's name is "line ", the numeral of its line, " part ", the numeral of its part |
| AoiExtraction.NameDeterminesNumbers | emip_toolkit.py:867 | two rows with the same name have the same line and part numbers |
| AoiExtraction.TokenAoi | emip_toolkit.py:876-888 | a token's row is its box narrowed by margin_width / 2 on the left and on the right, with the band's top and bottom, kind 'sub-line' and the code image's name |
| AoiExtraction.ExtractBands | emip_toolkit.py:833-873 | when the band loop returns a table, every band was non-empty and every row has kind 'sub-line' and the code image's name |
| AoiExtraction.Extract | emip_toolkit.py:787-895 | when find_rectangles returns a table, every zipped band was non-empty (the converse of ProperBandsExtract) and every row is a 'sub-line' row of the code image |
| AoiExtraction.BandsInsideImage | emip_toolkit.py:814-838 | every band starts at row 2 or below, before height - margin_height, and ends inside the image |
| AoiExtraction.ErrorPersists | emip_toolkit.py:838-873 | once a band raises, the later bands do not change the outcome |
| AoiExtraction.RowProbesBinary | emip_toolkit.py:805-819 | on a binarised image every vertical probe is 0 or 255 |
| AoiExtraction.Alternation | emip_toolkit.py:821-827 | when the probe at position 1 is blank, start and end bounds alternate: each end follows its start and precedes the next start, with one unmatched start exactly when the scan ends in ink |
| AoiExtraction.ProperBands | emip_toolkit.py:814-838 | if rows 1 to margin_height are blank, every zipped band starts more than margin_height rows above its end |
| AoiExtraction.ProperTokens | emip_toolkit.py:844-866 | if columns 1 to margin_width of a band are blank, every token starts before its end minus the margin and ends before the next token starts |
| AoiExtraction.PositiveTokenWidths | emip_toolkit.py:862-888 | under the same condition every row of the band has positive width and height after the margin correction |
| AoiExtraction.LineLevelFails | emip_toolkit.py:870-871 | level 'line' gives a table exactly when there is no band, and that table is empty |
| AoiExtraction.OtherLevelsEmpty | emip_toolkit.py:862-873 | a level other than 'sub-line' and 'line' adds no row |
| AoiExtraction.ProperBandsExtract | emip_toolkit.py:838-873 | when every band is non-empty, every level except 'line' gives a table |
| AoiExtraction.BlankTopMarginExtracts | emip_toolkit.py:787-895 | find_rectangles returns a table at every level except 'line' for an image whose rows 1 to margin_height are blank |
| AoiExtraction.SubLineRows | emip_toolkit.py:838-888 | when a table is returned, every 'sub-line' row has kind 'sub-line', a line number naming a band and a part number of at least 1; its y and height are that band's; rows are ordered by line, then part |
| AoiExtraction.SubLineTable | emip_toolkit.py:787-895 | the same holds for the whole table find_rectangles returns |
| AoiExtraction.ScanRows | emip_toolkit.py:807-830 | the vertical loop records exactly the start and end bounds of the transition rule over the row probes |
| AoiExtraction.ScanColumns | emip_toolkit.py:841-860 | the horizontal loop records exactly the start and end bounds of the transition rule over the band's column probes |
| AoiExtraction.BandRows | emip_toolkit.py:862-868 | the token loop builds one margin-corrected row per zipped token, parts numbered from 1 |
| AoiExtraction.AssembleTable | emip_toolkit.py:833-873 | the band loop returns exactly the table or error the band specification ExtractBands gives for the zipped bands |
| AoiExtraction.FindRectangles | emip_toolkit.py:787-895 | the method returns the table or error the specification Extract gives |
| HitTesting.Overlap | emip_toolkit.py:1074-1101 | a fixation hits an AOI exactly when x - r/2 <= fx <= x + width and y - r/2 <= fy <= y + height, with all edges inclusive |
| HitTesting.Record | emip_toolkit.py:1139-1161 | code_file and code_language both take the AOI's image name, and length is the token's length |
| HitTesting.HitsOf | emip_toolkit.py:1139-1161 | one fixation yields no more records than there are rows, and every record carries that fixation's trial, participant, timestamp, duration and position (one record per hit row is HitsOfArePairs) |
| HitTesting.HitRecords | emip_toolkit.py:1136-1163 | hit_test returns no more records than the number of fixations times the number of rows (one record per passing pair is HitPairsSpec) |
| HitTesting.PairsOfSpec | emip_toolkit.py:1137-1161 | for one fixation, the records are one per hit row, in row order, and every hit row gives one |
| HitTesting.HitsOfArePairs | emip_toolkit.py:1139-1161 | for one fixation, the k-th record is built from the k-th hit row |
| HitTesting.HitPairsSound | emip_toolkit.py:1104-1163 | every recorded pair names a fixation and an AOI row that pass overlap |
| HitTesting.HitPairsComplete | emip_toolkit.py:1104-1163 | every (fixation, row) pair that passes overlap is recorded |
| HitTesting.HitPairsOrdered | emip_toolkit.py:1104-1163 | recorded pairs come in fixation-major then row order, so none appears twice |
| HitTesting.HitRecordsArePairs | emip_toolkit.py:1139-1161 | the k-th record is built from the k-th recorded pair |
| HitTesting.HitPairsSpec | emip_toolkit.py:1104-1163 | hit_test emits exactly one record per passing pair, none for any other, in fixation-major then row order |
| HitTesting.TwoHitsTwoRecords | emip_toolkit.py:1137-1161 | a fixation on two rows gives two records: matching is many to many, not nearest-AOI |
| HitTesting.RightEdgeNotWidened | emip_toolkit.py:1090-1096 | with radius 25, an AOI at (40, 40) of size 5 x 5 is missed from (50, 50) but hit from (27.5, 27.5) and (45, 45) |
| HitTesting.HitTest | emip_toolkit.py:1104-1163 | the nested loop over the trial's fixations and the rows returns exactly the specification's record list |

## Left out

- Reading images with PIL and converting them with `convert('1')` are not modelled. The model starts from a grid of 0/255 pixels.
- Building pandas data frames is not modelled. Rows are datatypes and tables are sequences. `local_id` (always NaN) is not kept.
- Numbers are exact. Python floats become exact reals, so rounding in the mean, in `radius / 2` and in `x += margin_width / 2` is not modelled.
- Strings are not parsed. The sample columns the filter and `sample_offset` read (tag, right-eye code, x, y) are already parsed. `sample_offset` writes the moved coordinates back as text (`str(x + dx)`); the model stores the number.
- Every sample row is complete: the model's `Sample` always has a tag, a right-eye code and coordinates. In the source, a row too short for the columns read (fewer than 2, or an "SMP" row with fewer than 28, such as the `['']` that `parse_tsv` appends for a file's trailing empty line) makes `filter_fixations` and `sample_offset` raise IndexError part-way through, after earlier samples were processed or already shifted and the offset logged. That failure is not modelled.
- Fixation timestamps are integers. In the source the fixation takes the raw text of column 0.
- The `print` in `hit_test` is output only and is not modelled.
- `hit_test` reads the trial through `get_fixations()`, which returns the list; the model reads the `fixations` field.
- `getextrema()` returns a maximum that `find_rectangles` stores but never reads, so it is not modelled.
- Level `line` of `find_rectangles` raises before it appends anything. It is modelled only as an error (`LineLevelUndefined`), so which of the two Python exceptions is raised is not modelled.
- A band whose zipped end lies at or above its start is modelled as the error `EmptyBand`. This can happen when an end bound comes before the first start, i.e. the probe at row 1 holds ink. The message PIL gives (a refused crop, or extrema of an empty image) is not modelled.
- `AoiExtraction.ExtractBands`: reports `EmptyBand` for such a band even when the image is no wider than `margin_width`. In that case the source makes no horizontal probe, so it does not fail on that band.
- `AoiExtraction.FindRectangles`: requires `margin_height > 0` and `margin_width > 0`. With a zero margin every probe box is empty and the source gets no usable extrema; with a zero `margin_width` and no band at all the source would not raise, and the model does not cover that call.
- `Trials.Trial.FilterFixations`: requires `sample_duration != 0`, since the source divides by it. It also requires a window that is emitted to be non-empty (a non-negative window size or threshold). Otherwise `statistics.mean([])` raises, and the model does not cover that path.
- Reading trial files, the other device parsers, `Saccade` and `Blink` records, drawing, `add_tokens_to_AOIs` and `add_srcml_to_AOIs` lie outside the modelled core. `hit_test` takes rows that already carry a token and a srcML tag.
- The default arguments are not modelled: every caller passes all of them. The defaults are (50, 4, 25) for `filter_fixations`, ('sub-line', 4, 7) for `find_rectangles`, and a radius of 25 for `overlap` and `hit_test`.
- `SMIRed250_Trial` and its base class `Trial` are merged into the one class `Trials.Trial`.
