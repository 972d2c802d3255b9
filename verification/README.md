# Coin counter: calibration and classification model

A Dafny model of the decision layer of a desktop tool that adds up the coins
in a photograph. In `Project.py`, OpenCV first turns the image into marker
labels with a watershed segmentation. The logic modelled here runs after that
pixel work:

- **Denomination table** (`Denominations`): the four coins 1, 2, 5 and 10 with
  reference diameters 20.5, 23.0, 25.0 and 22.0 mm. The table is an ordered
  sequence, because the dictionary's insertion order decides ties. Python's
  `x in table` / `table[x]` lookup of a float answer is `FindKey`.
- **Closest-match classifier** (`Classifier`): `get_coin_denomination` scans
  the table in order. It keeps the entry with the smallest absolute difference
  and accepts an entry only when that difference is strictly below 1.5 mm. The
  scan is modelled step by step (`Step`, `ScanPrefix`). It is proved equal to
  a declarative description: the first closest entry that is within tolerance.
- **Region filter** (`Segmentation`): the loop at the end of
  `segment_and_separate`. Each label's OpenCV measurements (pixel count, the
  largest external contour's area, its minimum enclosing circle) are inputs.
  The filter drops noise labels and emits truncated integer circles in label
  order.
- **Counting step** (`Counting`): the part of `process_image` that runs after
  segmentation. It covers the "no coins" outcome and picks the largest circle
  (first on ties, as Python's `max` does). It rejects a cancelled or unknown
  calibration answer and computes the single-point ratio `D / (2r)`. It then
  classifies every circle and sums the matched denominations.
- **Scenarios** (`Scenarios`): concrete runs on the configured table, proved
  from the general contracts.

Millimetres, ratios and areas are Dafny `real`. This is exact rational
arithmetic, not IEEE floating point.

Points where the model follows what the code actually does:

- The calibration answer comes from a float prompt. The model's prompt is
  therefore an `Option<real>`: `None` means cancelled. An answer counts as a
  denomination when it equals a key numerically, so 5.0 is the coin 5 and 2.5
  is no coin.
- The code hardcodes the tolerance of 1.5 mm inside the classifier. It is not
  a parameter.
- With no circles, the code reports "no coins" and stops. It produces no
  zero-sum result, so the model returns the distinct outcome `NoCoins`.
- A zero calibration radius is not checked defensively. The code would raise
  a division error at `Project.py:132`. The model makes that the outcome
  `ZeroRadius`, and `ProcessRegions` proves it cannot happen for circles that
  come out of the region filter.
- Segmentation returns an ordered list, not a set. Its order is the label
  order.

## Model

| member | source | states |
|---|---|---|
| Denominations.CoinDiametersWellFormed | Project.py:7-12 | The table has four entries. Its keys are distinct and positive, and its diameters are distinct and positive. The diameter of 10 (22.0 mm) is smaller than those of 2 and 5. |
| Denominations.FindKey | Project.py:126-131 | The answer finds no entry exactly when it equals no key numerically. Otherwise the entry found carries a key equal to the answer. |
| Denominations.FindKeyUnique | Project.py:131 | With distinct keys, looking up an entry's own key finds that entry. |
| Classifier.Step | Project.py:19-22 | One loop iteration: an entry replaces the best match only when it is strictly closer and strictly within tolerance. Its meaning is stated by `Classifier.ScanPrefixMeaning`. |
| Classifier.ScanPrefix | Project.py:16-22 | The loop over the table in insertion order, starting from no match and an infinite minimum. Its invariant is `Classifier.ScanPrefixMeaning`. |
| Classifier.ScanPrefixMeaning | Project.py:16-22 | After any number of entries, the scan state either holds no match and an infinite minimum (no entry so far is within tolerance), or holds the key and difference of the first entry so far that is closest and strictly within tolerance. |
| Classifier.Classify | Project.py:14-23 | The result is None exactly when every entry differs from the diameter by at least 1.5 mm. Otherwise it is the key of an entry that is strictly within tolerance, that no entry beats, and that every earlier entry is strictly farther than. |
| Classifier.FirstClosestUnique | Project.py:18-22 | Because a later entry must be strictly closer to win, at most one entry is the first closest. |
| Classifier.ClassifyIff | Project.py:14-23 | The classifier returns v if and only if v is the key of the first closest entry within tolerance. Both directions are proved. |
| Classifier.ClassifyExact | Project.py:18-23 | When no two entries share a diameter, a diameter equal to an entry's reference diameter classifies as that entry's key. |
| Segmentation.Trunc | Project.py:89 | Float-to-int conversion truncates toward zero: the result is at most 1 away from the input, on the zero side. |
| Segmentation.Passes | Project.py:77-88 | The three noise filters: pixel count at least 400, a contour present with area at least 400, and enclosing radius at least 8. That the output holds exactly the passing labels is `Segmentation.FilterPrefixLabels`. |
| Segmentation.Emit | Project.py:89 | The emitted circle truncates the enclosing circle. The integer radius is at most 1 below the float radius, and at least 8 whenever the float radius is. |
| Segmentation.FilterPrefix | Project.py:75-89 | After the first n labels there are at most n circles, and every circle's integer radius is at least 8. |
| Segmentation.FilterRegions | Project.py:74-90 | There is at most one circle per label, and every emitted radius is at least 8 after truncation. |
| Segmentation.FilterPrefixLabels | Project.py:75-89 | The circles for the first n labels correspond one to one, in strictly ascending label order from label 2, to exactly the labels with pixel count at least 400, a contour, contour area at least 400 and enclosing radius at least 8. Each circle is the truncated enclosing circle of its label. |
| Segmentation.FilterRegionsLabels | Project.py:74-90 | The same one-to-one, ascending, exactly-the-passing-labels correspondence holds for the whole label range. |
| Counting.LargestPrefix | Project.py:118 | Among the first n circles, the chosen one has a radius at least every other radius, and every earlier circle is strictly smaller. |
| Counting.Largest | Project.py:118-119 | The calibration circle belongs to the list, its radius is at least every other radius, and it is the first such circle on ties. |
| Counting.Ratio | Project.py:132 | The single-point ratio: multiplied by the calibration circle's pixel diameter, it gives back the reference diameter. `Counting.ReferenceDiameter` applies it to the circle. |
| Counting.PhysicalDiameter | Project.py:138 | A circle's pixel diameter times the ratio. `Counting.ReferenceDiameter` shows it returns the reference diameter for the calibration circle, and `Counting.ScaledDiameter` shows it is unchanged under scaling. |
| Counting.Contribution | Project.py:140-141 | A matched circle adds its denomination and an unmatched one adds nothing. `Counting.TotalZeroIff` and `Counting.TotalAppend` state what this means for the total. |
| Counting.ClassifyAll | Project.py:137-139 | Every circle keeps its position and its geometry. Each is classified from its own diameter under the one ratio of the run. |
| Counting.Total | Project.py:134-141 | The total is non-negative when every matched denomination is positive, and zero when no circle matched. |
| Counting.ClassifyReturnsKey | Project.py:18-23 | Any denomination the classifier returns is a key of the table it scanned. |
| Counting.ClassifyAllPositive | Project.py:7-12 | Against the configured table, every matched denomination is positive. |
| Counting.CalibrationDiameter | Project.py:126-131 | No diameter exactly when the prompt was cancelled or the answer is no key. Otherwise the diameter is the reference diameter of the entry whose key equals the answer. |
| Counting.Tally | Project.py:134-141 | A completed count under the given ratio keeps every circle in order. Each circle's denomination is its classification under that ratio, and the total is the running total of those denominations, which is non-negative. |
| Counting.CountCoins | Project.py:113-141 | The outcome is "no coins" exactly when the list is empty. It is "rejected" exactly when the prompt is cancelled or the answer is no key. It is a division by zero exactly when the answer is valid and the largest radius is 0. A count uses the ratio from the entered denomination and the largest circle. It keeps every circle in order, classifies each one under that ratio, and its total is the running total of the matches, which is non-negative. |
| Counting.ProcessRegions | Project.py:107-132 | On circles produced by the region filter, the calibration never divides by zero. |
| Counting.TotalAppend | Project.py:137-141 | The total over two consecutive runs of circles is the sum of their totals, so it is the sum of the matched denominations whatever the grouping. |
| Counting.TotalZeroIff | Project.py:134-141 | With positive denominations, the total is zero if and only if no circle matched. |
| Counting.ReferenceDiameter | Project.py:132-138 | Under the ratio derived from a circle, that circle's computed diameter is exactly the reference diameter it was calibrated with. |
| Counting.ReferenceClassifiesAsItself | Project.py:118-139 | In every completed count, the largest circle classifies as exactly the denomination entered for it. |
| Counting.LargestPrefixSameOrder | Project.py:118 | The circle chosen for calibration depends only on how the radii compare with each other. |
| Counting.ScalePreservesOrder | Project.py:118 | Multiplying every radius by a positive factor keeps every comparison between radii. |
| Counting.LargestScaled | Project.py:118 | Multiplying every radius by a positive factor does not change which circle is chosen for calibration. |
| Counting.ScaledDiameter | Project.py:132-138 | Multiplying a circle's radius and the calibration radius by the same positive factor leaves its computed diameter unchanged. |
| Counting.TotalDependsOnDenominations | Project.py:140-141 | Two classified lists with the same denominations, position by position, have the same total. |
| Counting.ScaledOutcomeKind | Project.py:113-132 | Multiplying every radius by a positive factor leads to the same kind of outcome. |
| Counting.ScaleInvariance | Project.py:118-141 | Multiplying every radius by a positive factor changes no classification and not the total. |
| Scenarios.TenMatchesByDiameter | Project.py:7-23 | 22.1 mm classifies as 10. Matching follows physical diameter, not the numeric order of denominations. |
| Scenarios.TieGoesToFirstEntry | Project.py:18-22 | 22.5 mm is equally far from 2 and 10. The entry scanned first, 2, wins. |
| Scenarios.ToleranceIsStrict | Project.py:15-20 | 26.5 mm, exactly 1.5 mm from 5, matches nothing. |
| Scenarios.TwoCoinsScenario | Project.py:113-141 | Radii 50 and 46 px, with the larger entered as 2, give a ratio of 0.23. The smaller circle measures 21.16 mm and is a 1, and the total is 3. |
| Scenarios.CancelledPromptScenario | Project.py:126-129 | A cancelled prompt ends the run without a total. |
| Scenarios.UnknownDenominationScenario | Project.py:126-129 | An answer that is not a denomination ends the run without a total. |
| Scenarios.NoCirclesScenario | Project.py:113-116 | With no circles the outcome is "no coins", whatever the prompt. |

## Left out

- The OpenCV pixel pipeline (`Project.py:51-72`), and `findContours`, `contourArea`, `max(cnts, ...)` and `minEnclosingCircle` (lines 76-86). These are library calls on image grids. Their per-label results are the inputs `LabelRegion` and `ContourFit`.
- The label range runs to `num_markers + 1`, and that last label never occurs in the marker image. Its pixel count is 0, so it is always dropped. The model takes one `LabelRegion` per label of the range and needs no special case.
- The exception path around segmentation (`Project.py:106-111`). Its failures come from the image library, which is not part of this model.
- Image file reading and decoding (`Project.py:93-102`): this is I/O.
- The Tkinter interface (`Project.py:25-48`, `153-186`, the message boxes and `withdraw`/`destroy` calls). The `askfloat` prompt is the `Option<real>` input of `CountCoins`.
- Drawing circles and labels on the output image (`Project.py:135`, `142-149`): this is presentation only. The classified list carries the centre, radius and denomination a renderer needs.
- The tolerance is the constant 1.5 mm in the code (`Project.py:15`), not a parameter. The model states no properties for other tolerances, such as a zero tolerance.
- IEEE float rounding. All properties hold over exact reals. In particular, `ReferenceClassifiesAsItself` may fail bit-for-bit in Python floats.
- Counting.Total: the Python total is a float that starts at 0.0. The model sums integer denominations exactly, with no float rounding or overflow.
