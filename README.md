# Cheque validation: border pipeline and field extraction

This project models the deterministic core of the cheque validation
application in Dafny and proves properties of it.

- **Border pipeline** (`ChequeBorderProcessor` and `process_directory`):
  - how the four corners of the border are put in top-left, top-right,
    bottom-right, bottom-left order;
  - which contour is taken as the border (the first of the five largest that
    approximates to a quadrilateral);
  - the size of the rectified image and the destination corners it is
    warped onto;
  - how an exception at any stage becomes `False`;
  - which files of a directory are processed, where their results go, and
    what count is printed.
- **Text side** (`extract_cheque_info` and the clean-up of the language
  model's reply):
  - each of the seven regular expressions is a scanner proved to behave as
    Python's `re.search` with `group(1)`: the leftmost match, with the
    regex engine's preference among alternatives and repetitions;
  - the result dictionary;
  - the removal of code fences from the reply.

OpenCV is not modelled. Each OpenCV call the processor makes is a function
field of an `OpenCv` value. The calls that can fail in the model return a
`Result`, and a raise is an `Err`. `contourArea`, `arcLength` and
`approxPolyDP` are total functions, and the structuring element is the
constant 5x5 rectangle (see "## Left out"). The files the pipeline reads
and writes are seen through the same value.

Files, one module each:

| file | module | contents |
|---|---|---|
| `results.dfy` | `Results` | the `Option`, `Result` and `Error` datatypes |
| `geometry.dfy` | `Geometry` | `_order_points`; the width, height and `dst` of `_perspective_transform` |
| `contours.dfy` | `Contours` | the stable descending sort by area and the top-five cut |
| `border_processing.dfy` | `BorderProcessing` | `_preprocess`, `_find_border_contour`, `_perspective_transform`, `_resize_image`, `process_image` |
| `batch.dfy` | `Batch` | `process_directory` |
| `text.dfy` | `Text` | character classes (`\d`, `\w`, `\s`), case folding, word boundaries |
| `cheque_fields.dfy` | `ChequeFields` | the seven patterns as scanners, their regex semantics, `extract_cheque_info` |
| `cheque_facts.dfy` | `ChequeFacts` | what each extracted field looks like |
| `fences.dfy` | `Fences` | `replace("```json", "").replace("```", "").strip()` |

## Model

| member | source | states |
|---|---|---|
| Geometry.ArgMin | cheque_validation_project/border_processing.py:104-109 | `np.argmin`: the index of a least key, and no earlier index has a key as small. |
| Geometry.ArgMax | cheque_validation_project/border_processing.py:104-110 | `np.argmax`: the index of a greatest key, and no earlier index has a key as great. |
| Geometry.OrderedCorners | cheque_validation_project/border_processing.py:103-111 | The four rows of `rect`: `pts[argmin(x+y)]`, `pts[argmin(y-x)]`, `pts[argmax(x+y)]`, `pts[argmax(y-x)]`; their meaning is proved in `OrderedCornersSpec`. |
| Geometry.OrderPoints | cheque_validation_project/border_processing.py:101-111 | Returns a fresh four-element array holding, in order, the points of least coordinate sum, least `y - x`, greatest sum and greatest `y - x`. On ties the lowest index wins, as with `np.argmin`/`np.argmax`. |
| Geometry.OrderedCornersSpec | cheque_validation_project/border_processing.py:104-110 | Every ordered corner is one of the input points. Slot 0 has the least sum and slot 2 the greatest; slot 1 has the least `y - x` and slot 3 the greatest. Each slot is the earliest input point with that extreme key. |
| Geometry.TopLeftPicked | cheque_validation_project/border_processing.py:104-105 | Four input points that are the corners of an axis-aligned rectangle with positive sides, in any order: the least-sum point is the top-left corner. |
| Geometry.TopRightPicked | cheque_validation_project/border_processing.py:108-109 | For such corners, the point of least `y - x` is the top-right corner. |
| Geometry.BottomRightPicked | cheque_validation_project/border_processing.py:104-106 | For such corners, the greatest-sum point is the bottom-right corner. |
| Geometry.BottomLeftPicked | cheque_validation_project/border_processing.py:108-110 | For such corners, the point of greatest `y - x` is the bottom-left corner. |
| Geometry.PermutationHasSameCorners | cheque_validation_project/border_processing.py:101-111 | Two point lists that are permutations of each other have the same members: every point of one is in the other. |
| Geometry.OrderRectangle | cheque_validation_project/border_processing.py:101-111 | Ordering any permutation of an axis-aligned rectangle's corners gives exactly TL, TR, BR, BL. |
| Geometry.DiamondRepeatsACorner | cheque_validation_project/border_processing.py:104-110 | For the diamond (0,1), (1,0), (2,1), (1,2), the ordering puts the same input point in slots 0 and 3. It is not a permutation of the input. |
| Geometry.FloorSqrt | cheque_validation_project/border_processing.py:77-83 | The result is the integer square root: `r*r <= n < (r+1)*(r+1)`. |
| Geometry.FloorSqrtOfSquare | cheque_validation_project/border_processing.py:77-83 | The integer square root of `k*k` is `k`, so an edge along an axis has exactly its length. |
| Geometry.EdgeLength | cheque_validation_project/border_processing.py:77-82 | `int(np.linalg.norm(p - q))` on integer points: the largest `n` with `n*n` at most the squared distance. |
| Geometry.OutputSize | cheque_validation_project/border_processing.py:77-83 | The width is at least both the bottom edge (BR-BL) and the top edge (TR-TL), and equals one of them. The height is at least both the right edge (TR-BR) and the left edge (TL-BL), and equals one of them. |
| Geometry.HorizontalEdge | cheque_validation_project/border_processing.py:77-78 | A horizontal edge's length is the difference of its x coordinates. |
| Geometry.VerticalEdge | cheque_validation_project/border_processing.py:81-82 | A vertical edge's length is the difference of its y coordinates. |
| Geometry.Destination | cheque_validation_project/border_processing.py:86-90 | `dst` is the rectangle with corners (0,0) and (w-1,h-1), listed TL, TR, BR, BL. |
| Geometry.DestinationIsOrdered | cheque_validation_project/border_processing.py:86-90 | Ordering `dst` (for w, h >= 2) leaves it unchanged, so `dst` already follows `_order_points`' convention. |
| Geometry.DestinationSize | cheque_validation_project/border_processing.py:77-90 | Measuring `dst` gives (w-1, h-1): the destination is one pixel smaller than the size it was made from. |
| Geometry.FullFrameSize | cheque_validation_project/border_processing.py:71-90 | A border whose corners are a permutation of a w x h frame's `dst` gets an output size of (w-1, h-1). |
| Contours.Insert | cheque_validation_project/border_processing.py:61 | Inserting a contour adds exactly that contour: one longer, and the multiset of contours gains it. |
| Contours.InsertKeepsDescending | cheque_validation_project/border_processing.py:61 | Inserting into an area-descending list keeps it area-descending. |
| Contours.InsertKeepsAreaOrder | cheque_validation_project/border_processing.py:61 | Among contours of equal area, the inserted one goes before all existing ones. Contours of equal area keep their relative order. |
| Contours.SortByAreaDesc | cheque_validation_project/border_processing.py:61 | `sorted(..., key=contourArea, reverse=True)` returns a permutation of the input in descending order of area. |
| Contours.SortIsStable | cheque_validation_project/border_processing.py:61 | For each area, the contours of that area appear in the sorted list in their original relative order (Python's sort is stable). |
| Contours.OfAreaMembers | cheque_validation_project/border_processing.py:61 | The contours of a given area are exactly the members having that area. |
| Contours.StableDescendingIsUnique | cheque_validation_project/border_processing.py:61 | Two descending lists that agree on the order within every area are equal, so the sorted order is fully determined. |
| Contours.Candidates | cheque_validation_project/border_processing.py:61 | `[:5]` keeps `min(5, n)` contours, the first ones of the sorted list. |
| Contours.CandidatesAreLargest | cheque_validation_project/border_processing.py:61 | The candidates are descending and drawn from the contours (sub-multiset). No contour left out is larger than any candidate. |
| BorderProcessing.Preprocess | cheque_validation_project/border_processing.py:43-56 | `_preprocess`: grey conversion, a 5x5 Gaussian blur, Canny with thresholds 50 and 200, a closing with a 5x5 rectangle, then the optional `intermediate_edged.jpg` dump; the first call that raises ends it. Its dump is characterised by `DebugDump` and `PreprocessDumpIsInert`. |
| BorderProcessing.DebugDump | cheque_validation_project/border_processing.py:53-54 | Without `save_intermediate` the image passes through. With it, the image still passes through unless the writer raises, and it fails exactly when the writer raises. |
| BorderProcessing.PreprocessDumpIsInert | cheque_validation_project/border_processing.py:43-56 | A successful preprocessing returns the same image with or without the debug dump. Without `save_intermediate` the writer's behaviour is irrelevant. |
| BorderProcessing.Approx | cheque_validation_project/border_processing.py:64-65 | A contour's `approxPolyDP` at tolerance 0.02 times its closed arc length. |
| BorderProcessing.FirstQuadrilateral | cheque_validation_project/border_processing.py:63-69 | A found border has four points. Failure is the `ValueError("No quadrilateral contour found")`. |
| BorderProcessing.FirstQuadrilateralIsFirst | cheque_validation_project/border_processing.py:63-69 | Search succeeds iff some candidate approximates to four vertices. Then the result is the approximation of a candidate none of whose predecessors is a quadrilateral. |
| BorderProcessing.LocateBorder | cheque_validation_project/border_processing.py:58-69 | A border that is found has four points. |
| BorderProcessing.LocateBorderExamined | cheque_validation_project/border_processing.py:58-69 | At most five candidates are examined, in descending area. The only failure is the no-quadrilateral error, raised iff no candidate approximates to four vertices, and always when there are no contours. On success the border is the approximation of the first candidate with four vertices. |
| BorderProcessing.FirstQuadrilateralStep | cheque_validation_project/border_processing.py:63-67 | One loop iteration either returns the current candidate's approximation or moves to the next candidate. |
| BorderProcessing.FindBorderContour | cheque_validation_project/border_processing.py:58-69 | The loop over the candidates returns what `LocateBorder` specifies. |
| BorderProcessing.Rectify | cheque_validation_project/border_processing.py:71-99 | A successful rectification is the warp of the image, at the computed size `(w, h)`, by the transform that takes the ordered corners to `(0,0)`, `(w-1,0)`, `(w-1,h-1)`, `(0,h-1)` in that order. A failing transform is the result. Without `save_intermediate`, the warp's own outcome is the result. |
| BorderProcessing.PerspectiveTransform | cheque_validation_project/border_processing.py:71-99 | The method (corners from `OrderPoints`, sizes, `dst`, transform, warp, optional dump) returns what `Rectify` specifies. |
| BorderProcessing.ResizeImage | cheque_validation_project/border_processing.py:113-115 | `cv2.resize` to the processor's `output_size` with `INTER_AREA`. |
| BorderProcessing.RunPipeline | cheque_validation_project/border_processing.py:15-41 | The stages that completed are a prefix of read, preprocess, border, rectify, resize, write. No exception was raised iff all six completed. |
| BorderProcessing.UnreadableImage | cheque_validation_project/border_processing.py:19-21 | An image `imread` cannot read ends the run before any stage with `ValueError("Could not read image: <path>")`. |
| BorderProcessing.SuccessWritesResult | cheque_validation_project/border_processing.py:19-37 | A successful run read the image, preprocessed it, found a border, rectified and resized it, and wrote the result to the output path without a raise. |
| BorderProcessing.ProcessImage | cheque_validation_project/border_processing.py:15-41 | Returns `True` iff no stage raised. |
| Batch.LowerAll | cheque_validation_project/border_processing.py:126 | `lower()` keeps the length and lowers each character. |
| Batch.ImageNameIgnoresCase | cheque_validation_project/border_processing.py:126 | A name passes the suffix test iff its lower-cased form does. |
| Batch.IsImageName | cheque_validation_project/border_processing.py:126 | The lower-cased name ends with `.png`, `.jpg` or `.jpeg`. |
| Batch.Join | cheque_validation_project/border_processing.py:127-128 | POSIX `os.path.join(a, b)`: an absolute `b` replaces `a`; otherwise a `/` is put between them unless `a` is empty or already ends with one. |
| Batch.JobFor | cheque_validation_project/border_processing.py:127-128 | The input path `join(input_dir, name)` and the output path `join(output_dir, "processed_" + name)`. |
| Batch.ImageNames | cheque_validation_project/border_processing.py:125-126 | The names passing the suffix test, in listing order: no more than the listing, each an image name taken from it. |
| Batch.Plan | cheque_validation_project/border_processing.py:125-128 | There are no more jobs than names in the listing. |
| Batch.PlanFollowsImageNames | cheque_validation_project/border_processing.py:125-128 | There is exactly one job per image name, in listing order: job `k` is the job of the `k`-th image name. |
| Batch.PlanCoversImages | cheque_validation_project/border_processing.py:125-128 | Every image name of the listing gets its job, and every job comes from an image name. |
| Batch.OutputInOutputDir | cheque_validation_project/border_processing.py:128 | The output path starts with the output directory and ends with `processed_` + the file name. |
| Batch.CountWhere | cheque_validation_project/border_processing.py:130-131 | The count never exceeds the number of jobs. |
| Batch.CountWhereBounds | cheque_validation_project/border_processing.py:130-131 | The count equals the number of jobs iff every job succeeds, and is zero iff none does. |
| Batch.ProcessDirectory | cheque_validation_project/border_processing.py:117-133 | The count printed is the number of image files, in listing order, on which `process_image` succeeds with a fresh processor of the target size and no debug dumps. It is at most the number of image names in the listing. |
| ChequeFields.Key | cheque_validation_project/utils.py:81-89 | The dictionary key of each field: `chequeNumber`, `accountNumber`, `amount_numbers`, `amount_words`, `date`, `payee`, `bank`. |
| ChequeFields.IsMatch | cheque_validation_project/utils.py:82-88 | The declarative meaning of each pattern: when it matches at a position with a given alternative and group span. |
| ChequeFields.IsBest | cheque_validation_project/utils.py:82-88 | A match the regex engine reports at a position: no other match there is preferred to it in backtracking order. |
| ChequeFields.IsFirstMatch | cheque_validation_project/utils.py:82-91 | The match `re.search` reports: the best match at the leftmost position that has any match. |
| ChequeFields.ScanDigits | cheque_validation_project/utils.py:82-83 | A result is a `\b(\d{lo,hi})\b` match at the position. |
| ChequeFields.ScanDigitsComplete | cheque_validation_project/utils.py:82-83 | If `\b(\d{lo,hi})\b` matches at a position, the scanner returns that match. |
| ChequeFields.ScanDate | cheque_validation_project/utils.py:86 | The scanner returns a `\b(\d{2}/\d{2}/\d{4})\b` match at the position iff there is one. |
| ChequeFields.GroupsEnd | cheque_validation_project/utils.py:84 | Greedy `(?:,\d{3})*` stops at the end of the comma groups; no further group follows. |
| ChequeFields.GroupsEndAtPoint | cheque_validation_project/utils.py:84 | If the groups are followed by `.`, the greedy repetition ends exactly there. |
| ChequeFields.ScanAmount | cheque_validation_project/utils.py:84 | A result is a `\b(\d{1,3}(?:,\d{3})*\.\d{2})\b` match at the position. |
| ChequeFields.ScanAmountComplete | cheque_validation_project/utils.py:84 | If the amount pattern matches at a position, the scanner returns that match, including after backtracking over the digit and group repetitions. |
| ChequeFields.LastStart | cheque_validation_project/utils.py:85-88 | The greedy separator run, with backtracking: the rightmost start at which the capture can begin, or none. |
| ChequeFields.ScanShapeAlt | cheque_validation_project/utils.py:85-88 | A result is a match of the chosen keyword alternative at the position. |
| ChequeFields.ScanShapeAltFirst | cheque_validation_project/utils.py:85-88 | If that alternative matches, the scanner returns the match the regex engine prefers (longest greedy run first). |
| ChequeFields.ScanShapeFrom | cheque_validation_project/utils.py:85-88 | A result is a match of some alternative from the given one on. |
| ChequeFields.ScanShapeFromFirst | cheque_validation_project/utils.py:85-88 | Alternatives are tried left to right, and the first that matches gives the engine's preferred match. |
| ChequeFields.ScanShapeAt | cheque_validation_project/utils.py:85-88 | Any match of the pattern at a position is the scanner's match or is less preferred than it. |
| ChequeFields.ScanAt | cheque_validation_project/utils.py:82-88 | For each field, the scanner returns the regex engine's preferred match at the position. On `None` the pattern has no match there. |
| ChequeFields.Search | cheque_validation_project/utils.py:82-88 | `re.search` returns the preferred match at the leftmost position with a match. It returns `None` iff no position matches. |
| ChequeFields.Extract | cheque_validation_project/utils.py:91 | `match.group(1) if match else None`: `None` iff there is no match anywhere. Otherwise the result is group 1 of the first match. |
| ChequeFields.ExtractChequeInfo | cheque_validation_project/utils.py:79-92 | The dictionary has exactly the seven field keys, each mapped to its pattern's group 1 or `None`. |
| ChequeFields.KeyIsInjective | cheque_validation_project/utils.py:81-89 | The seven keys are distinct, so no field hides another. |
| ChequeFacts.FirstMatchIsUnique | cheque_validation_project/utils.py:82-91 | The first match of a field is unique: same position, same alternative, same span. |
| ChequeFacts.BestOf | cheque_validation_project/utils.py:91 | An extracted value is the capture of a preferred match. |
| ChequeFacts.DigitFieldValue | cheque_validation_project/utils.py:82-83 | A cheque or account number is a whole word of 6-12 (or 10-16) ASCII digits, with word boundaries on both sides. |
| ChequeFacts.DigitFieldOfOneWord | cheque_validation_project/utils.py:82-83 | For a text that is one word, the field is the text iff it is all digits with a length in range, and `None` otherwise. |
| ChequeFacts.ChequeAndAccountOverlap | cheque_validation_project/utils.py:82-83 | A 10-12 digit number is extracted both as the cheque number and as the account number. |
| ChequeFacts.DateValue | cheque_validation_project/utils.py:86 | A date is ten characters `dd/dd/dddd` with word boundaries on both sides. |
| ChequeFacts.AmountValue | cheque_validation_project/utils.py:84 | An amount starts with a digit and ends with `.` and two digits. There are word boundaries on both sides. |
| ChequeFacts.AmountStartsWithDigit | cheque_validation_project/utils.py:84 | A match of the amount pattern starts at a digit. |
| ChequeFacts.UngroupedAmountIsRejected | cheque_validation_project/utils.py:84 | Four or more digits without a thousands comma, then `.dd`, give no amount. |
| ChequeFacts.WholeCapture | cheque_validation_project/utils.py:85-88 | The capture of a preferred keyword match is a maximal run of its class. |
| ChequeFacts.AmountWordsValue | cheque_validation_project/utils.py:85 | The amount in words is a non-empty, maximal run of letters, whitespace and `-`. |
| ChequeFacts.LineCapture | cheque_validation_project/utils.py:87-88 | A `(.+)`/`(.*)` capture contains no newline and ends at a newline or at the end of the text. |
| ChequeFacts.PayeeValue | cheque_validation_project/utils.py:87 | The payee is a non-empty rest of a line. |
| ChequeFacts.PayeeAfterColon | cheque_validation_project/utils.py:87 | On `"Payee: Ann"` the payee is `"Ann"`: the `ee` alternative is taken and the separator run is skipped. |
| ChequeFacts.BankFound | cheque_validation_project/utils.py:88 | There is a bank value iff "bank" occurs in the text, in any case. |
| ChequeFacts.BankValue | cheque_validation_project/utils.py:88 | The bank is a possibly empty rest of a line. |
| ChequeFacts.BankOnNextLine | cheque_validation_project/utils.py:88 | On `"Bank\nX"` the bank is `"X"`: `[:\s]*` crosses the newline. |
| Text.Lower | cheque_validation_project/utils.py:85-88 | Case folding maps each ASCII capital to its own small letter (code point plus 32) and leaves every other character unchanged. |
| Text.IsSpace | cheque_validation_project/utils.py:85-88 | `\s`: exactly the characters for which Python's `str.isspace()` holds. |
| Text.IsWord | cheque_validation_project/utils.py:82-86 | `\w` on ASCII: letters, digits and `_`. |
| Text.AtBoundary | cheque_validation_project/utils.py:82-86 | `\b`: exactly one of the neighbouring characters is a word character, with outside the text counting as non-word. |
| Text.CiAt | cheque_validation_project/utils.py:85-88 | A literal occurs at a position under `re.IGNORECASE` (ASCII folding). |
| Text.RunOf | cheque_validation_project/utils.py:85-88 | A greedy run of a character class: every character in it belongs to the class, and the next one does not. |
| Text.RunBound | cheque_validation_project/utils.py:85-88 | No run of the class from a position is longer than the greedy one. |
| Text.RunEnds | cheque_validation_project/utils.py:85-88 | A run of the class followed by a non-member is the greedy run. |
| Fences.StripFences | cheque_validation_project/utils.py:135 | `reply.replace("```json", "").replace("```", "").strip()`; its properties are proved in `StripFencesClean` and `UnwrapsFencedReply`. |
| Fences.Strip | cheque_validation_project/utils.py:135 | `str.strip()` as `lstrip` followed by `rstrip`; proved a slice of its input without surrounding whitespace in `StripIsSlice` and `StripIsStripped`. |
| Fences.RemoveAll | cheque_validation_project/utils.py:135 | `str.replace(pat, "")` never lengthens the text. |
| Fences.TrimStart | cheque_validation_project/utils.py:135 | `lstrip()` removes a whitespace prefix and leaves a suffix that starts with a non-space. |
| Fences.TrimEnd | cheque_validation_project/utils.py:135 | `rstrip()` removes a whitespace suffix and leaves a prefix that ends with a non-space. |
| Fences.BackticksFirstOfRemoved | cheque_validation_project/utils.py:135 | If the result of removing "```" starts with one or two backticks, the input did too. |
| Fences.NoFenceAfterRemoval | cheque_validation_project/utils.py:135 | After `.replace("```", "")` no "```" is left: removal never joins backticks into a new fence. |
| Fences.StripIsSlice | cheque_validation_project/utils.py:135 | `strip()` returns a contiguous part of the text. |
| Fences.StripIsStripped | cheque_validation_project/utils.py:135 | The stripped text neither starts nor ends with whitespace. |
| Fences.StripFencesClean | cheque_validation_project/utils.py:135 | The cleaned reply contains no "```" and has no surrounding whitespace. |
| Fences.RemoveAllSkipsPlainPrefix | cheque_validation_project/utils.py:135 | A prefix without backticks passes through a fence removal unchanged. |
| Fences.StripBetweenSpace | cheque_validation_project/utils.py:135 | Stripping recovers a stripped text from between runs of whitespace. |
| Fences.UnwrapsFencedReply | cheque_validation_project/utils.py:135 | A reply of the form "```json", newline, body, newline, "```" becomes the body, provided the body has no backticks and no surrounding whitespace. |

## Left out

- OpenCV itself is not modelled. `cvtColor`, `GaussianBlur`, `Canny`,
  `morphologyEx`, `findContours`, `contourArea`,
  `arcLength`, `approxPolyDP`, `getPerspectiveTransform`, `warpPerspective`,
  `resize`, `imread` and `imwrite` are function fields of `OpenCv`. Their
  numerics and pixels are outside the model.
- BorderProcessing.FirstQuadrilateral: `contourArea`, `arcLength` and
  `approxPolyDP` are assumed never to raise, since they are total functions
  in the model. `getStructuringElement` is the constant 5x5 rectangle. A
  `cv2.error` from one of these calls, which `process_image` would turn
  into `False`, cannot occur in the model.
- Geometry.EdgeLength: `int(np.linalg.norm(..))` is modelled as the integer
  square root of the exact squared distance between integer points. The
  float rounding of `norm` and the `float32` corners are not modelled.
  Integer coordinates are assumed, as `findContours` returns them.
- Geometry.OrderPoints: `np.diff` is taken as `y - x`, as the code computes
  it. The ordering is not required to give four distinct points, and
  `DiamondRepeatsACorner` shows an input where it does not.
- Geometry.Destination: no check rejects a width or height of zero or one.
  The code has none, and `warpPerspective` then decides.
- BorderProcessing.ProcessImage: `cv2.imwrite`'s boolean result is ignored,
  as in the code. Only a raise counts as a failure, so a write that returns
  `False` still reports success.
- BorderProcessing.ProcessImage: the error message printed on failure is
  not modelled. I/O is not modelled: the model keeps only the exception
  value in `Run.error`.
- Batch.ProcessDirectory:
  - the `os.path.exists`/`os.makedirs` call and the final `print` are I/O
    and are left out;
  - the order of `os.listdir` is a parameter;
  - the files are a fixed environment, so a write during the batch does not
    change what later reads see;
  - the count is stated through `Succeeds`, i.e. through `RunPipeline` on
    each job.
- Batch.Join models POSIX `os.path.join` only.
- Text: `\d`, `\w` and `re.IGNORECASE` are modelled on ASCII. Unicode
  digits, letters and case folding are not modelled. `\s` is Python's
  complete `str.isspace` set, Unicode separators included.
- Only `extract_cheque_info` and the fence clean-up at `utils.py:135` are
  modelled on the text side. The following are not part of this model:
  - the rest of `utils.py`: the Gemini request, `json.loads` of the reply
    and the MongoDB storage;
  - the PIL preprocessing, PDF conversion and cropping;
  - `gemini.py`, `main.py`, `test_env.py` and the Streamlit pages.
- ChequeFacts.BankValue: the bank value can come from a later line,
  because `[:\s]*` also consumes newlines (see `BankOnNextLine`). The model
  follows the code here.
