/** `ChequeBorderProcessor`: finds the cheque's border in a photograph,
    rectifies it and writes the result.

    OpenCV and the image files are outside the model: every call the
    processor makes is a function supplied in an `OpenCv` value. The calls
    that may raise return `Err` for a raise; `contourArea`, `arcLength` and
    `approxPolyDP` are taken to be total. What is modelled is the decision
    logic around those calls: which contour is taken for the border, the
    corner order, the size of the rectified image, and how failures end
    the pipeline. */
module BorderProcessing {
  import opened Results
  import opened Geometry
  import opened Contours

  /** An image as OpenCV holds it; its pixels are not modelled. */
  type Image(==)

  /** A 3x3 perspective transform. */
  type Matrix = seq<seq<real>>

  /** A `(width, height)` pair as OpenCV takes it. */
  datatype Size = Size(width: int, height: int)

  /** `cv2.getStructuringElement(cv2.MORPH_RECT, (w, h))`. */
  datatype Kernel = RectKernel(w: int, h: int)

  /** The environment: OpenCV's functions and the image files. */
  datatype OpenCv = OpenCv(
    imread: string -> Option<Image>,                        // None for an unreadable file
    imwrite: (string, Image) -> Result<bool>,               // the flag is ignored by the processor
    cvtColorToGray: Image -> Result<Image>,                 // COLOR_BGR2GRAY
    gaussianBlur: (Image, (int, int), real) -> Result<Image>,
    canny: (Image, int, int) -> Result<Image>,
    morphClose: (Image, Kernel) -> Result<Image>,           // morphologyEx(.., MORPH_CLOSE, ..)
    findContours: Image -> Result<seq<Contour>>,            // RETR_LIST, CHAIN_APPROX_SIMPLE
    contourArea: Contour -> real,
    arcLength: (Contour, bool) -> real,
    approxPolyDP: (Contour, real, bool) -> seq<Point>,
    getPerspectiveTransform: (seq<Point>, seq<Point>) -> Result<Matrix>,
    warpPerspective: (Image, Matrix, Size) -> Result<Image>,
    resizeArea: (Image, Size) -> Result<Image>)             // resize(.., interpolation=INTER_AREA)

  /** The processor's configuration; it never changes after construction. */
  datatype Processor = Processor(outputSize: Size, saveIntermediate: bool)

  /** `ChequeBorderProcessor()` with its default arguments. */
  const DefaultProcessor := Processor(Size(600, 300), false)

  const EdgedDump := "intermediate_edged.jpg"
  const WarpedDump := "intermediate_warped.jpg"
  const NoQuadrilateral := "No quadrilateral contour found"

  /** Writes a debug image when the processor is asked to; only a raise
      from the writer matters. */
  function DebugDump(p: Processor, cv: OpenCv, name: string, image: Image): (r: Result<Image>)
    ensures !p.saveIntermediate ==> r == Ok(image)
    ensures r.Ok? ==> r.value == image
    ensures r.Err? <==> p.saveIntermediate && cv.imwrite(name, image).Err?
  {
    if p.saveIntermediate then
      var _ :- cv.imwrite(name, image);
      Ok(image)
    else Ok(image)
  }

  // ---------------------------------------------------------------------
  // _preprocess

  /** Grey, Gaussian blur with a 5x5 kernel, Canny edges with thresholds
      50 and 200, then a closing with a 5x5 rectangle. */
  function Preprocess(p: Processor, cv: OpenCv, image: Image): Result<Image> {
    var gray :- cv.cvtColorToGray(image);
    var blurred :- cv.gaussianBlur(gray, (5, 5), 0.0);
    var edged :- cv.canny(blurred, 50, 200);
    var closed :- cv.morphClose(edged, RectKernel(5, 5));
    DebugDump(p, cv, EdgedDump, closed)
  }

  /** The debug dump does not change what preprocessing returns when it
      succeeds, and without `save_intermediate` the writer is never
      consulted. */
  lemma PreprocessDumpIsInert(p: Processor, cv: OpenCv, image: Image, w: (string, Image) -> Result<bool>)
    ensures Preprocess(p, cv, image).Ok? ==>
              Preprocess(p.(saveIntermediate := false), cv, image) == Preprocess(p, cv, image)
    ensures !p.saveIntermediate ==> Preprocess(p, cv.(imwrite := w), image) == Preprocess(p, cv, image)
  {
  }

  // ---------------------------------------------------------------------
  // _find_border_contour

  /** `cv2.approxPolyDP(c, 0.02 * cv2.arcLength(c, True), True)`. */
  function Approx(cv: OpenCv, c: Contour): seq<Point> {
    cv.approxPolyDP(c, 0.02 * cv.arcLength(c, true), true)
  }

  /** The first of `cands` whose approximation has four vertices. */
  function FirstQuadrilateral(cv: OpenCv, cands: seq<Contour>): (r: Result<seq<Point>>)
    ensures r.Ok? ==> |r.value| == 4
    ensures r.Err? ==> r.error == Raised(NoQuadrilateral)
  {
    if cands == [] then Err(Raised(NoQuadrilateral))
    else if |Approx(cv, cands[0])| == 4 then Ok(Approx(cv, cands[0]))
    else FirstQuadrilateral(cv, cands[1..])
  }

  /** The search finds a quadrilateral exactly when some candidate is one,
      and then it is the earliest. */
  lemma {:induction false} FirstQuadrilateralIsFirst(cv: OpenCv, cands: seq<Contour>)
    ensures FirstQuadrilateral(cv, cands).Ok? <==> exists k :: 0 <= k < |cands| && |Approx(cv, cands[k])| == 4
    ensures FirstQuadrilateral(cv, cands).Ok? ==>
      exists k :: 0 <= k < |cands| && FirstQuadrilateral(cv, cands).value == Approx(cv, cands[k])
               && forall j :: 0 <= j < k ==> |Approx(cv, cands[j])| != 4
  {
    if cands != [] && |Approx(cv, cands[0])| != 4 {
      var rest := cands[1..];
      FirstQuadrilateralIsFirst(cv, rest);
      assert forall k :: 1 <= k < |cands| ==> cands[k] == rest[k - 1];
      if FirstQuadrilateral(cv, rest).Ok? {
        var k :| 0 <= k < |rest| && FirstQuadrilateral(cv, rest).value == Approx(cv, rest[k])
                 && forall j :: 0 <= j < k ==> |Approx(cv, rest[j])| != 4;
        assert FirstQuadrilateral(cv, cands).value == Approx(cv, cands[k + 1]);
      }
    } else if cands != [] {
      assert FirstQuadrilateral(cv, cands).value == Approx(cv, cands[0]);
    }
  }

  /** `_find_border_contour` as a function: the contours, the five
      largest, the first that approximates to a quadrilateral. */
  function LocateBorder(cv: OpenCv, edges: Image): (r: Result<seq<Point>>)
    ensures r.Ok? ==> |r.value| == 4
  {
    var contours :- cv.findContours(edges);
    FirstQuadrilateral(cv, Candidates(contours, cv.contourArea))
  }

  /** Only the five largest contours are examined: when OpenCV finds no
      contour, or none of the candidates approximates to four vertices, the
      search raises "No quadrilateral contour found"; otherwise it returns
      the first quadrilateral among them in descending-area order. */
  lemma LocateBorderExamined(cv: OpenCv, edges: Image)
    requires cv.findContours(edges).Ok?
    ensures var cands := Candidates(cv.findContours(edges).value, cv.contourArea);
      |cands| <= TopCandidates
      && Descending(cands, cv.contourArea)
      && (LocateBorder(cv, edges).Err? <==> LocateBorder(cv, edges) == Err(Raised(NoQuadrilateral)))
      && (LocateBorder(cv, edges).Err? <==> forall k :: 0 <= k < |cands| ==> |Approx(cv, cands[k])| != 4)
      && (cv.findContours(edges).value == [] ==> LocateBorder(cv, edges) == Err(Raised(NoQuadrilateral)))
      && (LocateBorder(cv, edges).Ok? ==>
            exists k :: 0 <= k < |cands| && LocateBorder(cv, edges).value == Approx(cv, cands[k])
                     && forall j :: 0 <= j < k ==> |Approx(cv, cands[j])| != 4)
  {
    var cands := Candidates(cv.findContours(edges).value, cv.contourArea);
    CandidatesAreLargest(cv.findContours(edges).value, cv.contourArea);
    FirstQuadrilateralIsFirst(cv, cands);
  }

  /** One step of the search: the candidate at `i` is taken when it
      approximates to four vertices, and otherwise the search moves on. */
  lemma FirstQuadrilateralStep(cv: OpenCv, cands: seq<Contour>, i: nat)
    requires i < |cands|
    ensures FirstQuadrilateral(cv, cands[i..]) ==
      if |Approx(cv, cands[i])| == 4 then Ok(Approx(cv, cands[i])) else FirstQuadrilateral(cv, cands[i + 1..])
  {
    assert cands[i..][0] == cands[i] && cands[i..][1..] == cands[i + 1..];
  }

  /** `_find_border_contour`, with its loop and early return. */
  method FindBorderContour(cv: OpenCv, edges: Image) returns (r: Result<seq<Point>>)
    ensures r == LocateBorder(cv, edges)
  {
    var found := cv.findContours(edges);
    if found.Err? {
      return Err(found.error);
    }
    var contours := Candidates(found.value, cv.contourArea);
    for i := 0 to |contours|
      invariant FirstQuadrilateral(cv, contours[i..]) == FirstQuadrilateral(cv, contours)
    {
      var peri := cv.arcLength(contours[i], true);
      var approx := cv.approxPolyDP(contours[i], 0.02 * peri, true);
      FirstQuadrilateralStep(cv, contours, i);
      if |approx| == 4 {
        return Ok(approx);
      }
    }
    assert contours[|contours|..] == [];
    return Err(Raised(NoQuadrilateral));
  }

  // ---------------------------------------------------------------------
  // _perspective_transform

  /** `_perspective_transform` as a function. A successful result is the
      warp of the image by the transform that takes the ordered corners to
      the destination rectangle corner for corner (TL, TR, BR, BL), at the
      computed size; without `save_intermediate` the warp's own outcome,
      failure included, is the result. */
  function Rectify(p: Processor, cv: OpenCv, image: Image, pts: seq<Point>): (r: Result<Image>)
    requires |pts| == 4
    ensures var size := OutputSize(OrderedCorners(pts));
      var m := cv.getPerspectiveTransform(OrderedCorners(pts), Corners(0, 0, size.0 - 1, size.1 - 1));
      (r.Ok? ==> m.Ok? && cv.warpPerspective(image, m.value, Size(size.0, size.1)) == r)
      && (m.Err? ==> r == Err(m.error))
      && (m.Ok? && !p.saveIntermediate ==> r == cv.warpPerspective(image, m.value, Size(size.0, size.1)))
  {
    var rect := OrderedCorners(pts);
    var (w, h) := OutputSize(rect);
    var m :- cv.getPerspectiveTransform(rect, Destination(w, h));
    var warped :- cv.warpPerspective(image, m, Size(w, h));
    DebugDump(p, cv, WarpedDump, warped)
  }

  /** `_perspective_transform`: the ordered corners come from the
      `_order_points` method. */
  method PerspectiveTransform(p: Processor, cv: OpenCv, image: Image, pts: seq<Point>) returns (r: Result<Image>)
    requires |pts| == 4
    ensures r == Rectify(p, cv, image, pts)
  {
    var rect := OrderPoints(pts);
    var corners := rect[..];
    var (tl, tr, br, bl) := (corners[0], corners[1], corners[2], corners[3]);
    var maxWidth := Max(EdgeLength(br, bl), EdgeLength(tr, tl));
    var maxHeight := Max(EdgeLength(tr, br), EdgeLength(tl, bl));
    var dst := Destination(maxWidth, maxHeight);
    var m := cv.getPerspectiveTransform(corners, dst);
    if m.Err? {
      return Err(m.error);
    }
    var warped := cv.warpPerspective(image, m.value, Size(maxWidth, maxHeight));
    if warped.Err? {
      return Err(warped.error);
    }
    r := DebugDump(p, cv, WarpedDump, warped.value);
  }

  // ---------------------------------------------------------------------
  // _resize_image and process_image

  function ResizeImage(p: Processor, cv: OpenCv, image: Image): Result<Image> {
    cv.resizeArea(image, p.outputSize)
  }

  datatype Stage = Read | Preprocessed | BorderFound | Rectified | Resized | Written

  /** The stages of `process_image`, in the order they run. */
  const AllStages: seq<Stage> := [Read, Preprocessed, BorderFound, Rectified, Resized, Written]

  /** How a run of `process_image` went: the stages that completed and the
      exception that ended it, if any. */
  datatype Run = Run(completed: seq<Stage>, error: Option<Error>)

  /** The body of `process_image`'s `try` block, stage by stage. */
  function RunPipeline(p: Processor, cv: OpenCv, imagePath: string, outputPath: string): (run: Run)
    ensures run.completed <= AllStages
    ensures run.error.None? <==> run.completed == AllStages
  {
    match cv.imread(imagePath)
    case None => Run([], Some(Raised("Could not read image: " + imagePath)))
    case Some(image) =>
      match Preprocess(p, cv, image)
      case Err(e) => Run(AllStages[..1], Some(e))
      case Ok(edges) =>
        match LocateBorder(cv, edges)
        case Err(e) => Run(AllStages[..2], Some(e))
        case Ok(pts) =>
          match Rectify(p, cv, image, pts)
          case Err(e) => Run(AllStages[..3], Some(e))
          case Ok(warped) =>
            match ResizeImage(p, cv, warped)
            case Err(e) => Run(AllStages[..4], Some(e))
            case Ok(resized) =>
              match cv.imwrite(outputPath, resized)
              case Err(e) => Run(AllStages[..5], Some(e))
              case Ok(_) => Run(AllStages, None)
  }

  /** An unreadable image ends the run before any stage, with the
      `ValueError` message naming the path. */
  lemma UnreadableImage(p: Processor, cv: OpenCv, imagePath: string, outputPath: string)
    requires cv.imread(imagePath).None?
    ensures RunPipeline(p, cv, imagePath, outputPath).completed == []
    ensures RunPipeline(p, cv, imagePath, outputPath).error == Some(Raised("Could not read image: " + imagePath))
  {
  }

  /** A successful run wrote the resized rectification of the image read. */
  lemma SuccessWritesResult(p: Processor, cv: OpenCv, imagePath: string, outputPath: string)
    ensures RunPipeline(p, cv, imagePath, outputPath).error.None? ==>
      var image := cv.imread(imagePath);
      image.Some?
      && var edges := Preprocess(p, cv, image.value);
      edges.Ok?
      && var pts := LocateBorder(cv, edges.value);
      pts.Ok?
      && var warped := Rectify(p, cv, image.value, pts.value);
      warped.Ok?
      && var resized := ResizeImage(p, cv, warped.value);
      resized.Ok? && cv.imwrite(outputPath, resized.value).Ok?
  {
  }

  /** `process_image`: every exception is caught and reported as `False`. */
  method ProcessImage(p: Processor, cv: OpenCv, imagePath: string, outputPath: string) returns (ok: bool)
    ensures ok <==> RunPipeline(p, cv, imagePath, outputPath).error.None?
  {
    var image := cv.imread(imagePath);
    if image.None? {
      return false;
    }
    var processed := Preprocess(p, cv, image.value);
    if processed.Err? {
      return false;
    }
    var contour := FindBorderContour(cv, processed.value);
    if contour.Err? {
      return false;
    }
    var warped := PerspectiveTransform(p, cv, image.value, contour.value);
    if warped.Err? {
      return false;
    }
    var resized := ResizeImage(p, cv, warped.value);
    if resized.Err? {
      return false;
    }
    var written := cv.imwrite(outputPath, resized.value);
    return written.Ok?;
  }
}
