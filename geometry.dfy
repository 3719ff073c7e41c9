/** Corner ordering, edge lengths and the destination rectangle of the
    cheque rectifier (`ChequeBorderProcessor._order_points` and the size
    computation of `_perspective_transform`).

    Points are the integer pixel coordinates that OpenCV's contour
    approximation returns; image coordinates grow rightwards (x) and
    downwards (y). */
module Geometry {

  datatype Point = Point(x: int, y: int)

  /** The two keys `_order_points` ranks points by: `pts.sum(axis=1)`, that
      is x + y, and `np.diff(pts, axis=1)`, the second column minus the
      first, that is y - x. */
  datatype Key = BySum | ByDiff

  function KeyOf(key: Key, p: Point): int
  {
    match key
    case BySum => p.x + p.y
    case ByDiff => p.y - p.x
  }

  /** `np.argmin` of a key over the first `n` points: the index of a point
      with the smallest key, the lowest such index on ties. */
  function ArgMin(pts: seq<Point>, key: Key, n: nat := |pts|): (k: nat)
    requires 0 < n <= |pts|
    ensures k < n
    ensures forall j :: 0 <= j < n ==> KeyOf(key, pts[k]) <= KeyOf(key, pts[j])
    ensures forall j :: 0 <= j < k ==> KeyOf(key, pts[k]) < KeyOf(key, pts[j])
  {
    if n == 1 then 0
    else
      var k := ArgMin(pts, key, n - 1);
      if KeyOf(key, pts[n - 1]) < KeyOf(key, pts[k]) then n - 1 else k
  }

  /** `np.argmax` of a key over the first `n` points: the index of a point
      with the largest key, the lowest such index on ties. */
  function ArgMax(pts: seq<Point>, key: Key, n: nat := |pts|): (k: nat)
    requires 0 < n <= |pts|
    ensures k < n
    ensures forall j :: 0 <= j < n ==> KeyOf(key, pts[j]) <= KeyOf(key, pts[k])
    ensures forall j :: 0 <= j < k ==> KeyOf(key, pts[j]) < KeyOf(key, pts[k])
  {
    if n == 1 then 0
    else
      var k := ArgMax(pts, key, n - 1);
      if KeyOf(key, pts[k]) < KeyOf(key, pts[n - 1]) then n - 1 else k
  }

  /** The rows `_order_points` produces, as (top-left, top-right,
      bottom-right, bottom-left). */
  function OrderedCorners(pts: seq<Point>): (rect: seq<Point>)
    requires |pts| == 4
    ensures |rect| == 4
  {
    [pts[ArgMin(pts, BySum)], pts[ArgMin(pts, ByDiff)], pts[ArgMax(pts, BySum)], pts[ArgMax(pts, ByDiff)]]
  }

  /** Every row is one of the input points; rows 0 and 2 take the smallest
      and largest x+y, rows 1 and 3 the smallest and largest y-x, each time
      the input point of lowest index among those with that key. */
  lemma OrderedCornersSpec(pts: seq<Point>)
    requires |pts| == 4
    ensures forall r :: 0 <= r < 4 ==> OrderedCorners(pts)[r] in pts
    ensures forall j :: 0 <= j < 4 ==>
      KeyOf(BySum, OrderedCorners(pts)[0]) <= KeyOf(BySum, pts[j]) <= KeyOf(BySum, OrderedCorners(pts)[2])
    ensures forall j :: 0 <= j < 4 ==>
      KeyOf(ByDiff, OrderedCorners(pts)[1]) <= KeyOf(ByDiff, pts[j]) <= KeyOf(ByDiff, OrderedCorners(pts)[3])
    ensures exists j :: 0 <= j < 4 && pts[j] == OrderedCorners(pts)[0] &&
                        forall i :: 0 <= i < j ==> KeyOf(BySum, pts[j]) < KeyOf(BySum, pts[i])
    ensures exists j :: 0 <= j < 4 && pts[j] == OrderedCorners(pts)[2] &&
                        forall i :: 0 <= i < j ==> KeyOf(BySum, pts[i]) < KeyOf(BySum, pts[j])
    ensures exists j :: 0 <= j < 4 && pts[j] == OrderedCorners(pts)[1] &&
                        forall i :: 0 <= i < j ==> KeyOf(ByDiff, pts[j]) < KeyOf(ByDiff, pts[i])
    ensures exists j :: 0 <= j < 4 && pts[j] == OrderedCorners(pts)[3] &&
                        forall i :: 0 <= i < j ==> KeyOf(ByDiff, pts[i]) < KeyOf(ByDiff, pts[j])
  {
    var a, b, c, e := ArgMin(pts, BySum), ArgMin(pts, ByDiff), ArgMax(pts, BySum), ArgMax(pts, ByDiff);
    assert pts[a] == OrderedCorners(pts)[0] && pts[c] == OrderedCorners(pts)[2];
    assert pts[b] == OrderedCorners(pts)[1] && pts[e] == OrderedCorners(pts)[3];
  }

  /** `_order_points`: fills a fresh 4-row buffer, rows 0 and 2 from the sum
      key and rows 1 and 3 from the difference key. */
  method OrderPoints(pts: seq<Point>) returns (rect: array<Point>)
    requires |pts| == 4
    ensures fresh(rect) && rect.Length == 4
    ensures rect[..] == OrderedCorners(pts)
  {
    rect := new Point[4];
    rect[0] := pts[ArgMin(pts, BySum)];
    rect[2] := pts[ArgMax(pts, BySum)];
    rect[1] := pts[ArgMin(pts, ByDiff)];
    rect[3] := pts[ArgMax(pts, ByDiff)];
  }

  /** The four corners of an axis-aligned rectangle, in (top-left,
      top-right, bottom-right, bottom-left) order. */
  function Corners(left: int, top: int, right: int, bottom: int): seq<Point>
  {
    [Point(left, top), Point(right, top), Point(right, bottom), Point(left, bottom)]
  }

  /** Every point of `pts` is a corner of the rectangle and every corner
      occurs in `pts`. */
  ghost predicate SameCorners(pts: seq<Point>, c: seq<Point>)
  {
    (forall j :: 0 <= j < |pts| ==> pts[j] in c) && (forall r :: 0 <= r < |c| ==> c[r] in pts)
  }

  lemma PermutationHasSameCorners(pts: seq<Point>, c: seq<Point>)
    requires multiset(pts) == multiset(c)
    ensures SameCorners(pts, c)
  {
    forall j | 0 <= j < |pts| ensures pts[j] in c {
      assert pts[j] in multiset(pts);
    }
    forall r | 0 <= r < |c| ensures c[r] in pts {
      assert c[r] in multiset(c);
    }
  }

  lemma TopLeftPicked(pts: seq<Point>, left: int, top: int, right: int, bottom: int)
    requires left < right && top < bottom
    requires |pts| == 4 && SameCorners(pts, Corners(left, top, right, bottom))
    ensures pts[ArgMin(pts, BySum)] == Point(left, top)
  {
    var k := ArgMin(pts, BySum);
    assert Corners(left, top, right, bottom)[0] in pts;
    var w :| 0 <= w < 4 && pts[w] == Point(left, top);
    assert KeyOf(BySum, pts[k]) <= KeyOf(BySum, pts[w]);
    assert pts[k] in Corners(left, top, right, bottom);
  }

  lemma TopRightPicked(pts: seq<Point>, left: int, top: int, right: int, bottom: int)
    requires left < right && top < bottom
    requires |pts| == 4 && SameCorners(pts, Corners(left, top, right, bottom))
    ensures pts[ArgMin(pts, ByDiff)] == Point(right, top)
  {
    var k := ArgMin(pts, ByDiff);
    assert Corners(left, top, right, bottom)[1] in pts;
    var w :| 0 <= w < 4 && pts[w] == Point(right, top);
    assert KeyOf(ByDiff, pts[k]) <= KeyOf(ByDiff, pts[w]);
    assert pts[k] in Corners(left, top, right, bottom);
  }

  lemma BottomRightPicked(pts: seq<Point>, left: int, top: int, right: int, bottom: int)
    requires left < right && top < bottom
    requires |pts| == 4 && SameCorners(pts, Corners(left, top, right, bottom))
    ensures pts[ArgMax(pts, BySum)] == Point(right, bottom)
  {
    var k := ArgMax(pts, BySum);
    assert Corners(left, top, right, bottom)[2] in pts;
    var w :| 0 <= w < 4 && pts[w] == Point(right, bottom);
    assert KeyOf(BySum, pts[w]) <= KeyOf(BySum, pts[k]);
    assert pts[k] in Corners(left, top, right, bottom);
  }

  lemma BottomLeftPicked(pts: seq<Point>, left: int, top: int, right: int, bottom: int)
    requires left < right && top < bottom
    requires |pts| == 4 && SameCorners(pts, Corners(left, top, right, bottom))
    ensures pts[ArgMax(pts, ByDiff)] == Point(left, bottom)
  {
    var k := ArgMax(pts, ByDiff);
    assert Corners(left, top, right, bottom)[3] in pts;
    var w :| 0 <= w < 4 && pts[w] == Point(left, bottom);
    assert KeyOf(ByDiff, pts[w]) <= KeyOf(ByDiff, pts[k]);
    assert pts[k] in Corners(left, top, right, bottom);
  }

  /** Whatever order the corners of an axis-aligned rectangle of positive
      width and height come in (any of the 24), the ordering returns them as
      top-left, top-right, bottom-right, bottom-left. */
  lemma OrderRectangle(pts: seq<Point>, left: int, top: int, right: int, bottom: int)
    requires left < right && top < bottom
    requires |pts| == 4 && multiset(pts) == multiset(Corners(left, top, right, bottom))
    ensures OrderedCorners(pts) == Corners(left, top, right, bottom)
  {
    PermutationHasSameCorners(pts, Corners(left, top, right, bottom));
    TopLeftPicked(pts, left, top, right, bottom);
    TopRightPicked(pts, left, top, right, bottom);
    BottomRightPicked(pts, left, top, right, bottom);
    BottomLeftPicked(pts, left, top, right, bottom);
  }

  /** A square turned by 45 degrees: two corners tie on every key, the
      first tied point wins twice, and the result repeats a point. This is
      the heuristic's failure mode on strongly rotated documents. */
  lemma DiamondRepeatsACorner()
    ensures OrderedCorners([Point(0, 1), Point(1, 0), Point(2, 1), Point(1, 2)])
         == [Point(0, 1), Point(1, 0), Point(2, 1), Point(0, 1)]
  {
    var pts := [Point(0, 1), Point(1, 0), Point(2, 1), Point(1, 2)];
    var a, b, c, d := ArgMin(pts, BySum), ArgMin(pts, ByDiff), ArgMax(pts, BySum), ArgMax(pts, ByDiff);
    assert KeyOf(BySum, pts[a]) <= KeyOf(BySum, pts[0]) && KeyOf(ByDiff, pts[b]) <= KeyOf(ByDiff, pts[1]);
    assert KeyOf(BySum, pts[2]) <= KeyOf(BySum, pts[c]) && KeyOf(ByDiff, pts[0]) <= KeyOf(ByDiff, pts[d]);
    assert a == 0 && b == 1 && c == 2 && d == 0;
  }

  /** The integer part of the square root of `n`. */
  function FloorSqrt(n: nat): (r: nat)
    ensures r * r <= n < (r + 1) * (r + 1)
  {
    if n == 0 then 0
    else
      var s := FloorSqrt(n - 1);
      if (s + 1) * (s + 1) <= n then s + 1 else s
  }

  lemma FloorSqrtOfSquare(k: nat)
    ensures FloorSqrt(k * k) == k
  {
    var r := FloorSqrt(k * k);
    if r < k {
      assert r + 1 <= k;
      MulMono(r + 1, k);
    } else if r > k {
      assert k + 1 <= r;
      MulMono(k + 1, r);
    }
  }

  lemma MulMono(a: nat, b: nat)
    requires a <= b
    ensures a * a <= b * b
  {
    assert a * a <= a * b <= b * b;
  }

  function SquaredDistance(p: Point, q: Point): nat
  {
    (p.x - q.x) * (p.x - q.x) + (p.y - q.y) * (p.y - q.y)
  }

  /** `int(np.linalg.norm(p - q))`: the Euclidean distance, truncated. */
  function EdgeLength(p: Point, q: Point): (len: nat)
    ensures len * len <= SquaredDistance(p, q) < (len + 1) * (len + 1)
  {
    FloorSqrt(SquaredDistance(p, q))
  }

  function Abs(n: int): nat { if n < 0 then -n else n }

  function Max(a: nat, b: nat): nat { if a < b then b else a }

  /** `(maxWidth, maxHeight)` of `_perspective_transform` for ordered
      corners (tl, tr, br, bl): the longer of the truncated bottom and top
      edges, and the longer of the truncated right and left edges. Nothing
      rejects a zero size. */
  function OutputSize(rect: seq<Point>): (size: (nat, nat))
    requires |rect| == 4
    ensures size.0 >= EdgeLength(rect[2], rect[3]) && size.0 >= EdgeLength(rect[1], rect[0])
    ensures size.0 == EdgeLength(rect[2], rect[3]) || size.0 == EdgeLength(rect[1], rect[0])
    ensures size.1 >= EdgeLength(rect[1], rect[2]) && size.1 >= EdgeLength(rect[0], rect[3])
    ensures size.1 == EdgeLength(rect[1], rect[2]) || size.1 == EdgeLength(rect[0], rect[3])
  {
    var (tl, tr, br, bl) := (rect[0], rect[1], rect[2], rect[3]);
    (Max(EdgeLength(br, bl), EdgeLength(tr, tl)), Max(EdgeLength(tr, br), EdgeLength(tl, bl)))
  }

  /** The `dst` array handed to `cv2.getPerspectiveTransform`. */
  function Destination(width: nat, height: nat): (dst: seq<Point>)
    ensures dst == Corners(0, 0, width - 1, height - 1)
  {
    [Point(0, 0), Point(width - 1, 0), Point(width - 1, height - 1), Point(0, height - 1)]
  }

  /** The destination corners are themselves in the canonical order: row k
      of `dst` plays the same role (TL, TR, BR, BL) as row k of the ordered
      source corners it is paired with. */
  lemma DestinationIsOrdered(width: nat, height: nat)
    requires width >= 2 && height >= 2
    ensures OrderedCorners(Destination(width, height)) == Destination(width, height)
  {
    OrderRectangle(Destination(width, height), 0, 0, width - 1, height - 1);
  }

  /** A horizontal edge is as long as its x-extent. */
  lemma HorizontalEdge(a: int, b: int, y: int)
    ensures EdgeLength(Point(a, y), Point(b, y)) == Abs(a - b)
  {
    assert SquaredDistance(Point(a, y), Point(b, y)) == Abs(a - b) * Abs(a - b);
    FloorSqrtOfSquare(Abs(a - b));
  }

  /** A vertical edge is as long as its y-extent. */
  lemma VerticalEdge(x: int, a: int, b: int)
    ensures EdgeLength(Point(x, a), Point(x, b)) == Abs(a - b)
  {
    assert SquaredDistance(Point(x, a), Point(x, b)) == Abs(a - b) * Abs(a - b);
    FloorSqrtOfSquare(Abs(a - b));
  }

  /** Measuring the destination rectangle gives one pixel less each way:
      its corners span W-1 by H-1. */
  lemma DestinationSize(width: nat, height: nat)
    requires width >= 1 && height >= 1
    ensures OutputSize(Destination(width, height)) == (width - 1, height - 1)
  {
    var (tl, tr, br, bl) := (Point(0, 0), Point(width - 1, 0), Point(width - 1, height - 1), Point(0, height - 1));
    assert Destination(width, height) == [tl, tr, br, bl];
    assert EdgeLength(br, bl) == width - 1 by { HorizontalEdge(width - 1, 0, height - 1); }
    assert EdgeLength(tr, tl) == width - 1 by { HorizontalEdge(width - 1, 0, 0); }
    assert EdgeLength(tr, br) == height - 1 by { VerticalEdge(width - 1, 0, height - 1); }
    assert EdgeLength(tl, bl) == height - 1 by { VerticalEdge(0, 0, height - 1); }
  }

  /** A document that fills a W-by-H frame, its corners at the frame's
      corner pixels in any order, is measured as (W-1) by (H-1). */
  lemma FullFrameSize(pts: seq<Point>, width: nat, height: nat)
    requires width >= 2 && height >= 2
    requires |pts| == 4 && multiset(pts) == multiset(Destination(width, height))
    ensures OutputSize(OrderedCorners(pts)) == (width - 1, height - 1)
  {
    OrderRectangle(pts, 0, 0, width - 1, height - 1);
    DestinationSize(width, height);
  }
}
