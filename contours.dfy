/** Ranking of contour candidates in `_find_border_contour`:
    `sorted(contours, key=cv2.contourArea, reverse=True)[:5]`.

    The area is OpenCV's `contourArea`, left uninterpreted (a parameter).
    Python's `sorted` is stable also with `reverse=True`: contours of equal
    area keep the order `findContours` returned them in. */
module Contours {
  import opened Geometry

  type Contour = seq<Point>

  /** How many candidates the border search examines. */
  const TopCandidates: nat := 5

  ghost predicate Descending(cs: seq<Contour>, area: Contour -> real)
  {
    forall i, j :: 0 <= i < j < |cs| ==> area(cs[j]) <= area(cs[i])
  }

  /** The contours of `cs` whose area is exactly `a`, in their order in `cs`. */
  function OfArea(cs: seq<Contour>, area: Contour -> real, a: real): seq<Contour>
  {
    if cs == [] then []
    else (if area(cs[0]) == a then [cs[0]] else []) + OfArea(cs[1..], area, a)
  }

  /** Puts `c` in front of the first contour whose area is not larger. */
  function Insert(c: Contour, cs: seq<Contour>, area: Contour -> real): (r: seq<Contour>)
    ensures |r| == |cs| + 1 && multiset(r) == multiset(cs) + multiset{c}
  {
    if cs == [] || area(cs[0]) <= area(c) then [c] + cs
    else
      assert cs == [cs[0]] + cs[1..];
      [cs[0]] + Insert(c, cs[1..], area)
  }

  /** Inserting keeps every area at most `b` when it was so before. */
  lemma {:induction false} InsertKeepsBound(c: Contour, cs: seq<Contour>, area: Contour -> real, b: real)
    requires area(c) <= b && forall k :: 0 <= k < |cs| ==> area(cs[k]) <= b
    ensures forall k :: 0 <= k < |Insert(c, cs, area)| ==> area(Insert(c, cs, area)[k]) <= b
  {
    if cs == [] || area(cs[0]) <= area(c) {
      assert Insert(c, cs, area) == [c] + cs;
    } else {
      var rest := Insert(c, cs[1..], area);
      assert Insert(c, cs, area) == [cs[0]] + rest;
      InsertKeepsBound(c, cs[1..], area, b);
    }
  }

  lemma {:induction false} InsertKeepsDescending(c: Contour, cs: seq<Contour>, area: Contour -> real)
    requires Descending(cs, area)
    ensures Descending(Insert(c, cs, area), area)
  {
    if cs == [] || area(cs[0]) <= area(c) {
      var r := Insert(c, cs, area);
      assert r == [c] + cs;
      forall i, j | 0 <= i < j < |r| ensures area(r[j]) <= area(r[i]) {
        if i > 0 {
          assert r[i] == cs[i - 1] && r[j] == cs[j - 1];
        } else {
          assert r[j] == cs[j - 1];
        }
      }
    } else {
      var rest := Insert(c, cs[1..], area);
      InsertKeepsDescending(c, cs[1..], area);
      InsertKeepsBound(c, cs[1..], area, area(cs[0]));
      var r := Insert(c, cs, area);
      assert r == [cs[0]] + rest;
      forall i, j | 0 <= i < j < |r| ensures area(r[j]) <= area(r[i]) {
        assert r[j] == rest[j - 1];
        if i > 0 {
          assert r[i] == rest[i - 1];
        }
      }
    }
  }

  /** `sorted(cs, key=area, reverse=True)`, as an insertion sort: each
      contour goes in front of the later ones of equal area. */
  function SortByAreaDesc(cs: seq<Contour>, area: Contour -> real): (r: seq<Contour>)
    ensures |r| == |cs| && multiset(r) == multiset(cs)
    ensures Descending(r, area)
  {
    if cs == [] then []
    else
      assert cs == [cs[0]] + cs[1..];
      InsertKeepsDescending(cs[0], SortByAreaDesc(cs[1..], area), area);
      Insert(cs[0], SortByAreaDesc(cs[1..], area), area)
  }

  lemma OfAreaCons(c: Contour, cs: seq<Contour>, area: Contour -> real, a: real)
    ensures OfArea([c] + cs, area, a) == (if area(c) == a then [c] else []) + OfArea(cs, area, a)
  {
    assert ([c] + cs)[1..] == cs;
  }

  lemma {:induction false} InsertKeepsAreaOrder(c: Contour, cs: seq<Contour>, area: Contour -> real, a: real)
    ensures OfArea(Insert(c, cs, area), area, a) == (if area(c) == a then [c] else []) + OfArea(cs, area, a)
  {
    if cs == [] || area(cs[0]) <= area(c) {
      assert Insert(c, cs, area) == [c] + cs;
      OfAreaCons(c, cs, area, a);
    } else {
      var rest := Insert(c, cs[1..], area);
      assert Insert(c, cs, area) == [cs[0]] + rest;
      InsertKeepsAreaOrder(c, cs[1..], area, a);
      OfAreaCons(cs[0], rest, area, a);
      OfAreaCons(cs[0], cs[1..], area, a);
      assert [cs[0]] + cs[1..] == cs;
    }
  }

  /** The sort is stable: restricted to any one area value, the sorted
      sequence lists the same contours in the same order as the input. */
  lemma {:induction false} SortIsStable(cs: seq<Contour>, area: Contour -> real, a: real)
    ensures OfArea(SortByAreaDesc(cs, area), area, a) == OfArea(cs, area, a)
  {
    if cs != [] {
      InsertKeepsAreaOrder(cs[0], SortByAreaDesc(cs[1..], area), area, a);
      SortIsStable(cs[1..], area, a);
    }
  }

  lemma {:induction false} OfAreaMembers(cs: seq<Contour>, area: Contour -> real, a: real, c: Contour)
    ensures c in OfArea(cs, area, a) <==> c in cs && area(c) == a
  {
    if cs != [] {
      OfAreaMembers(cs[1..], area, a, c);
      assert c in cs <==> c == cs[0] || c in cs[1..];
    }
  }

  lemma NonEmptyClass(r1: seq<Contour>, r2: seq<Contour>, area: Contour -> real)
    requires forall a :: OfArea(r1, area, a) == OfArea(r2, area, a)
    ensures r1 != [] ==> r2 != []
  {
    if r1 != [] {
      assert OfArea(r1, area, area(r1[0])) != [];
    }
  }

  /** Descending order and stability determine the result: any two
      sequences that are descending by area and agree on every area class
      are equal. So `SortByAreaDesc` is exactly Python's stable sort. */
  lemma {:induction false} StableDescendingIsUnique(r1: seq<Contour>, r2: seq<Contour>, area: Contour -> real)
    requires Descending(r1, area) && Descending(r2, area)
    requires forall a :: OfArea(r1, area, a) == OfArea(r2, area, a)
    ensures r1 == r2
  {
    NonEmptyClass(r1, r2, area);
    NonEmptyClass(r2, r1, area);
    if r1 != [] && r2 != [] {
      var a1, a2 := area(r1[0]), area(r2[0]);
      OfAreaMembers(r1, area, a2, r2[0]);
      OfAreaMembers(r2, area, a2, r2[0]);
      OfAreaMembers(r2, area, a1, r1[0]);
      OfAreaMembers(r1, area, a1, r1[0]);
      var i :| 0 <= i < |r1| && r1[i] == r2[0];
      var j :| 0 <= j < |r2| && r2[j] == r1[0];
      assert a1 == a2;
      assert OfArea(r1, area, a1)[0] == r1[0];
      assert OfArea(r2, area, a1)[0] == r2[0];
      assert r1[0] == r2[0];
      forall a ensures OfArea(r1[1..], area, a) == OfArea(r2[1..], area, a) {
        var head := if a1 == a then [r1[0]] else [];
        var t1, t2 := OfArea(r1[1..], area, a), OfArea(r2[1..], area, a);
        assert OfArea(r1, area, a) == head + t1;
        assert OfArea(r2, area, a) == head + t2;
        assert (head + t1)[|head|..] == t1 && (head + t2)[|head|..] == t2;
      }
      StableDescendingIsUnique(r1[1..], r2[1..], area);
      assert r1 == [r1[0]] + r1[1..] && r2 == [r2[0]] + r2[1..];
    }
  }

  function Min(a: nat, b: nat): nat { if a < b then a else b }

  /** `sorted(contours, key=cv2.contourArea, reverse=True)[:5]`. */
  function Candidates(contours: seq<Contour>, area: Contour -> real): (cands: seq<Contour>)
    ensures |cands| == Min(TopCandidates, |contours|)
    ensures cands == SortByAreaDesc(contours, area)[..|cands|]
  {
    SortByAreaDesc(contours, area)[..Min(TopCandidates, |contours|)]
  }

  /** The candidates are the largest contours, in descending area order:
      each comes from the input, and every contour left out is no larger
      than any candidate. */
  lemma CandidatesAreLargest(contours: seq<Contour>, area: Contour -> real)
    ensures Descending(Candidates(contours, area), area)
    ensures multiset(Candidates(contours, area)) <= multiset(contours)
    ensures forall i, j :: 0 <= i < |Candidates(contours, area)| <= j < |contours| ==>
              area(SortByAreaDesc(contours, area)[j]) <= area(Candidates(contours, area)[i])
  {
    var sorted := SortByAreaDesc(contours, area);
    var cands := Candidates(contours, area);
    assert sorted == cands + sorted[|cands|..];
    assert multiset(sorted) == multiset(cands) + multiset(sorted[|cands|..]);
  }
}
