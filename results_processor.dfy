/**
 * Post-processing of detector output (results_processor.py): rectangle
 * geometry, intersection over union, the "touching or contained" test, the
 * confidence filter and greedy score-ordered suppression of overlapping boxes.
 * Coordinates and scores are exact reals.
 */
module ResultsProcessor {
  import opened Sorting

  /** Thresholds of the model configuration (models/config.py). */
  const CONFIDENCE_THRESHOLD: real := 0.99
  const INTERSECTION_THRESHOLD: real := 0.9

  /** One detection as it is written to the results JSON. */
  datatype Detection = Detection(
    labelName: string,
    x: real, y: real, width: real, height: real,
    imageName: string, imageWidth: int, imageHeight: int,
    score: real)

  /** A box with its score and the detection it came from. */
  datatype Rectangle = Rectangle(x: real, y: real, width: real, height: real, score: real, detection: Detection)

  /** One raw detector box: class alias, corners (x1, y1, x2, y2) and score. */
  datatype RawBox = RawBox(cls: string, x1: real, y1: real, x2: real, y2: real, score: real)

  function Area(r: Rectangle): real { r.width * r.height }

  function Max(a: real, b: real): real { if a >= b then a else b }
  function Min(a: real, b: real): real { if a <= b then a else b }

  /** The two boxes share interior points: both are non-degenerate and their extents overlap on both axes. */
  predicate InteriorsMeet(r1: Rectangle, r2: Rectangle) {
    r1.width > 0.0 && r1.height > 0.0 && r2.width > 0.0 && r2.height > 0.0 &&
    r1.x < r2.x + r2.width && r2.x < r1.x + r1.width &&
    r1.y < r2.y + r2.height && r2.y < r1.y + r1.height
  }

  lemma MulMono(a: real, b: real, c: real, d: real)
    requires 0.0 <= a <= c && 0.0 <= b <= d
    ensures a * b <= c * d
  {
    assert a * b <= c * b;
    assert c * b <= c * d;
  }

  lemma MulPos(a: real, b: real)
    requires a > 0.0 && b > 0.0
    ensures a * b > 0.0
  {
  }

  /** Length shared by the extents [a1, a1+l1] and [a2, a2+l2]: right edge minus left edge, possibly negative. */
  function Overlap1D(a1: real, l1: real, a2: real, l2: real): (o: real)
    ensures o > 0.0 <==> l1 > 0.0 && l2 > 0.0 && a1 < a2 + l2 && a2 < a1 + l1
    ensures o <= l1 && o <= l2
  {
    Min(a1 + l1, a2 + l2) - Max(a1, a2)
  }

  function IntersectionArea(r1: Rectangle, r2: Rectangle): (a: real)
    ensures a >= 0.0
    ensures a > 0.0 <==> InteriorsMeet(r1, r2)
    ensures a > 0.0 ==> a <= Area(r1) && a <= Area(r2)
    ensures a > 0.0 ==> r1.width > 0.0 && r1.height > 0.0 && r2.width > 0.0 && r2.height > 0.0
  {
    // x_right - x_left and y_bottom - y_top of lines 31-34
    var dx := Overlap1D(r1.x, r1.width, r2.x, r2.width);
    var dy := Overlap1D(r1.y, r1.height, r2.y, r2.height);
    if dx <= 0.0 || dy <= 0.0 then 0.0
    else
      ProductBounds(dx, dy, r1, r2);
      dx * dy
  }

  lemma ProductBounds(dx: real, dy: real, r1: Rectangle, r2: Rectangle)
    requires 0.0 < dx && dx <= r1.width && dx <= r2.width
    requires 0.0 < dy && dy <= r1.height && dy <= r2.height
    ensures 0.0 < dx * dy && dx * dy <= Area(r1) && dx * dy <= Area(r2)
  {
    MulPos(dx, dy);
    MulMono(dx, dy, r1.width, r1.height);
    MulMono(dx, dy, r2.width, r2.height);
  }

  lemma IntersectionSymmetric(r1: Rectangle, r2: Rectangle)
    ensures IntersectionArea(r1, r2) == IntersectionArea(r2, r1)
  {
    assert Overlap1D(r1.x, r1.width, r2.x, r2.width) == Overlap1D(r2.x, r2.width, r1.x, r1.width);
    assert Overlap1D(r1.y, r1.height, r2.y, r2.height) == Overlap1D(r2.y, r2.height, r1.y, r1.height);
    var dx := Overlap1D(r1.x, r1.width, r2.x, r2.width);
    var dy := Overlap1D(r1.y, r1.height, r2.y, r2.height);
    assert dx * dy == dy * dx;
  }

  /** Intersection over union; 0 when the boxes do not meet, so no division by zero can occur. */
  function Iou(r1: Rectangle, r2: Rectangle): (v: real)
    ensures v == 0.0 <==> IntersectionArea(r1, r2) == 0.0
    ensures IntersectionArea(r1, r2) != 0.0 ==>
      Area(r1) + Area(r2) - IntersectionArea(r1, r2) > 0.0 &&
      v * (Area(r1) + Area(r2) - IntersectionArea(r1, r2)) == IntersectionArea(r1, r2)
    ensures 0.0 <= v <= 1.0
  {
    var inter := IntersectionArea(r1, r2);
    if inter == 0.0 then 0.0
    else
      var union := Area(r1) + Area(r2) - inter;
      assert union >= Area(r1) >= inter > 0.0;
      var v := inter / union;
      assert v * union == inter;
      assert v <= 1.0;
      v
  }

  lemma IouSymmetric(r1: Rectangle, r2: Rectangle)
    ensures Iou(r1, r2) == Iou(r2, r1)
  {
    IntersectionSymmetric(r1, r2);
  }

  /** `inner` lies within `outer`, edges included. */
  predicate Inside(inner: Rectangle, outer: Rectangle) {
    inner.x >= outer.x && inner.x + inner.width <= outer.x + outer.width &&
    inner.y >= outer.y && inner.y + inner.height <= outer.y + outer.height
  }

  /** The suppression test: one box contains the other, or the IoU exceeds the threshold. */
  predicate TouchingOrContained(r1: Rectangle, r2: Rectangle, threshold: real) {
    Inside(r1, r2) || Inside(r2, r1) || Iou(r1, r2) > threshold
  }

  lemma ContainmentOverlaps(r1: Rectangle, r2: Rectangle, threshold: real)
    requires Inside(r1, r2) || Inside(r2, r1)
    ensures TouchingOrContained(r1, r2, threshold) && TouchingOrContained(r2, r1, threshold)
  {
  }

  lemma TouchingSymmetric(r1: Rectangle, r2: Rectangle, threshold: real)
    ensures TouchingOrContained(r1, r2, threshold) == TouchingOrContained(r2, r1, threshold)
  {
    IouSymmetric(r1, r2);
  }

  /** Below the threshold, boxes whose interiors do not meet and neither contains the other are kept apart. */
  lemma DisjointNeverSuppressed(r1: Rectangle, r2: Rectangle, threshold: real)
    requires threshold >= 0.0
    requires !InteriorsMeet(r1, r2) && !Inside(r1, r2) && !Inside(r2, r1)
    ensures !TouchingOrContained(r1, r2, threshold)
  {
  }

  /** Sort order: higher score first. */
  function ScoreDesc(): (Rectangle, Rectangle) -> bool {
    (a: Rectangle, b: Rectangle) => a.score >= b.score
  }

  lemma ScoreDescPreorder()
    ensures TotalPreorder(ScoreDesc())
  {
  }

  /** The stable sort of line 78 (`sort(key=score, reverse=True)` keeps equal scores in input order). */
  function SortByScore(rs: seq<Rectangle>): (r: seq<Rectangle>)
    ensures multiset(r) == multiset(rs)
    ensures SortedBy(r, ScoreDesc())
  {
    ScoreDescPreorder();
    SortBySorted(rs, ScoreDesc());
    SortBy(rs, ScoreDesc())
  }

  /** The boxes with one given score. */
  function ScoreIs(score: real): Rectangle -> bool {
    (r: Rectangle) => r.score == score
  }

  /**
   * The sort is stable: boxes of equal score keep their input order, so
   * of two tied boxes the earlier one is the one suppression keeps.
   */
  lemma SortByScoreStable(rs: seq<Rectangle>, score: real)
    ensures Filter(SortByScore(rs), ScoreIs(score)) == Filter(rs, ScoreIs(score))
  {
    SortByStable(rs, ScoreDesc(), ScoreIs(score));
  }

  /** The suppression relation of lines 89-91, for a fixed IoU threshold. */
  function Suppresses(threshold: real): (Rectangle, Rectangle) -> bool {
    (current: Rectangle, r: Rectangle) => TouchingOrContained(current, r, threshold)
  }

  /** The boxes of `rest` that `current` does not suppress, in order (lines 88-95). */
  function Survivors<T>(current: T, rest: seq<T>, suppresses: (T, T) -> bool): (r: seq<T>)
    ensures |r| <= |rest|
    ensures IsSubseq(r, rest)
    ensures forall i :: 0 <= i < |r| ==> !suppresses(current, r[i])
    ensures forall i :: 0 <= i < |rest| && !suppresses(current, rest[i]) ==> rest[i] in r
  {
    Filter(rest, NotSuppressedBy(current, suppresses))
  }

  function NotSuppressedBy<T>(current: T, suppresses: (T, T) -> bool): T -> bool {
    (x: T) => !suppresses(current, x)
  }

  /** Greedy suppression over an already sorted list: keep the head, drop what it suppresses, repeat. */
  function Greedy<T>(rs: seq<T>, suppresses: (T, T) -> bool): seq<T>
    decreases |rs|
  {
    if rs == [] then [] else [rs[0]] + Greedy(Survivors(rs[0], rs[1..], suppresses), suppresses)
  }

  function Detections(rs: seq<Rectangle>): (ds: seq<Detection>)
    ensures |ds| == |rs|
    ensures forall i :: 0 <= i < |rs| ==> ds[i] == rs[i].detection
  {
    if rs == [] then [] else [rs[0].detection] + Detections(rs[1..])
  }

  lemma DetectionsAppend(a: seq<Rectangle>, b: seq<Rectangle>)
    ensures Detections(a + b) == Detections(a) + Detections(b)
  {
  }

  /** Everything of filter_overlapping_rectangles but the projection to detections. */
  function KeptRectangles(rs: seq<Rectangle>, threshold: real): seq<Rectangle> {
    Greedy(SortByScore(rs), Suppresses(threshold))
  }

  /**
   * filter_overlapping_rectangles: sorts by score, then repeatedly takes the best
   * remaining box and discards every box it touches or contains.
   */
  method FilterOverlappingRectangles(rectangles: seq<Rectangle>, threshold: real) returns (keep: seq<Detection>)
    ensures keep == Detections(KeptRectangles(rectangles, threshold))
    ensures rectangles == [] ==> keep == []
  {
    if |rectangles| == 0 {
      return [];
    }
    var remaining := SortByScore(rectangles);
    keep := [];
    while |remaining| > 0
      invariant keep + Detections(Greedy(remaining, Suppresses(threshold))) == Detections(KeptRectangles(rectangles, threshold))
      decreases |remaining|
    {
      var current := remaining[0];
      var rest := Survivors(current, remaining[1..], Suppresses(threshold));
      assert Greedy(remaining, Suppresses(threshold)) == [current] + Greedy(rest, Suppresses(threshold));
      DetectionsAppend([current], Greedy(rest, Suppresses(threshold)));
      keep := keep + [current.detection];
      remaining := rest;
    }
  }

  lemma {:induction false} GreedySubseq<T>(rs: seq<T>, suppresses: (T, T) -> bool)
    ensures IsSubseq(Greedy(rs, suppresses), rs)
    decreases |rs|
  {
    if rs != [] {
      var s := Survivors(rs[0], rs[1..], suppresses);
      GreedySubseq(s, suppresses);
      SubseqTrans(Greedy(s, suppresses), s, rs[1..]);
      var g := Greedy(rs, suppresses);
      assert g[0] == rs[0] && g[1..] == Greedy(s, suppresses);
    }
  }

  /** The kept boxes are a subsequence of the sorted input, so their scores never increase. */
  lemma KeptOrdered(rs: seq<Rectangle>, threshold: real)
    ensures IsSubseq(KeptRectangles(rs, threshold), SortByScore(rs))
    ensures SortedBy(KeptRectangles(rs, threshold), ScoreDesc())
    ensures forall i, j :: 0 <= i < j < |KeptRectangles(rs, threshold)| ==>
      KeptRectangles(rs, threshold)[i].score >= KeptRectangles(rs, threshold)[j].score
    ensures multiset(KeptRectangles(rs, threshold)) <= multiset(rs)
    ensures rs == [] ==> KeptRectangles(rs, threshold) == []
  {
    var sorted := SortByScore(rs);
    GreedySubseq(sorted, Suppresses(threshold));
    SubseqSorted(KeptRectangles(rs, threshold), sorted, ScoreDesc());
    SubseqMultiset(KeptRectangles(rs, threshold), sorted);
  }

  lemma {:induction false} SubseqMultiset<T>(a: seq<T>, b: seq<T>)
    requires IsSubseq(a, b)
    ensures multiset(a) <= multiset(b)
    decreases |b|
  {
    if a != [] {
      assert b == [b[0]] + b[1..];
      if a[0] == b[0] && IsSubseq(a[1..], b[1..]) {
        SubseqMultiset(a[1..], b[1..]);
        assert a == [a[0]] + a[1..];
      } else {
        SubseqMultiset(a, b[1..]);
      }
    }
  }

  predicate PairwiseApart<T>(rs: seq<T>, suppresses: (T, T) -> bool) {
    forall i, j :: 0 <= i < j < |rs| ==> !suppresses(rs[i], rs[j])
  }

  /** No kept box suppresses a later kept box. */
  lemma {:induction false} GreedyApart<T>(rs: seq<T>, suppresses: (T, T) -> bool)
    ensures PairwiseApart(Greedy(rs, suppresses), suppresses)
    decreases |rs|
  {
    if rs != [] {
      var s := Survivors(rs[0], rs[1..], suppresses);
      GreedyApart(s, suppresses);
      GreedySubseq(s, suppresses);
      var rest := Greedy(s, suppresses);
      SubseqMembers(rest, s);
      var g := Greedy(rs, suppresses);
      assert g == [rs[0]] + rest;
      forall i, j | 0 <= i < j < |g| ensures !suppresses(g[i], g[j]) {
        assert g[j] == rest[j - 1];
        if i == 0 {
          assert rest[j - 1] in s;
          var k :| 0 <= k < |s| && s[k] == rest[j - 1];
        } else {
          assert g[i] == rest[i - 1];
        }
      }
    }
  }

  /** Greedy suppression leaves a list of mutually apart boxes as it is. */
  lemma {:induction false} GreedyOfApart<T>(rs: seq<T>, suppresses: (T, T) -> bool)
    requires PairwiseApart(rs, suppresses)
    ensures Greedy(rs, suppresses) == rs
    decreases |rs|
  {
    if rs != [] {
      var rest := rs[1..];
      var keep := NotSuppressedBy(rs[0], suppresses);
      forall k | 0 <= k < |rest| ensures keep(rest[k]) {
        assert rest[k] == rs[k + 1];
        assert !suppresses(rs[0], rs[k + 1]);
      }
      FilterAll(rest, keep);
      assert Survivors(rs[0], rest, suppresses) == rest;
      forall i, j | 0 <= i < j < |rest| ensures !suppresses(rest[i], rest[j]) {
        assert rest[i] == rs[i + 1] && rest[j] == rs[j + 1];
      }
      GreedyOfApart(rest, suppresses);
      calc {
        Greedy(rs, suppresses);
        [rs[0]] + Greedy(Survivors(rs[0], rest, suppresses), suppresses);
        [rs[0]] + rest;
        rs;
      }
    }
  }

  /** Every box of the sorted input is kept, or suppressed by a kept box with at least its score. */
  lemma {:induction false} DroppedAreCovered(rs: seq<Rectangle>, suppresses: (Rectangle, Rectangle) -> bool)
    requires SortedBy(rs, ScoreDesc())
    ensures forall r :: r in rs ==>
      (r in Greedy(rs, suppresses) ||
       exists k :: k in Greedy(rs, suppresses) && k.score >= r.score && suppresses(k, r))
    decreases |rs|
  {
    if rs != [] {
      var s := Survivors(rs[0], rs[1..], suppresses);
      assert SortedBy(rs[1..], ScoreDesc()) by {
        forall i, j | 0 <= i < j < |rs[1..]| ensures rs[1..][i].score >= rs[1..][j].score {
          assert rs[1..][i] == rs[i + 1] && rs[1..][j] == rs[j + 1];
        }
      }
      SubseqSorted(s, rs[1..], ScoreDesc());
      DroppedAreCovered(s, suppresses);
      var g := Greedy(rs, suppresses);
      assert g == [rs[0]] + Greedy(s, suppresses);
      forall r | r in rs ensures r in g || exists k :: k in g && k.score >= r.score && suppresses(k, r) {
        var m :| 0 <= m < |rs| && rs[m] == r;
        if m == 0 {
        } else if suppresses(rs[0], r) {
          assert rs[0].score >= rs[m].score;
          assert rs[0] in g;
        } else {
          assert rs[1..][m - 1] == r;
          assert r in s;
          if r in Greedy(s, suppresses) {
            assert r in g;
          } else {
            var k :| k in Greedy(s, suppresses) && k.score >= r.score && suppresses(k, r);
            assert k in g;
          }
        }
      }
    }
  }

  /** The filter's guarantees for an arbitrary input: no two kept boxes overlap, and each dropped box is covered. */
  lemma FilterGuarantees(rs: seq<Rectangle>, threshold: real)
    ensures forall i, j :: 0 <= i < j < |KeptRectangles(rs, threshold)| ==>
      !TouchingOrContained(KeptRectangles(rs, threshold)[i], KeptRectangles(rs, threshold)[j], threshold) &&
      !TouchingOrContained(KeptRectangles(rs, threshold)[j], KeptRectangles(rs, threshold)[i], threshold)
    ensures forall r :: r in rs ==>
      (r in KeptRectangles(rs, threshold) ||
       exists k :: k in KeptRectangles(rs, threshold) && k.score >= r.score && TouchingOrContained(k, r, threshold))
  {
    var sorted := SortByScore(rs);
    var kept := KeptRectangles(rs, threshold);
    GreedyApart(sorted, Suppresses(threshold));
    forall i, j | 0 <= i < j < |kept| ensures !TouchingOrContained(kept[j], kept[i], threshold) {
      TouchingSymmetric(kept[i], kept[j], threshold);
    }
    DroppedAreCovered(sorted, Suppresses(threshold));
    forall r | r in rs ensures r in multiset(sorted) {
    }
  }

  /** The rectangle line 148 builds for a detection. */
  function RectangleOf(d: Detection): Rectangle {
    Rectangle(d.x, d.y, d.width, d.height, d.score, d)
  }

  function Rectangles(ds: seq<Detection>): (rs: seq<Rectangle>)
    ensures |rs| == |ds|
    ensures forall i :: 0 <= i < |ds| ==> rs[i] == RectangleOf(ds[i])
  {
    if ds == [] then [] else [RectangleOf(ds[0])] + Rectangles(ds[1..])
  }

  /** Running the filter again on its own output (rebuilding the rectangles) changes nothing. */
  lemma FilterIdempotent(ds: seq<Detection>, threshold: real)
    ensures var once := Detections(KeptRectangles(Rectangles(ds), threshold));
      Detections(KeptRectangles(Rectangles(once), threshold)) == once
  {
    var rs := Rectangles(ds);
    var kept := KeptRectangles(rs, threshold);
    var once := Detections(kept);
    KeptOrdered(rs, threshold);
    assert Rectangles(once) == kept by {
      RebuiltRectangles(rs, kept);
    }
    GreedyApart(SortByScore(rs), Suppresses(threshold));
    assert PairwiseApart(kept, Suppresses(threshold));
    SortByOfSorted(kept, ScoreDesc());
    assert SortByScore(kept) == kept;
    GreedyOfApart(kept, Suppresses(threshold));
    assert KeptRectangles(kept, threshold) == kept;
  }

  /** Rectangles built from detections, and any selection of them, are rebuilt unchanged from their detections. */
  lemma RebuiltRectangles(rs: seq<Rectangle>, kept: seq<Rectangle>)
    requires forall i :: 0 <= i < |rs| ==> rs[i] == RectangleOf(rs[i].detection)
    requires multiset(kept) <= multiset(rs)
    ensures Rectangles(Detections(kept)) == kept
  {
    forall i | 0 <= i < |kept| ensures Rectangles(Detections(kept))[i] == kept[i] {
      assert kept[i] in multiset(kept);
      assert kept[i] in multiset(rs);
      var m :| 0 <= m < |rs| && rs[m] == kept[i];
    }
  }

  /** The detection record built at lines 133-143: unmapped aliases pass through, width and height from the corners. */
  function ToDetection(raw: RawBox, reverse: map<string, string>, imageName: string, imageWidth: int, imageHeight: int): (d: Detection)
    ensures d.labelName == (if raw.cls in reverse then reverse[raw.cls] else raw.cls)
    ensures d.x == raw.x1 && d.y == raw.y1
    ensures d.x + d.width == raw.x2 && d.y + d.height == raw.y2
    ensures d.score == raw.score && d.imageName == imageName
    ensures d.imageWidth == imageWidth && d.imageHeight == imageHeight
  {
    Detection(if raw.cls in reverse then reverse[raw.cls] else raw.cls,
      raw.x1, raw.y1, raw.x2 - raw.x1, raw.y2 - raw.y1,
      imageName, imageWidth, imageHeight, raw.score)
  }

  /** The confidence test of line 146: strictly above the threshold. */
  function Above(confidence: real): RawBox -> bool
  {
    (raw: RawBox) => raw.score > confidence
  }

  /** ToDetection for one image. */
  function ToDetectionIn(reverse: map<string, string>, imageName: string, imageWidth: int, imageHeight: int): RawBox -> Detection
  {
    (raw: RawBox) => ToDetection(raw, reverse, imageName, imageWidth, imageHeight)
  }

  /** The candidates among the first n boxes, as the loop collects them left to right. */
  function CandidatesUpTo(raws: seq<RawBox>, reverse: map<string, string>, imageName: string,
                          imageWidth: int, imageHeight: int, confidence: real, n: nat): seq<Detection>
    requires n <= |raws|
  {
    if n == 0 then []
    else
      CandidatesUpTo(raws, reverse, imageName, imageWidth, imageHeight, confidence, n - 1) +
      if raws[n - 1].score > confidence then [ToDetection(raws[n - 1], reverse, imageName, imageWidth, imageHeight)] else []
  }

  /** The loop's candidates are the boxes above the threshold, in order, each made a detection. */
  lemma {:induction false} CandidatesAll(raws: seq<RawBox>, reverse: map<string, string>, imageName: string,
                                         imageWidth: int, imageHeight: int, confidence: real, n: nat)
    requires n <= |raws|
    ensures CandidatesUpTo(raws, reverse, imageName, imageWidth, imageHeight, confidence, n) ==
      MapEach(Filter(raws[..n], Above(confidence)), ToDetectionIn(reverse, imageName, imageWidth, imageHeight))
  {
    var f := ToDetectionIn(reverse, imageName, imageWidth, imageHeight);
    var p := Above(confidence);
    if n == 0 {
      assert raws[..0] == [];
    } else {
      var x := raws[n - 1];
      var extra := if x.score > confidence then [ToDetection(x, reverse, imageName, imageWidth, imageHeight)] else [];
      var prev := MapEach(Filter(raws[..n - 1], p), f);
      assert CandidatesUpTo(raws, reverse, imageName, imageWidth, imageHeight, confidence, n - 1) == prev by {
        CandidatesAll(raws, reverse, imageName, imageWidth, imageHeight, confidence, n - 1);
      }
      assert MapEach(Filter(raws[..n], p), f) == prev + extra by {
        MapFilterPrefixSnoc(raws, p, f, n - 1);
        assert p(x) == (x.score > confidence);
        assert f(x) == ToDetection(x, reverse, imageName, imageWidth, imageHeight);
      }
    }
  }

  /**
   * The per-image loop of process_single_result (lines 126-158): boxes scoring strictly
   * above the confidence threshold become detections and rectangles, which are then filtered.
   */
  method ProcessImageBoxes(raws: seq<RawBox>, reverse: map<string, string>, imageName: string,
                           imageWidth: int, imageHeight: int, confidence: real, iouThreshold: real)
    returns (candidates: seq<Detection>, filtered: seq<Detection>)
    ensures candidates == MapEach(Filter(raws, Above(confidence)), ToDetectionIn(reverse, imageName, imageWidth, imageHeight))
    ensures filtered == Detections(KeptRectangles(Rectangles(candidates), iouThreshold))
  {
    var rectangles;
    candidates, rectangles := CollectCandidates(raws, reverse, imageName, imageWidth, imageHeight, confidence);
    assert candidates == MapEach(Filter(raws, Above(confidence)), ToDetectionIn(reverse, imageName, imageWidth, imageHeight)) by {
      CandidatesAll(raws, reverse, imageName, imageWidth, imageHeight, confidence, |raws|);
      assert raws[..|raws|] == raws;
    }
    filtered := FilterOverlappingRectangles(rectangles, iouThreshold);
  }

  /** The loop over one image's boxes: its candidate detections and their rectangles, side by side. */
  method CollectCandidates(raws: seq<RawBox>, reverse: map<string, string>, imageName: string,
                           imageWidth: int, imageHeight: int, confidence: real)
    returns (candidates: seq<Detection>, rectangles: seq<Rectangle>)
    ensures candidates == CandidatesUpTo(raws, reverse, imageName, imageWidth, imageHeight, confidence, |raws|)
    ensures rectangles == Rectangles(candidates)
  {
    candidates := [];
    rectangles := [];
    var n := 0;
    while n < |raws|
      invariant 0 <= n <= |raws|
      invariant candidates == CandidatesUpTo(raws, reverse, imageName, imageWidth, imageHeight, confidence, n)
      invariant rectangles == Rectangles(candidates)
    {
      var detection := ToDetection(raws[n], reverse, imageName, imageWidth, imageHeight);
      if raws[n].score > confidence {
        candidates := candidates + [detection];
        rectangles := rectangles + [RectangleOf(detection)];
      }
      n := n + 1;
    }
  }

  /**
   * What the candidates are: every one scores strictly above the threshold
   * and is the detection of some box, and every box above the threshold is
   * among them.
   */
  lemma CandidatesSpec(raws: seq<RawBox>, reverse: map<string, string>, imageName: string,
                       imageWidth: int, imageHeight: int, confidence: real)
    ensures var c := MapEach(Filter(raws, Above(confidence)), ToDetectionIn(reverse, imageName, imageWidth, imageHeight));
      && |c| <= |raws|
      && (forall i :: 0 <= i < |c| ==> c[i].score > confidence)
      && (forall i :: 0 <= i < |raws| && raws[i].score > confidence ==>
            ToDetection(raws[i], reverse, imageName, imageWidth, imageHeight) in c)
      && (forall d :: d in c ==> exists i :: 0 <= i < |raws| && d == ToDetection(raws[i], reverse, imageName, imageWidth, imageHeight))
  {
    var p := Above(confidence);
    var f := ToDetectionIn(reverse, imageName, imageWidth, imageHeight);
    var c := MapEach(Filter(raws, p), f);
    MapFilterMembers(raws, p, f);
    forall i | 0 <= i < |c| ensures c[i].score > confidence {
      assert c[i] in c;
      var j :| 0 <= j < |raws| && p(raws[j]) && c[i] == f(raws[j]);
    }
    forall i | 0 <= i < |raws| && raws[i].score > confidence
      ensures ToDetection(raws[i], reverse, imageName, imageWidth, imageHeight) in c
    {
      assert p(raws[i]);
    }
    forall d | d in c ensures exists i :: 0 <= i < |raws| && d == ToDetection(raws[i], reverse, imageName, imageWidth, imageHeight) {
      var j :| 0 <= j < |raws| && p(raws[j]) && d == f(raws[j]);
    }
  }
}
