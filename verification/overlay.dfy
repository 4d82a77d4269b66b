/**
 The results overlay: every detection's bounding box, given in the pixels of
 the frame the detector saw, is scaled proportionally onto the viewport the
 media is drawn in, and captioned with its best category. The mapping
 assumes the media fills the viewport with the frame's aspect ratio; there
 is no letterbox correction.
 */
module Overlay {
  import opened Detections

  /** A box in viewport units: the offset of its top-left corner and its size. */
  datatype ViewBox = ViewBox(left: real, top: real, width: real, height: real)

  /** One drawn overlay element: the bordered box and its caption. */
  datatype DrawnBox = DrawnBox(box: ViewBox, caption: string)

  /** `a / d * m`, characterised by what multiplying back by `d` gives. */
  function Scale(a: real, d: real, m: real): (r: real)
    requires d > 0.0
    ensures r * d == a * m
  {
    a / d * m
  }

  /** The geometry of one detection on screen. Each coordinate is the box's
      coordinate divided by the frame extent along the same axis, times the
      viewport extent along that axis; the four equations below determine
      the result uniquely because the frame extents are positive. */
  function MapBox(b: RectF, frameWidth: int, frameHeight: int, maxWidth: real, maxHeight: real): (v: ViewBox)
    requires frameWidth > 0 && frameHeight > 0
    ensures v.width * (frameWidth as real) == b.Width() * maxWidth
    ensures v.height * (frameHeight as real) == b.Height() * maxHeight
    ensures v.left * (frameWidth as real) == b.left * maxWidth
    ensures v.top * (frameHeight as real) == b.top * maxHeight
  {
    ViewBox(
      Scale(b.left, frameWidth as real, maxWidth),
      Scale(b.top, frameHeight as real, maxHeight),
      Scale(b.Width(), frameWidth as real, maxWidth),
      Scale(b.Height(), frameHeight as real, maxHeight))
  }

  /** Kotlin's `String.take(n)`: the longest prefix of at most `n` characters. */
  function Take(s: string, n: nat): (t: string)
    ensures |t| == (if |s| < n then |s| else n)
    ensures t <= s
  {
    if |s| < n then s else s[..n]
  }

  /** The caption of a detection whose best category is `c`: its name, a
      space, and at most the first four characters of its score. */
  function Label(c: Category): (l: string)
    ensures |l| == |c.name| + 1 + (if |c.scoreText| < 4 then |c.scoreText| else 4)
    ensures l[..|c.name|] == c.name && l[|c.name|] == ' '
    ensures l[|c.name| + 1..] <= c.scoreText
  {
    c.name + " " + Take(c.scoreText, 4)
  }

  /** A caption determines the category name (given its length) and the
      shown score prefix: two categories with the same name length and the
      same first four score characters have the same label, and conversely. */
  lemma LabelInjective(c: Category, d: Category)
    requires |c.name| == |d.name|
    ensures Label(c) == Label(d) <==> c.name == d.name && Take(c.scoreText, 4) == Take(d.scoreText, 4)
  {
  }

  /** One detection drawn onto the viewport; `None` where
      `categories().first()` would throw. */
  function DrawDetection(d: Detection, frameWidth: int, frameHeight: int, maxWidth: real, maxHeight: real): (o: Option<DrawnBox>)
    requires frameWidth > 0 && frameHeight > 0
    ensures o.Some? <==> |d.categories| > 0
    ensures o.Some? ==> o.value.caption == Label(d.categories[0])
    ensures o.Some? ==> o.value.box == MapBox(d.boundingBox, frameWidth, frameHeight, maxWidth, maxHeight)
  {
    match First(d.categories)
    case None => None
    case Some(c) => Some(DrawnBox(MapBox(d.boundingBox, frameWidth, frameHeight, maxWidth, maxHeight), Label(c)))
  }

  /** Every detection that has a category. */
  ghost predicate AllCategorised(ds: seq<Detection>)
  {
    forall i :: 0 <= i < |ds| ==> |ds[i].categories| > 0
  }

  /** The detections drawn in list order. Composition stops at the first
      detection without categories; the boxes drawn before it are kept in
      `Threw`. */
  function DrawAll(ds: seq<Detection>, frameWidth: int, frameHeight: int, maxWidth: real, maxHeight: real): (o: Outcome<seq<DrawnBox>>)
    requires frameWidth > 0 && frameHeight > 0
    ensures o.Done? <==> AllCategorised(ds)
    ensures |o.state| <= |ds|
    ensures o.Done? ==> |o.state| == |ds|
    ensures forall i :: 0 <= i < |o.state| ==>
      DrawDetection(ds[i], frameWidth, frameHeight, maxWidth, maxHeight) == Some(o.state[i])
    ensures o.Threw? ==> |o.state| < |ds| && |ds[|o.state|].categories| == 0
  {
    if |ds| == 0 then Done([])
    else
      var head := DrawDetection(ds[0], frameWidth, frameHeight, maxWidth, maxHeight);
      if head.None? then Threw(NoSuchElement, [])
      else
        var rest := DrawAll(ds[1..], frameWidth, frameHeight, maxWidth, maxHeight);
        var drawn := [head.value] + rest.state;
        assert forall i :: 1 <= i < |drawn| ==> drawn[i] == rest.state[i - 1] && ds[i] == ds[1..][i - 1];
        if rest.Done? then Done(drawn) else Threw(rest.fault, drawn)
  }

  /** The whole overlay of one result. A null detection list draws nothing. */
  function Draw(r: DetectionResult, frameWidth: int, frameHeight: int, maxWidth: real, maxHeight: real): (o: Outcome<seq<DrawnBox>>)
    requires frameWidth > 0 && frameHeight > 0
    ensures r.detections.None? ==> o == Done([])
    ensures r.detections.Some? ==> o == DrawAll(r.detections.value, frameWidth, frameHeight, maxWidth, maxHeight)
  {
    match r.detections
    case None => Done([])
    case Some(ds) => DrawAll(ds, frameWidth, frameHeight, maxWidth, maxHeight)
  }

  /** The box lies in the frame rectangle [0, w] x [0, h]. */
  predicate InFrame(b: RectF, w: real, h: real)
  {
    0.0 <= b.left <= b.right <= w && 0.0 <= b.top <= b.bottom <= h
  }

  /** The box lies in the viewport [0, w] x [0, h]. */
  predicate InViewport(v: ViewBox, w: real, h: real)
  {
    0.0 <= v.left && 0.0 <= v.width && v.left + v.width <= w
    && 0.0 <= v.top && 0.0 <= v.height && v.top + v.height <= h
  }

  /** Scaling one axis: `0 <= lo <= hi <= d` maps into `[0, m]`. */
  lemma ScaleSegment(lo: real, hi: real, d: real, m: real)
    requires d > 0.0 && m >= 0.0
    requires 0.0 <= lo <= hi <= d
    ensures 0.0 <= Scale(lo, d, m)
    ensures 0.0 <= Scale(hi - lo, d, m)
    ensures Scale(lo, d, m) + Scale(hi - lo, d, m) <= m
  {
    assert (Scale(lo, d, m) + Scale(hi - lo, d, m)) * d == hi * m <= d * m;
  }

  /** A box inside the frame is drawn inside the viewport: no clipping is
      needed for any positive frame size and non-negative viewport. */
  lemma MapBoxInViewport(b: RectF, frameWidth: int, frameHeight: int, maxWidth: real, maxHeight: real)
    requires frameWidth > 0 && frameHeight > 0
    requires maxWidth >= 0.0 && maxHeight >= 0.0
    requires InFrame(b, frameWidth as real, frameHeight as real)
    ensures InViewport(MapBox(b, frameWidth, frameHeight, maxWidth, maxHeight), maxWidth, maxHeight)
  {
    var fw, fh := frameWidth as real, frameHeight as real;
    ScaleSegment(b.left, b.right, fw, maxWidth);
    ScaleSegment(b.top, b.bottom, fh, maxHeight);
    assert MapBox(b, frameWidth, frameHeight, maxWidth, maxHeight)
        == ViewBox(Scale(b.left, fw, maxWidth), Scale(b.top, fh, maxHeight),
                   Scale(b.right - b.left, fw, maxWidth), Scale(b.bottom - b.top, fh, maxHeight));
  }

  /** The whole frame maps onto the whole viewport. */
  lemma FullFrameFillsViewport(frameWidth: int, frameHeight: int, maxWidth: real, maxHeight: real)
    requires frameWidth > 0 && frameHeight > 0
    ensures MapBox(RectF(0.0, 0.0, frameWidth as real, frameHeight as real), frameWidth, frameHeight, maxWidth, maxHeight)
         == ViewBox(0.0, 0.0, maxWidth, maxHeight)
  {
  }

  /** The 1000x1000 frame with a 50x50 box at (100, 200) on a 200x200
      viewport is drawn at (20, 40) with size 10x10. */
  lemma MapBoxScenario()
    ensures MapBox(RectF(100.0, 200.0, 150.0, 250.0), 1000, 1000, 200.0, 200.0)
         == ViewBox(20.0, 40.0, 10.0, 10.0)
  {
  }

  /** The box and the frame scaled by the same factor. */
  function ScaleRect(b: RectF, k: real): (s: RectF)
    ensures s.Width() == b.Width() * k && s.Height() == b.Height() * k
    ensures s.left == b.left * k && s.top == b.top * k
  {
    RectF(b.left * k, b.top * k, b.right * k, b.bottom * k)
  }

  /** Scaling the frame and the box by the same positive factor leaves the
      drawn box unchanged. The factor is any positive real that takes the
      frame to another whole-pixel frame, so enlarging and shrinking (a
      1000x1000 frame halved to 500x500) are both covered. */
  lemma MapBoxScaleInvariant(b: RectF, frameWidth: int, frameHeight: int, scaledWidth: int, scaledHeight: int,
                             k: real, maxWidth: real, maxHeight: real)
    requires frameWidth > 0 && frameHeight > 0 && k > 0.0
    requires scaledWidth as real == (frameWidth as real) * k
    requires scaledHeight as real == (frameHeight as real) * k
    ensures scaledWidth > 0 && scaledHeight > 0
    ensures MapBox(ScaleRect(b, k), scaledWidth, scaledHeight, maxWidth, maxHeight)
         == MapBox(b, frameWidth, frameHeight, maxWidth, maxHeight)
  {
  }

  /** Halving the 1000x1000 frame and its box keeps the drawn box. */
  lemma MapBoxHalvedScenario()
    ensures MapBox(RectF(50.0, 100.0, 75.0, 125.0), 500, 500, 200.0, 200.0)
         == MapBox(RectF(100.0, 200.0, 150.0, 250.0), 1000, 1000, 200.0, 200.0)
  {
    MapBoxScaleInvariant(RectF(100.0, 200.0, 150.0, 250.0), 1000, 1000, 500, 500, 0.5, 200.0, 200.0);
    assert ScaleRect(RectF(100.0, 200.0, 150.0, 250.0), 0.5) == RectF(50.0, 100.0, 75.0, 125.0);
  }

  /** Every box drawn for detections that lie inside the frame lies inside
      the viewport. */
  lemma {:induction false} DrawAllInViewport(ds: seq<Detection>, frameWidth: int, frameHeight: int, maxWidth: real, maxHeight: real)
    requires frameWidth > 0 && frameHeight > 0
    requires maxWidth >= 0.0 && maxHeight >= 0.0
    requires forall i :: 0 <= i < |ds| ==> InFrame(ds[i].boundingBox, frameWidth as real, frameHeight as real)
    ensures var o := DrawAll(ds, frameWidth, frameHeight, maxWidth, maxHeight);
      forall i :: 0 <= i < |o.state| ==> InViewport(o.state[i].box, maxWidth, maxHeight)
  {
    var o := DrawAll(ds, frameWidth, frameHeight, maxWidth, maxHeight);
    forall i | 0 <= i < |o.state|
      ensures InViewport(o.state[i].box, maxWidth, maxHeight)
    {
      MapBoxInViewport(ds[i].boundingBox, frameWidth, frameHeight, maxWidth, maxHeight);
    }
  }
}
