/** The drawing helpers: `draw_bounding_boxes`, which draws each detection's
    box and caption onto a copy of an image and returns one label per
    detection, and the no-resize guard of `resize_for_display`.

    Pixels are not modelled: an image is its size and the list of strokes drawn
    on it, in drawing order. */
module ImageUtils {
  import opened FlatTable
  import opened Decimal
  import opened DetectionDecoder

  /** The placeholder label shown when there are no detections. */
  const NO_RESULTS: string := "推論結果なし"

  /** One drawing call: `cv2.rectangle` between two corners, or `cv2.putText`
      of a caption at a position. */
  datatype Stroke = Box(left: int, top: int, right: int, bottom: int) | Caption(text: string, x: int, y: int)

  /** An image buffer that drawing changes in place. */
  class Image {
    const width: nat
    const height: nat
    var strokes: seq<Stroke>

    constructor (width: nat, height: nat, strokes: seq<Stroke>)
      ensures this.width == width && this.height == height && this.strokes == strokes
    {
      this.width, this.height, this.strokes := width, height, strokes;
    }

    /** `image.copy()`: a new buffer with the same contents. */
    method Copy() returns (c: Image)
      ensures fresh(c)
      ensures c.width == width && c.height == height && c.strokes == strokes
    {
      c := new Image(width, height, strokes);
    }

    /** `cv2.rectangle` and `cv2.putText`: drawing adds one stroke on top. */
    method Draw(s: Stroke)
      modifies this`strokes
      ensures strokes == old(strokes) + [s]
    {
      strokes := strokes + [s];
    }
  }

  /** A scale factor, a positive ratio. */
  datatype Scale = Scale(num: nat, den: nat)

  predicate ValidScale(s: Scale) {
    s.num > 0 && s.den > 0
  }

  const UNIT: Scale := Scale(1, 1)

  /** `int(v * scale)`: the product truncated toward zero. */
  function Scaled(v: int, s: Scale): int
    requires ValidScale(s)
  {
    if v >= 0 then v * s.num / s.den else -((-v) * s.num / s.den)
  }

  /** The scaled coordinate is the exact product truncated toward zero: it
      lies within one unit of the product, on the side of zero; at scale 1 a
      coordinate is unchanged. */
  lemma ScaledTruncates(v: int, s: Scale)
    requires ValidScale(s)
    ensures var r := Scaled(v, s);
      && (v >= 0 ==> r * s.den <= v * s.num < (r + 1) * s.den)
      && (v < 0 ==> (r - 1) * s.den < v * s.num <= r * s.den)
    ensures s == UNIT ==> Scaled(v, s) == v
  {
    var a: nat := if v >= 0 then v else -v;
    var p := a * s.num;
    DivBounds(p, s.den);
    if v < 0 {
      assert v * s.num == -p;
    }
  }

  lemma DivBounds(p: nat, d: nat)
    requires d > 0
    ensures (p / d) * d <= p < (p / d + 1) * d
  {
    var q, r := p / d, p % d;
    assert p == d * q + r;
    assert (q + 1) * d == q * d + d;
  }

  /** The name shown for a class id: the configured name when the id indexes
      the class list, otherwise `Unknown-<id>`. */
  function ClassName(id: nat, objclass: seq<string>): string {
    if id < |objclass| then objclass[id] else "Unknown-" + NatToString(id)
  }

  /** A configured id shows its configured name; any other id shows a name
      from which the id can be read back. */
  lemma {:induction false} ClassNameLookup(id: nat, objclass: seq<string>)
    ensures id < |objclass| ==> ClassName(id, objclass) == objclass[id]
    ensures id >= |objclass| ==> var name := ClassName(id, objclass);
      && |name| > 8 && name[..8] == "Unknown-"
      && AllDigits(name[8..]) && ParseNat(name[8..]) == id
  {
    if id >= |objclass| {
      var name := ClassName(id, objclass);
      assert name[8..] == NatToString(id);
      ParseNatToString(id);
    }
  }

  /** How a score is written; `draw_bounding_boxes` uses `Decimal.FormatScore`,
      the `{:.2f}` format. */
  type ScoreFormat = Bits32 -> string

  /** The label of one detection: its class name and its score to two decimals. */
  function Label(d: Detection, objclass: seq<string>, format: ScoreFormat): string {
    "Class: " + ClassName(d.classId, objclass) + ", Score: " + format(d.score)
  }

  /** The labels of the detections, in order. */
  function Labels(dets: seq<Detection>, objclass: seq<string>, format: ScoreFormat): seq<string> {
    if dets == [] then [] else Labels(dets[..|dets| - 1], objclass, format) + [Label(dets[|dets| - 1], objclass, format)]
  }

  /** Exactly one label per detection, in detection order. */
  lemma {:induction false} LabelsInOrder(dets: seq<Detection>, objclass: seq<string>, format: ScoreFormat)
    ensures |Labels(dets, objclass, format)| == |dets|
    ensures forall i :: 0 <= i < |dets| ==> Labels(dets, objclass, format)[i] == Label(dets[i], objclass, format)
  {
    if dets != [] {
      var init := dets[..|dets| - 1];
      LabelsInOrder(init, objclass, format);
      var labels := Labels(dets, objclass, format);
      assert labels == Labels(init, objclass, format) + [Label(dets[|dets| - 1], objclass, format)];
      forall i | 0 <= i < |dets| ensures labels[i] == Label(dets[i], objclass, format) {
        if i < |init| {
          assert init[i] == dets[i];
        }
      }
    }
  }

  /** The labels `draw_bounding_boxes` returns. */
  function ReturnedLabels(dets: seq<Detection>, objclass: seq<string>, format: ScoreFormat): seq<string> {
    if dets == [] then [NO_RESULTS] else Labels(dets, objclass, format)
  }

  /** The two strokes for one detection: its box with scaled corners, then its
      caption 2 pixels right of and 20 pixels below the top-left corner. */
  function DetectionStrokes(d: Detection, objclass: seq<string>, format: ScoreFormat, sx: Scale, sy: Scale): seq<Stroke>
    requires ValidScale(sx) && ValidScale(sy)
  {
    var left, top := Scaled(d.left, sx), Scaled(d.top, sy);
    [Box(left, top, Scaled(d.right, sx), Scaled(d.bottom, sy)), Caption(Label(d, objclass, format), left + 2, top + 20)]
  }

  /** Everything drawn for the detections, in order. */
  function Strokes(dets: seq<Detection>, objclass: seq<string>, format: ScoreFormat, sx: Scale, sy: Scale): seq<Stroke>
    requires ValidScale(sx) && ValidScale(sy)
  {
    if dets == [] then []
    else Strokes(dets[..|dets| - 1], objclass, format, sx, sy) + DetectionStrokes(dets[|dets| - 1], objclass, format, sx, sy)
  }

  /** Detection `i` is drawn as strokes `2i` (its box) and `2i + 1` (its
      caption, which is its label); at scale 1 the box corners are the
      detection's own edges. */
  lemma {:induction false} StrokesInOrder(dets: seq<Detection>, objclass: seq<string>, format: ScoreFormat, sx: Scale, sy: Scale)
    requires ValidScale(sx) && ValidScale(sy)
    ensures |Strokes(dets, objclass, format, sx, sy)| == 2 * |dets|
    ensures forall i :: 0 <= i < |dets| ==>
      var ss, d := Strokes(dets, objclass, format, sx, sy), dets[i];
      && ss[2 * i] == Box(Scaled(d.left, sx), Scaled(d.top, sy), Scaled(d.right, sx), Scaled(d.bottom, sy))
      && ss[2 * i + 1] == Caption(Label(d, objclass, format), Scaled(d.left, sx) + 2, Scaled(d.top, sy) + 20)
  {
    if dets != [] {
      var init := dets[..|dets| - 1];
      StrokesInOrder(init, objclass, format, sx, sy);
      var ss := Strokes(dets, objclass, format, sx, sy);
      assert ss == Strokes(init, objclass, format, sx, sy) + DetectionStrokes(dets[|dets| - 1], objclass, format, sx, sy);
      forall i | 0 <= i < |init| ensures init[i] == dets[i] {
      }
    }
  }

  /** `draw_bounding_boxes(image, detections, objclass, scale_x, scale_y)`:
      the input image is left as it was; the returned copy carries one box and
      one caption per detection, and the labels are one per detection, or the
      placeholder when there are none. */
  method DrawBoundingBoxes(image: Image, detections: seq<Detection>, objclass: seq<string>, sx: Scale, sy: Scale, format: ScoreFormat)
    returns (result: Image, labels: seq<string>)
    requires ValidScale(sx) && ValidScale(sy)
    ensures fresh(result)
    ensures result.width == image.width && result.height == image.height
    ensures result.strokes == image.strokes + Strokes(detections, objclass, format, sx, sy)
    ensures labels == ReturnedLabels(detections, objclass, format)
  {
    result := image.Copy();
    if |detections| == 0 {
      return result, [NO_RESULTS];
    }
    labels := [];
    var i := 0;
    while i < |detections|
      invariant i <= |detections|
      invariant labels == Labels(detections[..i], objclass, format)
      invariant result.strokes == image.strokes + Strokes(detections[..i], objclass, format, sx, sy)
      invariant result.width == image.width && result.height == image.height
      invariant fresh(result)
    {
      DrawStep(detections, i, objclass, format, sx, sy);
      var text := DrawDetection(result, detections[i], objclass, sx, sy, format);
      labels := labels + [text];
      i := i + 1;
    }
    assert detections[..i] == detections;
  }

  /** The body of the loop of `draw_bounding_boxes` for one detection: its
      box, then its label as a caption; the label is returned. */
  method DrawDetection(result: Image, d: Detection, objclass: seq<string>, sx: Scale, sy: Scale, format: ScoreFormat)
    returns (text: string)
    requires ValidScale(sx) && ValidScale(sy)
    modifies result`strokes
    ensures result.strokes == old(result.strokes) + DetectionStrokes(d, objclass, format, sx, sy)
    ensures text == Label(d, objclass, format)
  {
    var left, top, right, bottom := Scaled(d.left, sx), Scaled(d.top, sy), Scaled(d.right, sx), Scaled(d.bottom, sy);
    var name := if d.classId < |objclass| then objclass[d.classId] else "Unknown-" + NatToString(d.classId);
    result.Draw(Box(left, top, right, bottom));
    text := "Class: " + name + ", Score: " + format(d.score);
    result.Draw(Caption(text, left + 2, top + 20));
  }

  lemma DrawStep(dets: seq<Detection>, i: nat, objclass: seq<string>, format: ScoreFormat, sx: Scale, sy: Scale)
    requires ValidScale(sx) && ValidScale(sy) && i < |dets|
    ensures Labels(dets[..i + 1], objclass, format) == Labels(dets[..i], objclass, format) + [Label(dets[i], objclass, format)]
    ensures Strokes(dets[..i + 1], objclass, format, sx, sy)
         == Strokes(dets[..i], objclass, format, sx, sy) + DetectionStrokes(dets[i], objclass, format, sx, sy)
  {
    assert dets[..i + 1][..i] == dets[..i];
  }

  /** What `resize_for_display` does with an image of the given size. */
  datatype Resize = Unchanged | Resized(width: nat, height: nat) | DivisionByZero

  /** `resize_for_display(image, max_width, max_height)`: an image within the
      bounds is returned as it is; a larger one is shrunk by the smaller of the
      two ratios, keeping its aspect ratio, with each side truncated. Ratios
      are exact here. */
  function ResizeForDisplay(width: nat, height: nat, maxWidth: nat, maxHeight: nat): (r: Resize)
    ensures r == Unchanged <==> width <= maxWidth && height <= maxHeight
    ensures r == DivisionByZero <==> !(width <= maxWidth && height <= maxHeight) && (width == 0 || height == 0)
  {
    if width <= maxWidth && height <= maxHeight then Unchanged
    else if width == 0 || height == 0 then DivisionByZero
    else if maxWidth * height <= maxHeight * width then Resized(maxWidth, Shrink(height, maxWidth, width))
    else Resized(Shrink(width, maxHeight, height), maxHeight)
  }

  /** `int(a * (m / b))` with an exact ratio. */
  function Shrink(a: nat, m: nat, b: nat): nat
    requires b > 0
  {
    assert a * m >= 0;
    a * m / b
  }

  /** A resized image fits within both bounds and reaches at least one of them. */
  lemma ResizeFits(width: nat, height: nat, maxWidth: nat, maxHeight: nat)
    ensures var r := ResizeForDisplay(width, height, maxWidth, maxHeight);
      r.Resized? ==> && r.width <= maxWidth && r.height <= maxHeight
                     && (r.width == maxWidth || r.height == maxHeight)
  {
    var r := ResizeForDisplay(width, height, maxWidth, maxHeight);
    if r.Resized? {
      if maxWidth * height <= maxHeight * width {
        FitStep(height, maxWidth, width, maxHeight);
      } else {
        FitStep(width, maxHeight, height, maxWidth);
      }
    }
  }

  /** Scaling side `a` by `m / b`, where `m / b` is the smaller ratio, stays
      within the other bound `bound`. */
  lemma FitStep(a: nat, m: nat, b: nat, bound: nat)
    requires b > 0 && m * a <= bound * b
    ensures Shrink(a, m, b) <= bound
  {
    assert a * m >= 0;
    DivBounds(a * m, b);
    assert a * m == m * a;
  }
}
