/**
 The values the detection core passes around. The inference engine that
 produces them is not part of this model: a `ResultBundle` is simply an
 input value, as it is for the composables that consume it.
 */
module Detections {

  /** Kotlin's nullable reference: `null` is `None`. */
  datatype Option<+T> = None | Some(value: T)

  /** The only exception the modelled code can raise by itself:
      `first()` on an empty list throws `NoSuchElementException`. */
  datatype Fault = NoSuchElement

  /** The effect of a handler that updates state step by step. `Threw`
      carries the state as it stands when the exception escapes: every
      assignment made before the throwing call has already happened. */
  datatype Outcome<+S> = Done(state: S) | Threw(fault: Fault, state: S)

  /** An axis-aligned rectangle in source-frame pixels, as Android's
      `RectF`: `width()` is `right - left`, `height()` is `bottom - top`. */
  datatype RectF = RectF(left: real, top: real, right: real, bottom: real)
  {
    function Width(): real { right - left }
    function Height(): real { bottom - top }
  }

  /** One category of a detection. The score's decimal rendering
      (`Float.toString`) is kept as an abstract string. */
  datatype Category = Category(name: string, scoreText: string)

  /** One detected object: its bounding box and its categories, best first. */
  datatype Detection = Detection(boundingBox: RectF, categories: seq<Category>)

  /** The engine's result for one frame; `detections()` may be null. */
  datatype DetectionResult = DetectionResult(detections: Option<seq<Detection>>)

  /** What the detector helper hands back: one result per processed frame
      (one for an image or a camera frame, one per sampled frame of a video),
      the inference time in milliseconds and the input image dimensions. */
  datatype ResultBundle = ResultBundle(
    results: seq<DetectionResult>,
    inferenceTime: int,
    inputImageWidth: int,
    inputImageHeight: int)

  /** Kotlin's `List.first()`: the head of the list, or `None` where the
      call would throw. */
  function First<T>(xs: seq<T>): (r: Option<T>)
    ensures r.Some? <==> |xs| > 0
    ensures r.Some? ==> r.value == xs[0]
  {
    if |xs| == 0 then None else Some(xs[0])
  }
}
