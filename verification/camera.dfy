/**
 The live camera view as a state machine. Its state is the liveness flag,
 the result on show, the frame size used to scale the overlay, the
 inference time shown beneath the preview, and how many camera bindings
 are open. Three events drive it: the camera provider becoming ready (the
 view unbinds everything, then binds preview and analysis), the view being
 disposed, and the detector delivering a result for a frame.

 The liveness guard is deliberately asymmetric: a delivery after disposal
 still overwrites the frame size, but never the result or the inference
 time. Threads, the frame analyser and its keep-only-latest backpressure are
 not modelled; deliveries arrive as events in the order they are handled.
 */
module Camera {
  import opened Detections
  import opened Overlay

  /** The frame size assumed before the first delivery reports the real one. */
  const InitialFrameWidth: int := 3
  const InitialFrameHeight: int := 4

  datatype CameraState = CameraState(
    active: bool,
    results: Option<DetectionResult>,
    frameWidth: int,
    frameHeight: int,
    inferenceTime: int,
    bound: nat)

  datatype Event =
    | Bind                          // provider ready: unbindAll, then bindToLifecycle
    | Dispose                       // the view leaves the composition
    | Delivered(bundle: ResultBundle)  // the detector's result callback

  /** The view when first composed: live, nothing on show, a 3x4 frame,
      no camera bound yet; the inference time is the screen's. */
  function Init(inferenceTime: int): (s: CameraState)
    ensures s.active && s.results.None?
    ensures s.frameWidth == 3 && s.frameHeight == 4
    ensures s.inferenceTime == inferenceTime && s.bound == 0
  {
    CameraState(true, None, InitialFrameWidth, InitialFrameHeight, inferenceTime, 0)
  }

  /** Clears every camera binding. */
  function UnbindAll(s: CameraState): (t: CameraState)
    ensures t.bound == 0
    ensures t == s.(bound := t.bound)
  {
    s.(bound := 0)
  }

  /** One event. A delivery always stores the frame size of its input image
      first; only then, and only while the view is live, does it show the
      first result and the inference time. An empty result list makes
      `first()` throw once the frame size is already stored. */
  function Step(s: CameraState, e: Event): (o: Outcome<CameraState>)
    ensures o.state.active == (s.active && !e.Dispose?)
    ensures e.Bind? ==> o.Done? && o.state == s.(bound := 1)
    ensures e.Dispose? ==> o.Done? && o.state == s.(active := false, bound := 0)
    ensures e.Delivered? ==>
      && o.state.frameWidth == e.bundle.inputImageWidth
      && o.state.frameHeight == e.bundle.inputImageHeight
      && o.state.bound == s.bound
    ensures e.Delivered? && !s.active ==>
      o.Done? && o.state.results == s.results && o.state.inferenceTime == s.inferenceTime
    ensures e.Delivered? && s.active ==>
      && (o.Done? <==> |e.bundle.results| > 0)
      && (o.Done? ==> o.state.results == Some(e.bundle.results[0]) && o.state.inferenceTime == e.bundle.inferenceTime)
      && (o.Threw? ==> o.state.results == s.results && o.state.inferenceTime == s.inferenceTime)
  {
    match e
    case Bind =>
      var cleared := UnbindAll(s);
      Done(cleared.(bound := cleared.bound + 1))
    case Dispose =>
      Done(UnbindAll(s.(active := false)))
    case Delivered(b) =>
      var sized := s.(frameHeight := b.inputImageHeight, frameWidth := b.inputImageWidth);
      if !sized.active then Done(sized)
      else
        match First(b.results)
        case None => Threw(NoSuchElement, sized)
        case Some(r) => Done(sized.(results := Some(r), inferenceTime := b.inferenceTime))
  }

  /** The events in order; an exception escaping a handler ends the run. At
      most one camera binding is ever open: each bind clears the previous
      ones first. */
  function Run(s: CameraState, es: seq<Event>): (o: Outcome<CameraState>)
    ensures s.bound <= 1 ==> o.state.bound <= 1
    ensures !s.active ==> !o.state.active
    decreases |es|
  {
    if |es| == 0 then Done(s)
    else
      match Step(s, es[0])
      case Threw(f, t) => Threw(f, t)
      case Done(t) => Run(t, es[1..])
  }

  /** Running two event sequences one after the other. */
  lemma {:induction false} RunAppend(s: CameraState, a: seq<Event>, b: seq<Event>)
    ensures Run(s, a + b) == match Run(s, a) { case Done(t) => Run(t, b) case Threw(f, t) => Threw(f, t) }
    decreases |a|
  {
    if |a| == 0 {
      assert a + b == b;
    } else {
      assert (a + b)[0] == a[0];
      assert (a + b)[1..] == a[1..] + b;
      match Step(s, a[0])
      case Threw(f, t) =>
      case Done(t) => RunAppend(t, a[1..], b);
    }
  }

  /** Disposing twice is the same as disposing once. */
  lemma DisposeIdempotent(s: CameraState)
    ensures Step(Step(s, Dispose).state, Dispose) == Step(s, Dispose)
  {
  }

  /** A disposed view is frozen: whatever is delivered afterwards, nothing
      throws, the view stays disposed, and neither the result on show nor
      the inference time changes. */
  lemma {:induction false} DisposedIsFrozen(s: CameraState, es: seq<Event>)
    requires !s.active
    ensures Run(s, es).Done?
    ensures !Run(s, es).state.active
    ensures Run(s, es).state.results == s.results
    ensures Run(s, es).state.inferenceTime == s.inferenceTime
    decreases |es|
  {
    if |es| > 0 {
      DisposedIsFrozen(Step(s, es[0]).state, es[1..]);
    }
  }

  /** With every event handled atomically, no result reaches the view after
      disposal: the result and inference time on show at the moment of
      disposal are the ones left at the end. A callback that has already
      passed its liveness test when disposal runs on another thread is not
      an event of this model. */
  lemma {:induction false} NothingShownAfterDispose(s: CameraState, before: seq<Event>, after: seq<Event>)
    requires Run(s, before).Done?
    ensures var o := Run(s, before + [Dispose] + after);
      && o.Done?
      && o.state.results == Run(s, before).state.results
      && o.state.inferenceTime == Run(s, before).state.inferenceTime
  {
    var t := Run(s, before).state;
    RunAppend(s, before, [Dispose] + after);
    assert before + [Dispose] + after == before + ([Dispose] + after);
    assert ([Dispose] + after)[1..] == after;
    DisposedIsFrozen(Step(t, Dispose).state, after);
  }

  /** The frame size reported by the last delivery among the events, or the
      given size if there is none. */
  function LastFrameSize(w: int, h: int, es: seq<Event>): (r: (int, int))
    ensures (forall i :: 0 <= i < |es| ==> !es[i].Delivered?) ==> r == (w, h)
    ensures forall i :: 0 <= i < |es| && es[i].Delivered? && (forall j :: i < j < |es| ==> !es[j].Delivered?) ==>
      r == (es[i].bundle.inputImageWidth, es[i].bundle.inputImageHeight)
  {
    if |es| == 0 then (w, h)
    else
      var init, e := es[..|es| - 1], es[|es| - 1];
      if e.Delivered? then (e.bundle.inputImageWidth, e.bundle.inputImageHeight)
      else
        assert forall i :: 0 <= i < |init| ==> init[i] == es[i];
        LastFrameSize(w, h, init)
  }

  /** The frame size used for the overlay is the one of the last delivery,
      whether the view was live or already disposed when it arrived. */
  lemma {:induction false} FrameSizeTracksLastDelivery(s: CameraState, es: seq<Event>)
    requires Run(s, es).Done?
    ensures (Run(s, es).state.frameWidth, Run(s, es).state.frameHeight) == LastFrameSize(s.frameWidth, s.frameHeight, es)
    decreases |es|
  {
    if |es| > 0 {
      var init, e := es[..|es| - 1], es[|es| - 1];
      assert es == init + [e];
      RunAppend(s, init, [e]);
      var t := Run(s, init);
      assert t.Done?;
      FrameSizeTracksLastDelivery(s, init);
      assert Run(s, es) == Step(t.state, e);
    }
  }

  /** The overlay over the preview: drawn only while a result is on show,
      scaled from the current frame size, whichever delivery set it. */
  function CameraOverlay(s: CameraState, maxWidth: real, maxHeight: real): (o: Option<Outcome<seq<DrawnBox>>>)
    requires s.frameWidth > 0 && s.frameHeight > 0
    ensures o.None? <==> s.results.None?
    ensures o.Some? ==> o.value == Draw(s.results.value, s.frameWidth, s.frameHeight, maxWidth, maxHeight)
  {
    match s.results
    case None => None
    case Some(r) => Some(Draw(r, s.frameWidth, s.frameHeight, maxWidth, maxHeight))
  }

  /** A view whose frame size is positive keeps it positive as long as every
      delivery reports a positive input image size, so its overlay can
      always be scaled. */
  lemma {:induction false} FrameSizeStaysPositive(s: CameraState, es: seq<Event>)
    requires s.frameWidth > 0 && s.frameHeight > 0
    requires forall i :: 0 <= i < |es| && es[i].Delivered? ==>
      es[i].bundle.inputImageWidth > 0 && es[i].bundle.inputImageHeight > 0
    ensures Run(s, es).state.frameWidth > 0 && Run(s, es).state.frameHeight > 0
    decreases |es|
  {
    if |es| > 0 {
      var t := Step(s, es[0]).state;
      if Step(s, es[0]).Done? {
        FrameSizeStaysPositive(t, es[1..]);
      }
    }
  }

  /** A live view shows a delivered result; after disposal a later delivery
      moves the frame size but leaves the result and inference time alone. */
  lemma CameraScenario(first: ResultBundle, late: ResultBundle)
    requires |first.results| > 0
    ensures var o := Run(Init(0), [Bind, Delivered(first), Dispose, Delivered(late)]);
      && o.Done?
      && o.state.results == Some(first.results[0])
      && o.state.inferenceTime == first.inferenceTime
      && o.state.frameWidth == late.inputImageWidth
      && o.state.frameHeight == late.inputImageHeight
      && !o.state.active && o.state.bound == 0
  {
    var s0 := Init(0);
    var s1 := Step(s0, Bind).state;
    var s2 := Step(s1, Delivered(first)).state;
    var s3 := Step(s2, Dispose).state;
    var s4 := Step(s3, Delivered(late)).state;
    assert Run(s3, [Delivered(late)]) == Run(s4, []) == Done(s4);
    assert Run(s2, [Dispose, Delivered(late)]) == Run(s3, [Delivered(late)]);
    assert Run(s1, [Delivered(first), Dispose, Delivered(late)]) == Run(s2, [Dispose, Delivered(late)]);
    assert Run(s0, [Bind, Delivered(first), Dispose, Delivered(late)]) == Run(s1, [Delivered(first), Dispose, Delivered(late)]);
  }

  /** Disposal does not stop the provider listener: a bind that arrives
      after disposal opens a camera binding again, while the view stays
      disposed. */
  lemma BindAfterDisposeRebinds(s: CameraState)
    ensures var o := Run(s, [Dispose, Bind]);
      o.Done? && o.state.bound == 1 && !o.state.active
  {
    var t := Step(s, Dispose).state;
    assert Run(t, [Bind]) == Run(Step(t, Bind).state, []);
    assert Run(s, [Dispose, Bind]) == Run(t, [Bind]);
  }
}
