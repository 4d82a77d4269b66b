/**
 The media detection view of the camera screen: which detection source a
 picked media type selects, how the result of a still image is taken over,
 and how a playing video is sized and overlaid. Decoding, the player and the
 detector are outside the model; what they report enters as parameters.
 */
module MediaView {
  import opened Detections
  import opened Overlay
  import opened VideoReplay

  /** The three detection sources of the screen. */
  datatype Source = LiveCamera | StillImage | DecodedVideo

  /** The source for the picked media type (null when nothing is picked):
      a type starting with "image" is a still image, one starting with
      "video" a decoded video, anything else leaves the live camera on. */
  function SourceFor(mediaType: Option<string>): (s: Source)
    ensures s == StillImage <==> mediaType.Some? && "image" <= mediaType.value
    ensures s == DecodedVideo <==> mediaType.Some? && "video" <= mediaType.value
    ensures s == LiveCamera <==> mediaType.None? || !("image" <= mediaType.value || "video" <= mediaType.value)
  {
    match mediaType
    case None => LiveCamera
    case Some(t) =>
      if "image" <= t then
        assert t[0] == 'i';
        StillImage
      else if "video" <= t then DecodedVideo
      else LiveCamera
  }

  /** The image part of the media view: the result on show and the
      inference time shown beneath the media. */
  datatype ImageView = ImageView(imageResults: Option<DetectionResult>, inferenceTime: int)

  /** Takes over the detector's answer for a still image. A null bundle
      changes nothing. Otherwise the inference time is set first and the
      first result is then shown; an empty result list makes `first()`
      throw after the inference time has already been set. */
  function OnImageDetected(v: ImageView, bundle: Option<ResultBundle>): (o: Outcome<ImageView>)
    ensures bundle.None? ==> o == Done(v)
    ensures bundle.Some? ==> o.state.inferenceTime == bundle.value.inferenceTime
    ensures bundle.Some? && |bundle.value.results| > 0 ==>
      o == Done(ImageView(Some(bundle.value.results[0]), bundle.value.inferenceTime))
    ensures bundle.Some? && |bundle.value.results| == 0 ==>
      o.Threw? && o.state.imageResults == v.imageResults
  {
    match bundle
    case None => Done(v)
    case Some(b) =>
      var timed := v.(inferenceTime := b.inferenceTime);
      match First(b.results)
      case None => Threw(NoSuchElement, timed)
      case Some(r) => Done(timed.(imageResults := Some(r)))
  }

  /** The overlay over a still image, scaled from the bitmap's pixel size
      to the target box: nothing until a result is on show. */
  function ImageOverlay(v: ImageView, imageWidth: int, imageHeight: int, targetWidth: real, targetHeight: real): (o: Option<Outcome<seq<DrawnBox>>>)
    requires imageWidth > 0 && imageHeight > 0
    ensures o.None? <==> v.imageResults.None?
    ensures o.Some? ==> o.value == Draw(v.imageResults.value, imageWidth, imageHeight, targetWidth, targetHeight)
  {
    match v.imageResults
    case None => None
    case Some(r) => Some(Draw(r, imageWidth, imageHeight, targetWidth, targetHeight))
  }

  /** A video's pixel size, as stored by the view or reported by the player. */
  datatype VideoSize = VideoSize(width: int, height: int)

  /** The size the view stores before the player has reported one. */
  const InitialVideoSize := VideoSize(1, 1)

  /** One dimension of the video as used for layout and overlay: the stored
      value if it is above 1, else the player's value if positive, else 1.
      It is never below 1, so it can always divide. */
  function ChooseDimension(stored: int, reported: int): (d: int)
    ensures d >= 1
    ensures stored > 1 ==> d == stored
    ensures stored <= 1 && reported > 0 ==> d == reported
    ensures stored <= 1 && reported <= 0 ==> d == 1
  {
    if stored > 1 then stored
    else if reported > 0 then reported
    else 1
  }

  /** The size the view works with, dimension by dimension. */
  function ChooseSize(stored: VideoSize, reported: VideoSize): (s: VideoSize)
    ensures s.width >= 1 && s.height >= 1
    ensures s.width == ChooseDimension(stored.width, reported.width)
    ensures s.height == ChooseDimension(stored.height, reported.height)
  {
    VideoSize(ChooseDimension(stored.width, reported.width), ChooseDimension(stored.height, reported.height))
  }

  /** The player view's update: the stored size is replaced only when the
      player (if any) reports a size with both dimensions positive, and then
      both dimensions are replaced together. */
  function UpdateStoredSize(stored: VideoSize, reported: Option<VideoSize>): (s: VideoSize)
    ensures s == stored || (reported.Some? && s == reported.value)
    ensures s != stored ==> s.width > 0 && s.height > 0
    ensures reported.Some? && reported.value.width > 0 && reported.value.height > 0 ==> s == reported.value
  {
    match reported
    case Some(r) => if r.width > 0 && r.height > 0 then r else stored
    case None => stored
  }

  /** Before the player view has stored anything, the size used is the
      player's size where it is positive and 1 where it is not. */
  lemma InitialSizeDefersToPlayer(reported: VideoSize)
    ensures ChooseSize(InitialVideoSize, reported).width == (if reported.width > 0 then reported.width else 1)
    ensures ChooseSize(InitialVideoSize, reported).height == (if reported.height > 0 then reported.height else 1)
  {
  }

  /** Once a size above 1 in both dimensions has been stored, layout and
      overlay use exactly that size, whatever the player reports next. A
      stored 1 counts as unknown and defers to the player. */
  lemma StoredSizeWins(stored: VideoSize, reported: VideoSize, later: VideoSize)
    requires reported.width > 1 && reported.height > 1
    ensures ChooseSize(UpdateStoredSize(stored, Some(reported)), later) == reported
  {
  }

  /** The height of the video box for the available width: the video's
      aspect ratio is preserved. */
  function DisplayHeight(displayWidth: real, size: VideoSize): (h: real)
    requires size.width >= 1
    ensures h * (size.width as real) == displayWidth * (size.height as real)
    ensures displayWidth >= 0.0 && size.height >= 0 ==> h >= 0.0
  {
    displayWidth * ((size.height as real) / (size.width as real))
  }

  /** The height of the video box as laid out: the aspect-preserving height,
      cut to the height the enclosing box offers, since a fixed height
      cannot exceed the incoming constraint. */
  function VideoBoxHeight(displayWidth: real, size: VideoSize, availableHeight: real): (h: real)
    requires size.width >= 1
    ensures h <= DisplayHeight(displayWidth, size) && h <= availableHeight
    ensures h == DisplayHeight(displayWidth, size) || h == availableHeight
  {
    var wanted := DisplayHeight(displayWidth, size);
    if wanted <= availableHeight then wanted else availableHeight
  }

  /** A 1080x1920 portrait video on a 328-wide layout wants a box about 583
      tall; with 560 available the box, and so the overlay, is 560 tall. */
  lemma VideoBoxCappedScenario()
    ensures DisplayHeight(328.0, VideoSize(1080, 1920)) > 583.0
    ensures VideoBoxHeight(328.0, VideoSize(1080, 1920), 560.0) == 560.0
  {
  }

  /** The overlay over a playing video: nothing until a result is on show,
      then the result drawn from the chosen video size onto the video box,
      `displayWidth` wide and as tall as `VideoBoxHeight` allows within
      `availableHeight`. No guard is needed: the chosen size is never
      below 1. */
  function VideoOverlay(v: VideoView, stored: VideoSize, reported: VideoSize, displayWidth: real, availableHeight: real): (o: Option<Outcome<seq<DrawnBox>>>)
    ensures o.None? <==> v.videoResults.None?
    ensures o.Some? ==>
      var size := ChooseSize(stored, reported);
      o.value == Draw(v.videoResults.value, size.width, size.height, displayWidth, VideoBoxHeight(displayWidth, size, availableHeight))
  {
    var size := ChooseSize(stored, reported);
    match v.videoResults
    case None => None
    case Some(r) => Some(Draw(r, size.width, size.height, displayWidth, VideoBoxHeight(displayWidth, size, availableHeight)))
  }

  /** Detections inside the chosen video frame are drawn inside the video
      box on screen, whether or not its height was capped. */
  lemma {:induction false} VideoOverlayInViewport(v: VideoView, stored: VideoSize, reported: VideoSize, displayWidth: real, availableHeight: real)
    requires displayWidth >= 0.0 && availableHeight >= 0.0
    requires v.videoResults.Some? && v.videoResults.value.detections.Some?
    requires var ds := v.videoResults.value.detections.value; var size := ChooseSize(stored, reported);
      forall i :: 0 <= i < |ds| ==> InFrame(ds[i].boundingBox, size.width as real, size.height as real)
    ensures var o := VideoOverlay(v, stored, reported, displayWidth, availableHeight).value;
      var size := ChooseSize(stored, reported);
      forall i :: 0 <= i < |o.state| ==> InViewport(o.state[i].box, displayWidth, VideoBoxHeight(displayWidth, size, availableHeight))
  {
    var size := ChooseSize(stored, reported);
    var height := VideoBoxHeight(displayWidth, size, availableHeight);
    assert VideoOverlay(v, stored, reported, displayWidth, availableHeight).value
        == DrawAll(v.videoResults.value.detections.value, size.width, size.height, displayWidth, height);
    DrawAllInViewport(v.videoResults.value.detections.value, size.width, size.height, displayWidth, height);
  }
}
