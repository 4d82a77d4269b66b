# Fruit and vegetable detector: detection core in Dafny

The app runs an object detector on three kinds of input: the live camera,
a picked still image and a picked video. It draws the detections over the
media. Most of the app is Jetpack Compose UI. This project models the
three pieces of logic inside that UI, as pure functions and small state
machines over abstract detection results:

- **Overlay coordinate mapper** (`Overlay`, from `ResultsOverlay`). A
  bounding box in the frame's pixel space is mapped to viewport units
  proportionally per axis. Each detection is captioned with its best
  category's name and the first four characters of its score. Geometry is
  over `real`, an idealisation of Kotlin `Float`.
- **Video timeline replayer** (`VideoReplay`, from the video branch of
  `MediaDetectionView`). A batch of results, one per 300 ms of video, is
  replayed by a fixed-rate timer. Each tick computes `elapsed div 300`. It
  shows that entry, or shuts the timer down for good once the index
  reaches the batch size.
- **Media view** (`MediaView`, the rest of `MediaDetectionView` and
  `CameraContent`). This covers:
  - choosing the source from the media type;
  - taking over a still image's result;
  - the video-size fallback, which never goes below 1;
  - the aspect-preserving display height;
  - the image and video overlays.
- **Camera liveness guard** (`Camera`, from `CameraView`). A state machine
  over the liveness flag, the result on show, the frame size, the inference
  time and the number of open camera bindings. Its events are bind,
  dispose and result delivery. The guard is asymmetric: after disposal a
  delivery still overwrites the frame size, but never the result or the
  inference time.

The detector helper is opaque and is modelled only by the `ResultBundle`
values it returns. Kotlin's `first()` on an empty list throws, and this is
modelled as `Outcome.Threw`. `Threw` carries the state as it stands when the
exception escapes. Assignments made before the call have already
happened. In the camera callback that is the frame size. In the image
handler it is the inference time.

Two details of the code are kept as written:
- The replay stops as soon as the index reaches the batch size
  (MainActivity.kt:250): an index equal to the size already shuts the
  timer down.
- The mapper has no guard against non-positive frame dimensions, so
  positive dimensions are a precondition of the mapping. Every caller
  meets it: the camera's initial 3x4 frame, positive decoded bitmap sizes,
  and the video-size fallback, which is at least 1.

## Model

| member | source | states |
|---|---|---|
| Overlay.MapBox | app/src/main/java/com/fruitandveggie/composables/ResultsOverlay.kt:55-59 | Each mapped coordinate times the frame extent of its axis equals the box coordinate times the viewport extent, so the mapped box is proportional per axis and uniquely determined |
| Overlay.MapBoxInViewport | app/src/main/java/com/fruitandveggie/composables/ResultsOverlay.kt:56-59 | With a positive frame and a non-negative viewport, a box inside [0, fw] x [0, fh] is drawn inside [0, maxW] x [0, maxH] |
| Overlay.FullFrameFillsViewport | app/src/main/java/com/fruitandveggie/composables/ResultsOverlay.kt:56-59 | The full-frame box maps to the whole viewport |
| Overlay.MapBoxScenario | app/src/main/java/com/fruitandveggie/composables/ResultsOverlay.kt:56-59 | Frame 1000x1000, box at (100, 200) of size 50x50, viewport 200x200 gives offset (20, 40) and size 10x10 |
| Overlay.MapBoxScaleInvariant | app/src/main/java/com/fruitandveggie/composables/ResultsOverlay.kt:56-59 | Scaling the frame and the box by the same positive real factor (enlarging or shrinking, onto another whole-pixel frame) leaves the drawn box unchanged |
| Overlay.MapBoxHalvedScenario | app/src/main/java/com/fruitandveggie/composables/ResultsOverlay.kt:56-59 | Halving the 1000x1000 frame and its box draws the same box |
| Detections.First | app/src/main/java/com/fruitandveggie/composables/ResultsOverlay.kt:78 | Kotlin's `first()` (also at CameraView.kt:199 and MainActivity.kt:211): defined exactly when the list is non-empty, and then its head; the empty case is where the call throws |
| Overlay.Take | app/src/main/java/com/fruitandveggie/composables/ResultsOverlay.kt:79 | `take(4)` gives the prefix of the score text of length min(4, its length) |
| Overlay.Label | app/src/main/java/com/fruitandveggie/composables/ResultsOverlay.kt:77-79 | The caption is the category name, a space, then the prefix of the score text of length min(4, its length): a shorter score text is shown whole |
| Overlay.LabelInjective | app/src/main/java/com/fruitandveggie/composables/ResultsOverlay.kt:77-79 | For names of equal length, two captions are equal iff the names and the shown score prefixes are equal |
| Overlay.DrawDetection | app/src/main/java/com/fruitandveggie/composables/ResultsOverlay.kt:55-85 | A detection is drawn iff it has a category; it is drawn with its mapped box and the caption of its first category |
| Overlay.DrawAll | app/src/main/java/com/fruitandveggie/composables/ResultsOverlay.kt:49-88 | One drawn box per detection, in list order; the whole list is drawn iff every detection has a category, otherwise drawing stops at the first detection without one |
| Overlay.Draw | app/src/main/java/com/fruitandveggie/composables/ResultsOverlay.kt:47-49 | A null detection list draws nothing; otherwise every detection is drawn |
| Overlay.DrawAllInViewport | app/src/main/java/com/fruitandveggie/composables/ResultsOverlay.kt:47-59 | Every box drawn for detections inside the frame lies inside the viewport |
| VideoReplay.ResultIndex | app/src/main/java/com/fruitandveggie/MainActivity.kt:240-248 | The tick's index i satisfies 300 i <= elapsed < 300 (i + 1), i.e. whole 300 ms intervals elapsed |
| VideoReplay.Start | app/src/main/java/com/fruitandveggie/MainActivity.kt:243-245 | A null batch schedules no timer; any other batch, even an empty one, starts one; the result and inference time already on show (an earlier pick's) are kept |
| VideoReplay.OnTick | app/src/main/java/com/fruitandveggie/MainActivity.kt:246-256 | A tick with index below the batch size shows that entry and the batch's inference time; a tick with index at least the size shuts the timer down and shows nothing new; a timer that is not running does nothing |
| VideoReplay.Replay | app/src/main/java/com/fruitandveggie/MainActivity.kt:244-260 | Over any ticks, every index shown lies within the batch, at most one per tick; a stopped or never-started timer shows nothing and changes nothing |
| VideoReplay.ExpectedIndices | app/src/main/java/com/fruitandveggie/MainActivity.kt:247-253 | Reference replay: the longest prefix of the ticks' indices that stays below the batch size |
| VideoReplay.ReplayMatchesReference | app/src/main/java/com/fruitandveggie/MainActivity.kt:244-260 | The replay shows exactly the reference indices |
| VideoReplay.ReplayStopsForGood | app/src/main/java/com/fruitandveggie/MainActivity.kt:250-251 | Once a tick's index reaches the batch size, the timer ends shut down and nothing from that tick on is shown |
| VideoReplay.ReplayShowsLastDelivered | app/src/main/java/com/fruitandveggie/MainActivity.kt:250-255 | After a replay the result on show is the batch entry of the last index shown, with the batch's inference time; if none was shown the previous result and time remain |
| VideoReplay.ResultIndexMonotone | app/src/main/java/com/fruitandveggie/MainActivity.kt:247-248 | Later ticks never map to smaller indices |
| VideoReplay.ReplayIndicesOrdered | app/src/main/java/com/fruitandveggie/MainActivity.kt:244-255 | For non-decreasing tick times, the indices shown are non-decreasing and below the batch size |
| VideoReplay.FixedRateTicks | app/src/main/java/com/fruitandveggie/MainActivity.kt:257-259 | The nominal fixed-rate schedule with no initial delay: the k-th tick falls in interval k |
| VideoReplay.FixedRateShowsEachResultOnce | app/src/main/java/com/fruitandveggie/MainActivity.kt:240-260 | On the nominal fixed-rate schedule the entries 0, 1, 2, ... are each shown once, in capture order, until ticks or batch run out (a tick that runs late can skip an entry, and catch-up can show one twice) |
| VideoReplay.ReplayScenario | app/src/main/java/com/fruitandveggie/MainActivity.kt:240-254 | Batch of 10: elapsed 950 shows entry 3; elapsed 3100 gives index 10, which stops without showing anything |
| VideoReplay.NullAndEmptyBatches | app/src/main/java/com/fruitandveggie/MainActivity.kt:243-260 | A null batch shows nothing on any ticks; an empty batch stops at the first tick (elapsed 0) without showing anything |
| MediaView.SourceFor | app/src/main/java/com/fruitandveggie/MainActivity.kt:372-405 | A media type starting with "image" selects the still image, one starting with "video" the video, anything else (or none) the live camera |
| MediaView.OnImageDetected | app/src/main/java/com/fruitandveggie/MainActivity.kt:208-212 | A null bundle changes nothing; otherwise the inference time is set and the first result is shown; an empty result list throws after the inference time is set, leaving the result unchanged |
| MediaView.ImageOverlay | app/src/main/java/com/fruitandveggie/MainActivity.kt:293-299 | The image overlay is drawn iff a result is on show, scaled from the bitmap's size |
| MediaView.ChooseDimension | app/src/main/java/com/fruitandveggie/MainActivity.kt:306-307 | The dimension used is the stored one if above 1, else the player's if positive, else 1; it is always at least 1 |
| MediaView.ChooseSize | app/src/main/java/com/fruitandveggie/MainActivity.kt:306-307 | Both chosen dimensions are at least 1 and chosen independently |
| MediaView.UpdateStoredSize | app/src/main/java/com/fruitandveggie/MainActivity.kt:327-331 | The stored size changes only to a reported size with both dimensions positive, both dimensions together, and always does when such a size is reported |
| MediaView.StoredSizeWins | app/src/main/java/com/fruitandveggie/MainActivity.kt:306-331 | Once a size above 1 in both dimensions is stored, it is the size used whatever the player reports next |
| MediaView.InitialSizeDefersToPlayer | app/src/main/java/com/fruitandveggie/MainActivity.kt:176-177 | With the initial 1x1 stored size, each dimension used is the player's where positive, else 1 |
| MediaView.DisplayHeight | app/src/main/java/com/fruitandveggie/MainActivity.kt:310-311 | displayHeight x w = displayWidth x h: the video's aspect ratio is preserved, and the height is non-negative |
| MediaView.VideoBoxHeight | app/src/main/java/com/fruitandveggie/MainActivity.kt:313-316 | The video box is as tall as the aspect-preserving height allows but never taller than the space the enclosing box offers: the smaller of the two |
| MediaView.VideoBoxCappedScenario | app/src/main/java/com/fruitandveggie/MainActivity.kt:306-316 | A 1080x1920 portrait video on a 328-wide layout wants a height of about 583 but gets a box of the 560 available |
| MediaView.VideoOverlay | app/src/main/java/com/fruitandveggie/MainActivity.kt:306-341 | The video overlay is drawn iff a result is on show, from the chosen size onto the laid-out video box (full width, height capped by the space available); it needs no guard |
| MediaView.VideoOverlayInViewport | app/src/main/java/com/fruitandveggie/MainActivity.kt:306-341 | Detections inside the chosen video frame are drawn inside the laid-out video box, capped height included |
| Camera.Init | app/src/main/java/com/fruitandveggie/home/camera/CameraView.kt:88-106 | Initially the view is active, shows no result, and assumes a 3x4 frame |
| Camera.UnbindAll | app/src/main/java/com/fruitandveggie/home/camera/CameraView.kt:217 | Clears every binding and changes nothing else |
| Camera.Step | app/src/main/java/com/fruitandveggie/home/camera/CameraView.kt:189-201 | A delivery always stores the input image's frame size; only while active does it show the first result and its inference time (throwing on an empty list); bind leaves exactly one binding; dispose clears the flag and the bindings |
| Camera.Run | app/src/main/java/com/fruitandveggie/home/camera/CameraView.kt:215-223 | Over any events, at most one camera binding is open (each bind unbinds everything first), and the liveness flag, once cleared, stays cleared |
| Camera.DisposeIdempotent | app/src/main/java/com/fruitandveggie/home/camera/CameraView.kt:116-120 | Disposing twice gives the same state as disposing once |
| Camera.DisposedIsFrozen | app/src/main/java/com/fruitandveggie/home/camera/CameraView.kt:198-201 | After disposal no event sequence throws or changes the result or inference time |
| Camera.NothingShownAfterDispose | app/src/main/java/com/fruitandveggie/home/camera/CameraView.kt:116-201 | With events handled atomically, the result and inference time on show at disposal are the ones left after any later events |
| Camera.LastFrameSize | app/src/main/java/com/fruitandveggie/home/camera/CameraView.kt:190-193 | Reference: the frame size of the delivery with no delivery after it, or the given size if there is no delivery |
| Camera.FrameSizeTracksLastDelivery | app/src/main/java/com/fruitandveggie/home/camera/CameraView.kt:190-193 | The frame size after a run is that of the last delivery, whether it arrived before or after disposal |
| Camera.FrameSizeStaysPositive | app/src/main/java/com/fruitandveggie/home/camera/CameraView.kt:94-100 | Starting from a positive frame, the frame stays positive while every delivery reports a positive image size |
| Camera.CameraOverlay | app/src/main/java/com/fruitandveggie/home/camera/CameraView.kt:233-239 | The camera overlay is drawn iff a result is on show, scaled from the current frame size |
| Camera.CameraScenario | app/src/main/java/com/fruitandveggie/home/camera/CameraView.kt:88-201 | Bind, deliver, dispose, deliver again: the first delivery's result and inference time stay on show, the frame size is the late delivery's, and no binding is open |
| Camera.BindAfterDisposeRebinds | app/src/main/java/com/fruitandveggie/home/camera/CameraView.kt:146-224 | The provider listener never checks the liveness flag: a bind after dispose opens one binding again while the view stays disposed |

## Left out

- Compose layout, theming, navigation, home and profile screens, and the gallery launcher: UI plumbing with no logic to state.
- Camera permission prompt: platform I/O.
- CameraX, ExoPlayer, ImageDecoder, MediaPipe and the detector helper: foreign libraries. Detection results enter as `ResultBundle` values, player and bitmap sizes as parameters. Releasing the detector (`clearObjectDetector`) and the player is not modelled.
- Executors, `scheduleAtFixedRate`, `SystemClock` and the camera analyser's keep-only-latest backpressure: threads and clocks. Timer ticks are a sequence of elapsed times, and callbacks are events in the order they are handled. Nothing stops the video replay when the view is disposed; no event for that exists in the model.
- Overlapping replays: picking a second video starts a new timer while nothing shuts down the earlier pick's timer, so both keep writing the same result on show until each runs out. The model replays one batch at a time; `VideoReplay.Start` only keeps the earlier result on show.
- Camera.NothingShownAfterDispose: every event is handled atomically. In the app, the liveness test and the assignments of a delivery run on the detector's thread while disposal runs on the main thread, so a delivery that has passed its liveness test when disposal happens still sets the result and inference time afterwards. That race is not modelled.
- The swallowed exceptions of image decoding and the ignored detector error callback: there is no state change to model.
- Float rounding and `Float.toString`: geometry is over `real`, and the score text is an abstract string.
- VideoReplay.ResultIndex: the `Long` to `Int` conversion of the index is not modelled (elapsed time is unbounded `nat`), because it only matters after about 20 years of playback.
- Camera.Step: the `Long` to `Int` conversion of the inference time is not modelled; inference times are unbounded integers.
- MediaView.OnImageDetected: the same `Long` to `Int` conversion of the inference time is not modelled.
- Overlay.MapBox: no failure for frame dimensions at or below zero. The code has no such guard, so positive dimensions are a precondition.
