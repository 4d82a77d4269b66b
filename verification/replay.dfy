/**
 The video timeline replay. A video is first run through the detector as a
 batch, one result per 300 ms of media; the batch is then replayed by a
 timer that fires every 300 ms from the moment replay starts. Each tick
 turns the time elapsed since the start into an index into the batch and
 either shows that result or, once the index reaches the batch size, shuts
 the timer down for good. The clock is the timer's own, not the player's
 position, so pausing or seeking the video is not seen by the replay.

 Timer ticks are modelled as the sequence of their elapsed times in
 milliseconds; the timer thread and the wall clock are not modelled.
 */
module VideoReplay {
  import opened Detections

  /** The sampling interval of the batch and the period of the timer, in ms. */
  const VideoInterval: nat := 300

  /** The batch index for a tick: the number of whole intervals elapsed. */
  function ResultIndex(elapsed: nat): (i: nat)
    ensures i * VideoInterval <= elapsed < (i + 1) * VideoInterval
  {
    elapsed / VideoInterval
  }

  /** The replay timer: never scheduled (no batch), running over a batch,
      or shut down. */
  datatype Timer = Idle | Running(batch: ResultBundle) | ShutDown

  /** The video part of the media view: the timer, the result on show and
      the inference time shown beneath the media. */
  datatype VideoView = VideoView(timer: Timer, videoResults: Option<DetectionResult>, inferenceTime: int)

  /** The view after one tick and the batch index it showed, if any. */
  datatype TickResult = TickResult(view: VideoView, delivered: Option<nat>)

  /** The view once batch inference has finished: a null batch schedules no
      timer, any other batch (even an empty one) starts one. Starting touches
      neither the result on show nor the inference time: the view's state
      outlives a new pick, so an earlier video's last result stays on show
      until this batch's first tick replaces it. */
  function Start(batch: Option<ResultBundle>, previous: Option<DetectionResult>, inferenceTime: int): (v: VideoView)
    ensures v.videoResults == previous && v.inferenceTime == inferenceTime
    ensures batch.None? <==> v.timer.Idle?
    ensures batch.Some? ==> v.timer == Running(batch.value)
  {
    match batch
    case None => VideoView(Idle, previous, inferenceTime)
    case Some(b) => VideoView(Running(b), previous, inferenceTime)
  }

  /** One timer tick at `elapsed` ms after the start of the replay. */
  function OnTick(v: VideoView, elapsed: nat): (t: TickResult)
    ensures !v.timer.Running? ==> t == TickResult(v, None)
    ensures v.timer.Running? && ResultIndex(elapsed) >= |v.timer.batch.results| ==>
      t == TickResult(v.(timer := ShutDown), None)
    ensures v.timer.Running? && ResultIndex(elapsed) < |v.timer.batch.results| ==>
      && t.delivered == Some(ResultIndex(elapsed))
      && t.view.timer == v.timer
      && t.view.videoResults == Some(v.timer.batch.results[ResultIndex(elapsed)])
      && t.view.inferenceTime == v.timer.batch.inferenceTime
  {
    match v.timer
    case Running(b) =>
      var i := ResultIndex(elapsed);
      if i >= |b.results| then TickResult(v.(timer := ShutDown), None)
      else TickResult(v.(videoResults := Some(b.results[i]), inferenceTime := b.inferenceTime), Some(i))
    case _ => TickResult(v, None)
  }

  /** The view after a sequence of ticks and the indices shown, in order. */
  datatype ReplayResult = ReplayResult(view: VideoView, delivered: seq<nat>)

  function OptionToSeq(o: Option<nat>): (s: seq<nat>)
    ensures o.None? ==> s == []
    ensures o.Some? ==> s == [o.value]
  {
    match o
    case None => []
    case Some(x) => [x]
  }

  /** Replay over ticks at the given elapsed times. Every index shown lies
      within the batch; a timer that is not running shows nothing and
      changes nothing; a running timer either keeps its batch or ends shut
      down. */
  function Replay(v: VideoView, ticks: seq<nat>): (r: ReplayResult)
    ensures |r.delivered| <= |ticks|
    ensures !v.timer.Running? ==> r == ReplayResult(v, [])
    ensures v.timer.Running? ==>
      forall j :: 0 <= j < |r.delivered| ==> r.delivered[j] < |v.timer.batch.results|
    ensures r.view.timer == v.timer || r.view.timer.ShutDown?
    decreases |ticks|
  {
    if |ticks| == 0 then ReplayResult(v, [])
    else
      var t := OnTick(v, ticks[0]);
      var rest := Replay(t.view, ticks[1..]);
      ReplayResult(rest.view, OptionToSeq(t.delivered) + rest.delivered)
  }

  /** The reference replay: the batch index of every tick, up to (not
      including) the first tick whose index is out of the batch. It is the
      longest prefix of the ticks' indices that stays in range. */
  function ExpectedIndices(ticks: seq<nat>, size: nat): (s: seq<nat>)
    ensures |s| <= |ticks|
    ensures forall j :: 0 <= j < |s| ==> s[j] == ResultIndex(ticks[j]) && s[j] < size
    ensures |s| < |ticks| ==> ResultIndex(ticks[|s|]) >= size
  {
    if |ticks| == 0 || ResultIndex(ticks[0]) >= size then []
    else [ResultIndex(ticks[0])] + ExpectedIndices(ticks[1..], size)
  }

  /** The replay shows exactly the reference indices: every tick before the
      first out-of-range one shows its own index, and nothing after it. */
  lemma {:induction false} ReplayMatchesReference(v: VideoView, ticks: seq<nat>)
    requires v.timer.Running?
    ensures Replay(v, ticks).delivered == ExpectedIndices(ticks, |v.timer.batch.results|)
    decreases |ticks|
  {
    if |ticks| > 0 {
      var t := OnTick(v, ticks[0]);
      if ResultIndex(ticks[0]) < |v.timer.batch.results| {
        ReplayMatchesReference(t.view, ticks[1..]);
      }
    }
  }

  /** Once a tick's index reaches the batch size the timer is shut down
      for good: the replay ends shut down and shows nothing from that tick
      on. */
  lemma {:induction false} ReplayStopsForGood(v: VideoView, ticks: seq<nat>, k: nat)
    requires v.timer.Running?
    requires k < |ticks| && ResultIndex(ticks[k]) >= |v.timer.batch.results|
    ensures Replay(v, ticks).view.timer.ShutDown?
    ensures |Replay(v, ticks).delivered| <= k
    decreases |ticks|
  {
    var t := OnTick(v, ticks[0]);
    if k > 0 && t.view.timer.Running? {
      ReplayStopsForGood(t.view, ticks[1..], k - 1);
    }
  }

  /** The result on show after a replay is the batch entry of the last index
      shown, with the batch's inference time; if nothing was shown the view
      keeps its previous result and inference time. */
  lemma {:induction false} ReplayShowsLastDelivered(v: VideoView, ticks: seq<nat>)
    requires v.timer.Running?
    ensures var r := Replay(v, ticks);
      if r.delivered == [] then
        r.view.videoResults == v.videoResults && r.view.inferenceTime == v.inferenceTime
      else
        && r.view.videoResults == Some(v.timer.batch.results[r.delivered[|r.delivered| - 1]])
        && r.view.inferenceTime == v.timer.batch.inferenceTime
    decreases |ticks|
  {
    if |ticks| > 0 {
      var t := OnTick(v, ticks[0]);
      if t.view.timer.Running? {
        ReplayShowsLastDelivered(t.view, ticks[1..]);
      }
    }
  }

  predicate NonDecreasing(s: seq<nat>)
  {
    forall i, j :: 0 <= i < j < |s| ==> s[i] <= s[j]
  }

  /** Later ticks never map to earlier indices. */
  lemma ResultIndexMonotone(a: nat, b: nat)
    requires a <= b
    ensures ResultIndex(a) <= ResultIndex(b)
  {
  }

  /** For ticks at non-decreasing times the indices shown are
      non-decreasing and all lie within the batch. */
  lemma {:induction false} ReplayIndicesOrdered(v: VideoView, ticks: seq<nat>)
    requires v.timer.Running?
    requires NonDecreasing(ticks)
    ensures NonDecreasing(Replay(v, ticks).delivered)
    ensures forall j :: 0 <= j < |Replay(v, ticks).delivered| ==>
      Replay(v, ticks).delivered[j] < |v.timer.batch.results|
  {
    ReplayMatchesReference(v, ticks);
    var s := ExpectedIndices(ticks, |v.timer.batch.results|);
    forall i, j | 0 <= i < j < |s|
      ensures s[i] <= s[j]
    {
      ResultIndexMonotone(ticks[i], ticks[j]);
    }
  }

  /** The ideal schedule of a fixed-rate timer started with no delay:
      ticks at 0, 300, 600, ... ms. */
  function FixedRateTicks(count: nat): (t: seq<nat>)
    ensures |t| == count
    ensures NonDecreasing(t)
    ensures forall j :: 0 <= j < count ==> ResultIndex(t[j]) == j
  {
    seq(count, j requires 0 <= j => j * VideoInterval)
  }

  /** On the ideal schedule every batch entry is shown exactly once, in
      capture order, until the ticks or the batch run out. */
  lemma {:induction false} FixedRateShowsEachResultOnce(v: VideoView, count: nat)
    requires v.timer.Running?
    ensures var n := |v.timer.batch.results|;
      Replay(v, FixedRateTicks(count)).delivered == seq(if count < n then count else n, j requires 0 <= j => j)
  {
    var n := |v.timer.batch.results|;
    ReplayMatchesReference(v, FixedRateTicks(count));
    var s := ExpectedIndices(FixedRateTicks(count), n);
    var m := if count < n then count else n;
    assert |s| < count ==> ResultIndex(FixedRateTicks(count)[|s|]) == |s| >= n;
    assert |s| > 0 ==> |s| - 1 == s[|s| - 1] < n;
    assert |s| == m;
  }

  /** A ten-entry batch: the tick at 950 ms shows entry 3; the tick at
      3100 ms has index 10, which stops the replay without showing anything. */
  lemma ReplayScenario(b: ResultBundle, previous: Option<DetectionResult>, inferenceTime: int)
    requires |b.results| == 10
    ensures OnTick(VideoView(Running(b), previous, inferenceTime), 950).delivered == Some(3)
    ensures OnTick(VideoView(Running(b), previous, inferenceTime), 950).view.videoResults == Some(b.results[3])
    ensures OnTick(VideoView(Running(b), previous, inferenceTime), 3100)
         == TickResult(VideoView(ShutDown, previous, inferenceTime), None)
  {
  }

  /** A null batch starts no replay: no tick shows anything, and whatever was
      on show before (an earlier pick's last result) stays. An empty batch is
      shut down by the first tick, at 0 ms, without showing anything, again
      leaving the earlier result on show. */
  lemma NullAndEmptyBatches(previous: Option<DetectionResult>, inferenceTime: int, ticks: seq<nat>, empty: ResultBundle)
    requires |empty.results| == 0
    ensures Replay(Start(None, previous, inferenceTime), ticks)
         == ReplayResult(VideoView(Idle, previous, inferenceTime), [])
    ensures OnTick(Start(Some(empty), previous, inferenceTime), 0)
         == TickResult(VideoView(ShutDown, previous, inferenceTime), None)
  {
  }
}
