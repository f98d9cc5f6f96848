/** Frame admission and latency telemetry of the Android `VisionProcessorBase`.

    Two entry paths feed the detector. The byte-buffer path keeps a "latest"
    slot, overwritten by every offered frame, and a "processing" slot; a new
    frame starts a detection only while the processing slot is empty, and the
    next buffered frame is pulled only after a successful detection. The
    image-proxy path (used by the CameraX analyzers) starts a detection for
    every frame until the processor is shut down.

    The state machine is given first as pure functions over `Processor`
    values, with the properties proved about them; the class
    `VisionProcessorBase` then holds the same state in fields and each of its
    methods is proved to move its state exactly as the matching function does.

    Events are sequential: the detector task's completion (success with two
    latencies, or failure), the one-second frame-rate timer tick and `stop`
    are calls in some order. */
module VisionProcessor {
  import opened Wrappers

  /** Kotlin's `Long.MAX_VALUE`, the identity of the running minima. */
  const LONG_MAX_VALUE: int := 0x7FFF_FFFF_FFFF_FFFF

  /** The number of runs after which the latency statistics restart. */
  const STATS_WINDOW: nat := 500

  /** A camera frame's pixel data. */
  datatype ByteBuffer = ByteBuffer(bytes: seq<bv8>)

  /** Width, height and rotation of a camera frame. */
  datatype FrameMetadata = FrameMetadata(width: int, height: int, rotation: int)

  /** A CameraX image handed to `processImageProxy`. */
  datatype ImageProxy = ImageProxy(id: nat, rotationDegrees: int)

  /** A detection request handed to the detector. */
  datatype Detection =
    | SlotDetection(image: ByteBuffer, metadata: FrameMetadata)
    | ProxyDetection(proxy: ImageProxy)

  // ------------------------------------------------------------------
  // Latency statistics
  // ------------------------------------------------------------------

  /** The rolling latency counters, in milliseconds. */
  datatype LatencyStats = LatencyStats(
    numRuns: nat,
    totalFrameMs: int, maxFrameMs: int, minFrameMs: int,
    totalDetectorMs: int, maxDetectorMs: int, minDetectorMs: int)

  /** The counters right after `resetLatencyStats`. */
  const ResetStats: LatencyStats :=
    LatencyStats(0, 0, 0, LONG_MAX_VALUE, 0, 0, LONG_MAX_VALUE)

  function Max(a: int, b: int): int { if a >= b then a else b }
  function Min(a: int, b: int): int { if a <= b then a else b }

  /** What the counters always satisfy: at most a window of runs; no run means
      the reset values; otherwise each minimum is at most its maximum, which is
      at most its total. */
  predicate StatsValid(s: LatencyStats) {
    && s.numRuns <= STATS_WINDOW
    && (s.numRuns == 0 ==> s == ResetStats)
    && (s.numRuns > 0 ==>
          && 0 <= s.minFrameMs <= s.maxFrameMs <= s.totalFrameMs
          && 0 <= s.minDetectorMs <= s.maxDetectorMs <= s.totalDetectorMs)
  }

  /** The success listener's update: restart the window when it is full, then
      count the run and fold both latencies into totals, maxima and minima. */
  function Record(s: LatencyStats, frameMs: nat, detectorMs: nat): LatencyStats {
    var base := if s.numRuns >= STATS_WINDOW then ResetStats else s;
    LatencyStats(
      base.numRuns + 1,
      base.totalFrameMs + frameMs,
      Max(frameMs, base.maxFrameMs),
      Min(frameMs, base.minFrameMs),
      base.totalDetectorMs + detectorMs,
      Max(detectorMs, base.maxDetectorMs),
      Min(detectorMs, base.minDetectorMs))
  }

  /** Recording a run keeps the counters valid and leaves between 1 and 500 runs. */
  lemma RecordKeepsStatsValid(s: LatencyStats, frameMs: nat, detectorMs: nat)
    requires StatsValid(s)
    ensures StatsValid(Record(s, frameMs, detectorMs))
    ensures 1 <= Record(s, frameMs, detectorMs).numRuns <= STATS_WINDOW
    ensures Record(s, frameMs, detectorMs).minFrameMs <= frameMs <= Record(s, frameMs, detectorMs).maxFrameMs
    ensures Record(s, frameMs, detectorMs).minDetectorMs <= detectorMs <= Record(s, frameMs, detectorMs).maxDetectorMs
  {
  }

  /** After a full window the next run starts afresh: its latencies are the
      new totals, maxima and minima. */
  lemma RecordAfterFullWindow(s: LatencyStats, frameMs: nat, detectorMs: nat)
    requires s.numRuns >= STATS_WINDOW
    requires frameMs <= LONG_MAX_VALUE && detectorMs <= LONG_MAX_VALUE
    ensures Record(s, frameMs, detectorMs)
         == LatencyStats(1, frameMs, frameMs, frameMs, detectorMs, detectorMs, detectorMs)
  {
  }

  /** The counters after recording a series of runs, one pair of latencies each. */
  function RecordAll(s: LatencyStats, runs: seq<(nat, nat)>): LatencyStats
    decreases |runs|
  {
    if runs == [] then s
    else RecordAll(Record(s, runs[0].0, runs[0].1), runs[1..])
  }

  /** One latency of a run: the frame latency when `frame`, else the detector one. */
  function Pick(run: (nat, nat), frame: bool): nat {
    if frame then run.0 else run.1
  }

  /** The sum of one latency over a series of runs. */
  function SumOf(runs: seq<(nat, nat)>, frame: bool): nat {
    if runs == [] then 0 else Pick(runs[0], frame) + SumOf(runs[1..], frame)
  }

  /** The largest of one latency over a series of runs; 0 for none. */
  function MaxOf(runs: seq<(nat, nat)>, frame: bool): nat {
    if runs == [] then 0 else Max(Pick(runs[0], frame), MaxOf(runs[1..], frame))
  }

  /** The smallest of one latency over a series of runs; `Long.MAX_VALUE` for none. */
  function MinOf(runs: seq<(nat, nat)>, frame: bool): (m: int)
    ensures m <= LONG_MAX_VALUE
  {
    if runs == [] then LONG_MAX_VALUE else Min(Pick(runs[0], frame), MinOf(runs[1..], frame))
  }

  /** Within one window, recording runs adds their count to `numRuns`, their
      latencies to the totals, and folds them into the maxima and minima. */
  lemma {:induction false} RecordAllWithinWindow(s: LatencyStats, runs: seq<(nat, nat)>)
    requires s.numRuns + |runs| <= STATS_WINDOW
    requires s.maxFrameMs >= 0 && s.maxDetectorMs >= 0
    requires s.minFrameMs <= LONG_MAX_VALUE && s.minDetectorMs <= LONG_MAX_VALUE
    ensures RecordAll(s, runs) == LatencyStats(
              s.numRuns + |runs|,
              s.totalFrameMs + SumOf(runs, true), Max(s.maxFrameMs, MaxOf(runs, true)), Min(s.minFrameMs, MinOf(runs, true)),
              s.totalDetectorMs + SumOf(runs, false), Max(s.maxDetectorMs, MaxOf(runs, false)), Min(s.minDetectorMs, MinOf(runs, false)))
    decreases |runs|
  {
    if runs != [] {
      RecordAllWithinWindow(Record(s, runs[0].0, runs[0].1), runs[1..]);
    }
  }

  /** From the reset counters and within one window of 500 runs, the counters
      hold the number of runs and, per latency kind, the sum, the maximum and
      the minimum of the recorded latencies. */
  lemma WindowAggregates(runs: seq<(nat, nat)>)
    requires |runs| <= STATS_WINDOW
    ensures RecordAll(ResetStats, runs) == LatencyStats(
              |runs|,
              SumOf(runs, true), MaxOf(runs, true), MinOf(runs, true),
              SumOf(runs, false), MaxOf(runs, false), MinOf(runs, false))
  {
    RecordAllWithinWindow(ResetStats, runs);
  }

  /** Starting from the reset counters, `numRuns` cycles through 1..500:
      after n > 0 runs it is ((n - 1) mod 500) + 1. */
  lemma {:induction false} RunsCycleThroughWindow(s: LatencyStats, runs: seq<(nat, nat)>, done: nat)
    requires s.numRuns == (if done == 0 then 0 else (done - 1) % STATS_WINDOW + 1)
    ensures RecordAll(s, runs).numRuns
         == (if done + |runs| == 0 then 0 else (done + |runs| - 1) % STATS_WINDOW + 1)
    decreases |runs|
  {
    if runs != [] {
      var next := Record(s, runs[0].0, runs[0].1);
      assert next.numRuns == done % STATS_WINDOW + 1;
      RunsCycleThroughWindow(next, runs[1..], done + 1);
    }
  }

  // ------------------------------------------------------------------
  // The processor state machine
  // ------------------------------------------------------------------

  /** The processor's state. `inFlight` is not a field of the source: it
      records whether a detection started from the processing slot is still
      running (its task has neither succeeded nor failed). */
  datatype Processor = Processor(
    latestImage: Option<ByteBuffer>,
    latestImageMetaData: Option<FrameMetadata>,
    processingImage: Option<ByteBuffer>,
    processingMetaData: Option<FrameMetadata>,
    inFlight: bool,
    isShutdown: bool,
    stats: LatencyStats,
    frameProcessedInOneSecondInterval: nat,
    framesPerSecond: nat)

  const Initial: Processor :=
    Processor(None, None, None, None, false, false, ResetStats, 0, 0)

  /** The invariant: valid counters, and a running slot detection owns a full
      processing slot. */
  predicate ProcessorValid(p: Processor) {
    && StatsValid(p.stats)
    && (p.inFlight ==> p.processingImage.Some? && p.processingMetaData.Some?)
  }

  /** `processLatestImage`: move the latest frame into the processing slot,
      empty the latest slot, and start a detection if the frame and its
      metadata are both present and the processor is not shut down. */
  function LatestTaken(p: Processor): (Processor, Option<Detection>) {
    var q := p.(processingImage := p.latestImage,
                processingMetaData := p.latestImageMetaData,
                latestImage := None,
                latestImageMetaData := None);
    if q.processingImage.Some? && q.processingMetaData.Some? && !q.isShutdown then
      (q.(inFlight := true), Some(SlotDetection(q.processingImage.value, q.processingMetaData.value)))
    else
      (q.(inFlight := false), None)
  }

  /** `processByteBuffer`: overwrite the latest slot, then pull it if nothing
      is being processed. */
  function Offered(p: Processor, data: Option<ByteBuffer>, meta: Option<FrameMetadata>): (Processor, Option<Detection>) {
    var q := p.(latestImage := data, latestImageMetaData := meta);
    if q.processingImage.None? && q.processingMetaData.None? then LatestTaken(q) else (q, None)
  }

  /** A slot detection succeeded: its listeners record the latencies, count
      the frame for the frame rate, and pull the next buffered frame. After
      `stop` the executor drops both listeners. */
  function Succeeded(p: Processor, frameMs: nat, detectorMs: nat): (Processor, Option<Detection>) {
    var q := p.(inFlight := false);
    if q.isShutdown then (q, None)
    else
      LatestTaken(q.(stats := Record(q.stats, frameMs, detectorMs),
                     frameProcessedInOneSecondInterval := q.frameProcessedInOneSecondInterval + 1))
  }

  /** A slot detection failed: the task is over, but nothing releases the
      processing slot and no next frame is pulled. */
  function Failed(p: Processor): Processor {
    p.(inFlight := false)
  }

  /** `processImageProxy`: every frame is sent to the detector unless the
      processor is shut down; the slots are not involved. */
  function ProxyOffered(p: Processor, image: ImageProxy): Option<Detection> {
    if p.isShutdown then None else Some(ProxyDetection(image))
  }

  /** An image-proxy detection succeeded: record latencies and count the
      frame; nothing is pulled. Dropped after `stop`. */
  function ProxySucceeded(p: Processor, frameMs: nat, detectorMs: nat): Processor {
    if p.isShutdown then p
    else p.(stats := Record(p.stats, frameMs, detectorMs),
            frameProcessedInOneSecondInterval := p.frameProcessedInOneSecondInterval + 1)
  }

  /** The one-second timer task: publish the interval's count and restart it.
      The timer is cancelled by `stop`. */
  function Ticked(p: Processor): Processor {
    if p.isShutdown then p
    else p.(framesPerSecond := p.frameProcessedInOneSecondInterval,
            frameProcessedInOneSecondInterval := 0)
  }

  /** `stop`: shut down and reset the latency counters. */
  function Stopped(p: Processor): Processor {
    p.(isShutdown := true, stats := ResetStats)
  }

  /** The events the processor reacts to. A completion (`DetectionSuccess`, `DetectionFailure`)
      belongs to the running slot detection; `ProxySuccess` to an image-proxy
      detection. */
  datatype Event =
    | Offer(data: Option<ByteBuffer>, meta: Option<FrameMetadata>)
    | DetectionSuccess(frameMs: nat, detectorMs: nat)
    | DetectionFailure
    | ProxyFrame(image: ImageProxy)
    | ProxySuccess(proxyFrameMs: nat, proxyDetectorMs: nat)
    | Tick
    | Stop

  /** One event. A slot completion when no slot detection is running cannot
      happen and changes nothing. */
  function Step(p: Processor, e: Event): (Processor, Option<Detection>) {
    match e
    case Offer(data, meta) => Offered(p, data, meta)
    case DetectionSuccess(f, d) => if p.inFlight then Succeeded(p, f, d) else (p, None)
    case DetectionFailure => if p.inFlight then (Failed(p), None) else (p, None)
    case ProxyFrame(image) => (p, ProxyOffered(p, image))
    case ProxySuccess(f, d) => (ProxySucceeded(p, f, d), None)
    case Tick => (Ticked(p), None)
    case Stop => (Stopped(p), None)
  }

  /** A series of events: the final state and the detections started, in order. */
  function Run(p: Processor, events: seq<Event>): (Processor, seq<Detection>)
    decreases |events|
  {
    if events == [] then (p, [])
    else
      var (q, started) := Step(p, events[0]);
      var (r, rest) := Run(q, events[1..]);
      (r, OptionToSeq(started) + rest)
  }

  /** The number of slot detections in a list of started detections. */
  function SlotCount(ds: seq<Detection>): nat {
    if ds == [] then 0 else (if ds[0].SlotDetection? then 1 else 0) + SlotCount(ds[1..])
  }

  // ---- properties of single events ----

  /** Offering a frame always overwrites the latest slot: either the frame
      waits there (and any older unprocessed frame is gone), or it starts a
      detection at once and the latest slot is empty. It starts at once exactly
      when both processing slots are empty, the frame and its metadata are
      present and the processor is not shut down. */
  lemma OfferOverwrites(p: Processor, data: Option<ByteBuffer>, meta: Option<FrameMetadata>)
    ensures var (q, started) := Offered(p, data, meta);
      && (started.Some? <==>
            p.processingImage.None? && p.processingMetaData.None?
            && data.Some? && meta.Some? && !p.isShutdown)
      && (started.Some? ==>
            started == Some(SlotDetection(data.value, meta.value))
            && q.latestImage.None? && q.latestImageMetaData.None?)
      && (started.None? && (p.processingImage.Some? || p.processingMetaData.Some?) ==>
            q.latestImage == data && q.latestImageMetaData == meta
            && q.processingImage == p.processingImage && q.processingMetaData == p.processingMetaData)
      && q.stats == p.stats && q.isShutdown == p.isShutdown
  {
  }

  /** `processLatestImage` always leaves the latest slot empty, and starts a
      detection of exactly the frame it moved. */
  lemma TakeEmptiesLatest(p: Processor)
    ensures var (q, started) := LatestTaken(p);
      && q.latestImage.None? && q.latestImageMetaData.None?
      && q.processingImage == p.latestImage && q.processingMetaData == p.latestImageMetaData
      && (started.Some? <==> p.latestImage.Some? && p.latestImageMetaData.Some? && !p.isShutdown)
      && (started.Some? ==> started.value == SlotDetection(p.latestImage.value, p.latestImageMetaData.value))
  {
  }

  /** At most one slot detection runs at a time: every event keeps the
      invariant, and a slot detection starts only when none is running or when
      the running one has just succeeded; once started it is running. */
  lemma StepKeepsValid(p: Processor, e: Event)
    requires ProcessorValid(p)
    ensures ProcessorValid(Step(p, e).0)
    ensures var (q, started) := Step(p, e);
      started.Some? && started.value.SlotDetection? ==>
        q.inFlight && (!p.inFlight || e.DetectionSuccess?)
    ensures var (q, started) := Step(p, e);
      started.Some? && started.value.ProxyDetection? ==> e.ProxyFrame?
  {
    match e
    case DetectionSuccess(f, d) =>
      if p.inFlight && !p.isShutdown {
        RecordKeepsStatsValid(p.stats, f, d);
      }
    case ProxySuccess(f, d) =>
      if !p.isShutdown {
        RecordKeepsStatsValid(p.stats, f, d);
      }
    case _ =>
  }

  /** The invariant holds after any series of events. */
  lemma {:induction false} RunKeepsValid(p: Processor, events: seq<Event>)
    requires ProcessorValid(p)
    ensures ProcessorValid(Run(p, events).0)
    decreases |events|
  {
    if events != [] {
      StepKeepsValid(p, events[0]);
      RunKeepsValid(Step(p, events[0]).0, events[1..]);
    }
  }

  /** After any successful detection, 1 <= numRuns <= 500 and, per latency
      kind, min <= max <= total. */
  lemma SuccessBoundsStats(p: Processor, frameMs: nat, detectorMs: nat)
    requires ProcessorValid(p) && p.inFlight && !p.isShutdown
    ensures var s := Succeeded(p, frameMs, detectorMs).0.stats;
      && 1 <= s.numRuns <= STATS_WINDOW
      && 0 <= s.minFrameMs <= s.maxFrameMs <= s.totalFrameMs
      && 0 <= s.minDetectorMs <= s.maxDetectorMs <= s.totalDetectorMs
  {
    RecordKeepsStatsValid(p.stats, frameMs, detectorMs);
  }

  // ---- properties of event series ----

  /** The events that only offer frames. */
  function Offers(frames: seq<(Option<ByteBuffer>, Option<FrameMetadata>)>): (events: seq<Event>)
    ensures |events| == |frames|
  {
    if frames == [] then [] else [Offer(frames[0].0, frames[0].1)] + Offers(frames[1..])
  }

  /** Frames offered while a slot detection runs are never queued: none
      starts, only the last one offered is kept, and the processing slot and
      counters are untouched. */
  lemma {:induction false} OffersWhileBusy(p: Processor, frames: seq<(Option<ByteBuffer>, Option<FrameMetadata>)>)
    requires ProcessorValid(p) && p.inFlight
    ensures var (q, started) := Run(p, Offers(frames));
      && started == []
      && q == (if frames == [] then p
               else p.(latestImage := frames[|frames| - 1].0,
                       latestImageMetaData := frames[|frames| - 1].1))
    decreases |frames|
  {
    if frames != [] {
      var q := Step(p, Offers(frames)[0]).0;
      assert Offers(frames)[1..] == Offers(frames[1..]);
      OffersWhileBusy(q, frames[1..]);
      if |frames| > 1 {
        assert frames[1..][|frames[1..]| - 1] == frames[|frames| - 1];
      }
    }
  }

  /** Freshness over completeness: when frames are offered while a detection
      runs and it then succeeds, only the last of them is detected; the
      earlier ones never are. */
  lemma FreshestFrameWins(p: Processor, frames: seq<(Option<ByteBuffer>, Option<FrameMetadata>)>,
                          frameMs: nat, detectorMs: nat)
    requires ProcessorValid(p) && p.inFlight && !p.isShutdown
    requires |frames| > 0
    requires frames[|frames| - 1].0.Some? && frames[|frames| - 1].1.Some?
    ensures Run(p, Offers(frames) + [DetectionSuccess(frameMs, detectorMs)]).1
         == [SlotDetection(frames[|frames| - 1].0.value, frames[|frames| - 1].1.value)]
  {
    RunAppend(p, Offers(frames), [DetectionSuccess(frameMs, detectorMs)]);
    OffersWhileBusy(p, frames);
  }

  /** Running two series one after the other. */
  lemma {:induction false} RunAppend(p: Processor, a: seq<Event>, b: seq<Event>)
    ensures Run(p, a + b).0 == Run(Run(p, a).0, b).0
    ensures Run(p, a + b).1 == Run(p, a).1 + Run(Run(p, a).0, b).1
    decreases |a|
  {
    if a == [] {
      assert a + b == b;
    } else {
      var ab := a + b;
      assert ab != [] && ab[0] == a[0];
      assert ab[1..] == a[1..] + b;
      var (q, started) := Step(p, a[0]);
      RunAppend(q, a[1..], b);
      assert Run(p, ab) == (Run(q, ab[1..]).0, OptionToSeq(started) + Run(q, ab[1..]).1);
      assert Run(p, a) == (Run(q, a[1..]).0, OptionToSeq(started) + Run(q, a[1..]).1);
    }
  }

  /** A failed slot detection stalls the byte-buffer path for good: the
      processing slot stays occupied, so whatever happens next, no slot
      detection is ever started again. */
  lemma {:induction false} StalledForever(p: Processor, events: seq<Event>)
    requires !p.inFlight && (p.processingImage.Some? || p.processingMetaData.Some?)
    ensures SlotCount(Run(p, events).1) == 0
    ensures !Run(p, events).0.inFlight
    ensures Run(p, events).0.processingImage == p.processingImage
    ensures Run(p, events).0.processingMetaData == p.processingMetaData
    decreases |events|
  {
    if events != [] {
      var (q, started) := Step(p, events[0]);
      assert started.None? || started.value.ProxyDetection?;
      StalledForever(q, events[1..]);
      var rest := Run(q, events[1..]).1;
      if started.Some? {
        assert ([started.value] + rest)[1..] == rest;
      } else {
        assert [] + rest == rest;
      }
    }
  }

  /** The stall is reached by one failure: a frame offered to an idle
      processor starts a detection; if it fails, no later event starts
      another slot detection. */
  lemma FailureStallsSlotPath(p: Processor, data: ByteBuffer, meta: FrameMetadata, later: seq<Event>)
    requires ProcessorValid(p) && !p.isShutdown
    requires p.processingImage.None? && p.processingMetaData.None?
    ensures Run(p, [Offer(Some(data), Some(meta)), DetectionFailure] + later).1
         == [SlotDetection(data, meta)] + Run(Failed(Offered(p, Some(data), Some(meta)).0), later).1
    ensures SlotCount(Run(Failed(Offered(p, Some(data), Some(meta)).0), later).1) == 0
  {
    var q := Offered(p, Some(data), Some(meta)).0;
    RunAppend(p, [Offer(Some(data), Some(meta)), DetectionFailure], later);
    assert [Offer(Some(data), Some(meta)), DetectionFailure][1..] == [DetectionFailure];
    StalledForever(Failed(q), later);
  }

  /** After `stop` nothing is started, the latency counters stay reset and
      the frame-rate counters stay as they were, whatever happens next. */
  lemma {:induction false} ShutdownIsFinal(p: Processor, events: seq<Event>)
    requires p.isShutdown
    ensures Run(p, events).1 == []
    ensures Run(p, events).0.isShutdown
    ensures p.stats == ResetStats ==> Run(p, events).0.stats == ResetStats
    ensures Run(p, events).0.framesPerSecond == p.framesPerSecond
    ensures Run(p, events).0.frameProcessedInOneSecondInterval == p.frameProcessedInOneSecondInterval
    decreases |events|
  {
    if events != [] {
      ShutdownIsFinal(Step(p, events[0]).0, events[1..]);
    }
  }

  /** `stop` restores the identity of the counters. */
  lemma StopResetsStats(p: Processor)
    ensures Stopped(p).isShutdown && Stopped(p).stats == ResetStats
    ensures StatsValid(Stopped(p).stats) && Stopped(p).stats.numRuns == 0
  {
  }

  /** The image-proxy successes of one interval. */
  function ProxySuccesses(runs: seq<(nat, nat)>): (events: seq<Event>)
    ensures |events| == |runs|
  {
    if runs == [] then [] else [ProxySuccess(runs[0].0, runs[0].1)] + ProxySuccesses(runs[1..])
  }

  /** Whether an event, in state `p`, is a detection whose success
      listener runs: an image-proxy success, or the success of the running
      slot detection, before `stop`. */
  predicate CountedSuccess(p: Processor, e: Event) {
    !p.isShutdown && (e.ProxySuccess? || (e.DetectionSuccess? && p.inFlight))
  }

  /** The number of successful detections along a series of events. */
  function Successes(p: Processor, events: seq<Event>): nat
    decreases |events|
  {
    if events == [] then 0
    else (if CountedSuccess(p, events[0]) then 1 else 0) + Successes(Step(p, events[0]).0, events[1..])
  }

  /** Between ticks, and before `stop`, the interval counter grows by exactly
      the number of successful detections, of either path, whatever else
      (offers, image-proxy frames, failures) happens in between. */
  lemma {:induction false} IntervalCountsSuccesses(p: Processor, events: seq<Event>)
    requires !p.isShutdown
    requires forall i :: 0 <= i < |events| ==> !events[i].Tick? && !events[i].Stop?
    ensures !Run(p, events).0.isShutdown
    ensures Run(p, events).0.frameProcessedInOneSecondInterval
         == p.frameProcessedInOneSecondInterval + Successes(p, events)
    decreases |events|
  {
    if events != [] {
      IntervalCountsSuccesses(Step(p, events[0]).0, events[1..]);
    }
  }

  /** The frame rate a tick publishes is the interval count left by the
      previous tick (0 right after it) plus the successful detections since,
      and the interval counter restarts. */
  lemma FpsCountsSuccessesSinceTick(p: Processor, events: seq<Event>)
    requires !p.isShutdown
    requires forall i :: 0 <= i < |events| ==> !events[i].Tick? && !events[i].Stop?
    ensures Run(p, events + [Tick]).0.framesPerSecond
         == p.frameProcessedInOneSecondInterval + Successes(p, events)
    ensures Run(p, events + [Tick]).0.frameProcessedInOneSecondInterval == 0
  {
    RunAppend(p, events, [Tick]);
    IntervalCountsSuccesses(p, events);
    RunOne(Run(p, events).0, Tick);
  }

  /** A series of image-proxy successes counts each one. */
  lemma {:induction false} ProxySuccessesAllCount(p: Processor, runs: seq<(nat, nat)>)
    requires !p.isShutdown
    ensures Successes(p, ProxySuccesses(runs)) == |runs|
    decreases |runs|
  {
    if runs != [] {
      assert ProxySuccesses(runs)[1..] == ProxySuccesses(runs[1..]);
      ProxySuccessesAllCount(Step(p, ProxySuccesses(runs)[0]).0, runs[1..]);
    }
  }

  /** A series of one event is that event's step. */
  lemma RunOne(p: Processor, e: Event)
    ensures Run(p, [e]) == (Step(p, e).0, OptionToSeq(Step(p, e).1))
  {
    assert [e][1..] == [];
    assert OptionToSeq(Step(p, e).1) + [] == OptionToSeq(Step(p, e).1);
  }

  lemma {:induction false} ProxySuccessesCount(p: Processor, runs: seq<(nat, nat)>)
    requires !p.isShutdown
    ensures !Run(p, ProxySuccesses(runs)).0.isShutdown
    ensures Run(p, ProxySuccesses(runs)).0.frameProcessedInOneSecondInterval
         == p.frameProcessedInOneSecondInterval + |runs|
    decreases |runs|
  {
    if runs != [] {
      assert ProxySuccesses(runs)[1..] == ProxySuccesses(runs[1..]);
      ProxySuccessesCount(Step(p, ProxySuccesses(runs)[0]).0, runs[1..]);
    }
  }

  /** After `stop`, `processImageProxy` starts nothing; before, it always starts
      a detection of the given image. */
  lemma ProxyOfferedAfterStop(p: Processor, image: ImageProxy)
    ensures ProxyOffered(p, image).Some? <==> !p.isShutdown
    ensures ProxyOffered(p, image).Some? ==> ProxyOffered(p, image).value == ProxyDetection(image)
  {
  }

  // ------------------------------------------------------------------
  // The processor object
  // ------------------------------------------------------------------

  /** The processor as the source keeps it: one field per counter and slot. */
  class VisionProcessorBase {
    var latestImage: Option<ByteBuffer>
    var latestImageMetaData: Option<FrameMetadata>
    var processingImage: Option<ByteBuffer>
    var processingMetaData: Option<FrameMetadata>
    ghost var inFlight: bool
    var isShutdown: bool
    var numRuns: nat
    var totalFrameMs: int
    var maxFrameMs: int
    var minFrameMs: int
    var totalDetectorMs: int
    var maxDetectorMs: int
    var minDetectorMs: int
    var frameProcessedInOneSecondInterval: nat
    var framesPerSecond: nat

    ghost function Stats(): LatencyStats
      reads this
    {
      LatencyStats(numRuns, totalFrameMs, maxFrameMs, minFrameMs,
                   totalDetectorMs, maxDetectorMs, minDetectorMs)
    }

    /** The object's state as a `Processor` value. */
    ghost function State(): Processor
      reads this
    {
      Processor(latestImage, latestImageMetaData, processingImage, processingMetaData,
                inFlight, isShutdown, Stats(), frameProcessedInOneSecondInterval, framesPerSecond)
    }

    ghost predicate Valid()
      reads this
    {
      ProcessorValid(State())
    }

    constructor ()
      ensures Valid() && State() == Initial
    {
      latestImage, latestImageMetaData := None, None;
      processingImage, processingMetaData := None, None;
      inFlight := false;
      isShutdown := false;
      numRuns := 0;
      totalFrameMs, maxFrameMs, minFrameMs := 0, 0, LONG_MAX_VALUE;
      totalDetectorMs, maxDetectorMs, minDetectorMs := 0, 0, LONG_MAX_VALUE;
      frameProcessedInOneSecondInterval, framesPerSecond := 0, 0;
    }

    /** `processByteBuffer`. */
    method ProcessByteBuffer(data: Option<ByteBuffer>, frameMetadata: Option<FrameMetadata>)
      returns (started: Option<Detection>)
      requires Valid()
      modifies this
      ensures Valid()
      ensures (State(), started) == Offered(old(State()), data, frameMetadata)
    {
      latestImage := data;
      latestImageMetaData := frameMetadata;
      if processingImage == None && processingMetaData == None {
        started := ProcessLatestImage();
      } else {
        started := None;
      }
    }

    /** `processLatestImage`. */
    method ProcessLatestImage() returns (started: Option<Detection>)
      requires ProcessorValid(State().(inFlight := false))
      modifies this
      ensures Valid()
      ensures (State(), started) == LatestTaken(old(State()))
    {
      processingImage := latestImage;
      processingMetaData := latestImageMetaData;
      latestImage := None;
      latestImageMetaData := None;
      if processingImage.Some? && processingMetaData.Some? && !isShutdown {
        started := Some(SlotDetection(processingImage.value, processingMetaData.value));
        inFlight := true;
      } else {
        started := None;
        inFlight := false;
      }
    }

    /** The statistics part of the success listener: restart the window when
        full, then fold in the run. */
    method RecordRun(frameMs: nat, detectorMs: nat)
      requires StatsValid(Stats())
      modifies this
      ensures Stats() == Record(old(Stats()), frameMs, detectorMs)
      ensures StatsValid(Stats())
      ensures frameProcessedInOneSecondInterval == old(frameProcessedInOneSecondInterval) + 1
      ensures State().(stats := old(Stats()),
                       frameProcessedInOneSecondInterval := old(frameProcessedInOneSecondInterval))
           == old(State())
    {
      if numRuns >= STATS_WINDOW {
        ResetLatencyStats();
      }
      numRuns := numRuns + 1;
      frameProcessedInOneSecondInterval := frameProcessedInOneSecondInterval + 1;
      totalFrameMs := totalFrameMs + frameMs;
      maxFrameMs := Max(frameMs, maxFrameMs);
      minFrameMs := Min(frameMs, minFrameMs);
      totalDetectorMs := totalDetectorMs + detectorMs;
      maxDetectorMs := Max(detectorMs, maxDetectorMs);
      minDetectorMs := Min(detectorMs, minDetectorMs);
      RecordKeepsStatsValid(old(Stats()), frameMs, detectorMs);
    }

    /** The running slot detection succeeded after the given latencies. */
    method OnDetectionSuccess(frameMs: nat, detectorMs: nat) returns (started: Option<Detection>)
      requires Valid() && inFlight
      modifies this
      ensures Valid()
      ensures (State(), started) == Succeeded(old(State()), frameMs, detectorMs)
    {
      inFlight := false;
      if isShutdown {
        started := None;
        return;
      }
      RecordRun(frameMs, detectorMs);
      started := ProcessLatestImage();
    }

    /** The running slot detection failed. */
    method OnDetectionFailure()
      requires Valid() && inFlight
      modifies this
      ensures Valid()
      ensures State() == Failed(old(State()))
    {
      inFlight := false;
    }

    /** `processImageProxy`. */
    method ProcessImageProxy(image: ImageProxy) returns (started: Option<Detection>)
      ensures started == ProxyOffered(State(), image)
    {
      if isShutdown {
        return None;
      }
      started := Some(ProxyDetection(image));
    }

    /** An image-proxy detection succeeded after the given latencies. */
    method OnProxySuccess(frameMs: nat, detectorMs: nat)
      requires Valid()
      modifies this
      ensures Valid()
      ensures State() == ProxySucceeded(old(State()), frameMs, detectorMs)
    {
      if !isShutdown {
        RecordRun(frameMs, detectorMs);
      }
    }

    /** The frame-rate timer task. */
    method FpsTick()
      requires Valid()
      modifies this
      ensures Valid()
      ensures State() == Ticked(old(State()))
    {
      if !isShutdown {
        framesPerSecond := frameProcessedInOneSecondInterval;
        frameProcessedInOneSecondInterval := 0;
      }
    }

    /** `stop`. */
    method Stop()
      requires Valid()
      modifies this
      ensures Valid()
      ensures State() == Stopped(old(State()))
    {
      isShutdown := true;
      ResetLatencyStats();
    }

    /** `resetLatencyStats`. */
    method ResetLatencyStats()
      modifies this
      ensures Stats() == ResetStats
      ensures State().(stats := old(Stats())) == old(State())
    {
      numRuns := 0;
      totalFrameMs := 0;
      maxFrameMs := 0;
      minFrameMs := LONG_MAX_VALUE;
      totalDetectorMs := 0;
      maxDetectorMs := 0;
      minDetectorMs := LONG_MAX_VALUE;
    }
  }
}
