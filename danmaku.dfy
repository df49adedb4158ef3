/**
  The content script (src/danmaku.js): the comment queue, the batch-generation
  timer, the display intervals, the live comment elements and the pause state
  of one page, kept by `Session`.

  The DOM is reduced to what the logic tests: whether a video element and the
  platform's player wrapper exist, whether `danmakuContainer` is set, and
  whether an element with the container's id is in the document. Each
  comment element is a `Handle`. `Math.random()` values are `Random.Sample`
  parameters; what the page reads from the DOM at a given moment (the
  floored play time, the title, the description) is a `Moment` parameter.
  The messages the script sends are returned as `Background.Request` values,
  and the replies it receives are arguments of the matching callback method.
 */
module Danmaku {
  import opened Wrappers
  import opened Text
  import opened Random
  import opened Captions
  import opened Display
  import Settings
  import Api
  import Background
  import YouTube
  import Bilibili

  /** The comments in a reply from the background page: those of a `{danmaku}` result, none otherwise. */
  function ResponseItems(response: Option<Background.Reply>): seq<string>
  {
    if response.Some? && response.value.Generated? && response.value.result.Danmaku?
    then response.value.result.items else []
  }

  /** Which platform `initialize` detects from the page URL, if any. */
  function DetectPlatform(url: string): (r: Option<Settings.Platform>)
    ensures r == Some(Settings.YouTube) <==> YouTube.IsVideoPage(url)
    ensures r == Some(Settings.Bilibili) <==> !YouTube.IsVideoPage(url) && Bilibili.IsVideoPage(url)
    ensures r.None? <==> !YouTube.IsVideoPage(url) && !Bilibili.IsVideoPage(url)
  {
    if YouTube.IsVideoPage(url) then Some(Settings.YouTube)
    else if Bilibili.IsVideoPage(url) then Some(Settings.Bilibili)
    else None
  }

  // ---------------------------------------------------------------------
  // The session (the module-level variables of src/danmaku.js:4-23)
  // ---------------------------------------------------------------------

  /** A snapshot of every variable of the session, for stating what a step changes. */
  datatype State = State(
    queue: seq<string>,
    subtitles: seq<Subtitle>,
    lastProcessedTime: int,
    config: Settings.Config,
    isPaused: bool,
    isBatchGenerating: bool,
    timerPending: bool,
    batchDelay: nat,
    platform: Settings.Platform,
    hasContainer: bool,
    containerMounted: bool,
    hasVideo: bool,
    live: seq<Handle>,
    inFlight: nat,
    activeIntervals: nat)
  {
    /** How many comments the next drain takes. */
    function NextDrain(): nat
    {
      if hasContainer then DrainCount(config.danmakuFrequency, |queue|) else 0
    }

    /** The elements a drain of `texts` adds to the document with `draws`. */
    function Shown(texts: seq<string>, draws: seq<Draw>): seq<Handle>
      requires |draws| >= |texts|
    {
      if hasVideo && containerMounted then Handles(texts, draws, config.danmakuDisplayArea, isPaused) else []
    }
  }

  /**
    `response.isPaused || videoElement.paused` evaluates without throwing: a
    reply arrived, and either it reports the tab paused or there is a video.
   */
  predicate ReplyRead(registryPaused: Option<bool>, hasVideo: bool)
  {
    registryPaused.Some? && (registryPaused.value || hasVideo)
  }

  class Session {
    /** `danmakuQueue`. */
    var queue: seq<string>
    var subtitles: seq<Subtitle>
    var lastProcessedTime: int
    var config: Settings.Config
    var isPaused: bool
    var isBatchGenerating: bool
    /** A re-entry timeout of the generator is scheduled and has not fired yet. */
    var timerPending: bool
    /** The delay, in milliseconds, the pending re-entry was scheduled with. */
    var batchDelay: nat
    /** `currentPlatform`. */
    var platform: Settings.Platform
    /** `danmakuContainer !== null`. */
    var hasContainer: bool
    /** An element with the id `ai-danmaku-container` is in the document. */
    var containerMounted: bool
    /** `videoElement !== null`. */
    var hasVideo: bool
    /** The `.ai-danmaku` elements in the document. */
    var live: seq<Handle>
    /** Generation requests whose reply has not arrived. */
    var inFlight: nat
    /** Display intervals that have not cleared themselves. */
    var activeIntervals: nat

    function St(): State
      reads this
    {
      State(queue, subtitles, lastProcessedTime, config, isPaused, isBatchGenerating, timerPending,
        batchDelay, platform, hasContainer, containerMounted, hasVideo, live, inFlight, activeIntervals)
    }

    /**
      The timer is pending exactly while a batch is generating, and every
      live comment has a palette colour and a position in the full range.
     */
    predicate Valid()
      reads this
    {
      timerPending == isBatchGenerating && WellPlaced(live)
    }

    /** The script's state when it is loaded (src/danmaku.js:4-23), on a page without the container. */
    constructor ()
      ensures Valid()
      ensures St() == State([], [], 0, Settings.InitialConfig, false, false, false, 0,
        Settings.YouTube, false, false, false, [], 0, 0)
    {
      queue, subtitles, lastProcessedTime := [], [], 0;
      config := Settings.InitialConfig;
      isPaused, isBatchGenerating, timerPending, batchDelay := false, false, false, 0;
      platform := Settings.YouTube;
      hasContainer, containerMounted, hasVideo := false, false, false;
      live, inFlight, activeIntervals := [], 0, 0;
    }

    // -------------------------------------------------------------------
    // Queue (src/danmaku.js:452-477)
    // -------------------------------------------------------------------

    /** `addDanmakuToQueue(list)`: the items go to the back of the queue, in order. */
    method AddDanmakuToQueue(p: Payload)
      modifies this`queue
      ensures queue == old(queue) + PayloadItems(p)
    {
      var items := if p.Items? then p.items else [p.item];
      queue := queue + items;
    }

    /**
      `createDanmakuElement(text)`: without a container or a video nothing
      happens and no random value is drawn. Otherwise an element is made,
      paused when the session is paused; it is in the document only when the
      container is.
     */
    method CreateDanmakuElement(text: string, d: Draw)
      modifies this`live
      ensures live == old(live) +
        if hasContainer && hasVideo && containerMounted
        then [MakeHandle(text, d, config.danmakuDisplayArea, isPaused)] else []
    {
      if !hasContainer || !hasVideo {
        return;
      }
      var color := RandomColor(d.color);
      var top := TopPercent(config.danmakuDisplayArea, d.top);
      var h := Handle(text, top, color, isPaused);
      if containerMounted {
        live := live + [h];
      }
    }

    /**
      `showQueuedDanmaku()`: nothing without a container or with an empty
      queue; otherwise the first `min(batch size, |queue|)` comments leave the
      queue and are shown, in order; the rest of the queue stays as it was.
     */
    method ShowQueuedDanmaku(draws: seq<Draw>)
      requires Valid() && |draws| >= |queue|
      modifies this`queue, this`live
      ensures Valid()
      ensures var n := old(St()).NextDrain();
        && n <= |old(queue)|
        && old(queue)[..n] + queue == old(queue)
        && queue == old(queue)[n..]
        && live == old(live) + old(St()).Shown(old(queue)[..n], draws)
    {
      if |queue| == 0 || !hasContainer {
        return;
      }
      var n := DrainCount(config.danmakuFrequency, |queue|);
      var toShow := queue[..n];
      queue := queue[n..];
      CreateAll(toShow, draws);
      assert toShow + queue == old(queue);
    }

    /** The loop of `showQueuedDanmaku`: one element per text, in order. */
    method CreateAll(toShow: seq<string>, draws: seq<Draw>)
      requires Valid() && hasContainer && |draws| >= |toShow|
      modifies this`live
      ensures Valid()
      ensures live == old(live) + St().Shown(toShow, draws)
    {
      ghost var area, paused, visible := config.danmakuDisplayArea, isPaused, hasVideo && containerMounted;
      ghost var before := live;
      assert WellPlaced(before);
      var i := 0;
      while i < |toShow|
        invariant 0 <= i <= |toShow|
        invariant live == old(live) + if visible then Handles(toShow[..i], draws, area, paused) else []
      {
        CreateDanmakuElement(toShow[i], draws[i]);
        HandlesSnoc(toShow, i, draws, area, paused);
        i := i + 1;
      }
      assert toShow[..i] == toShow;
      ghost var made := if visible then Handles(toShow, draws, area, paused) else [];
      assert live == before + made;
      WellPlacedAppend(before, made);
    }

    /** An element's animation finished: it is removed from the document. */
    method FinishHandle(i: nat)
      requires Valid() && i < |live| && !live[i].paused
      modifies this`live
      ensures Valid()
      ensures live == old(live)[..i] + old(live)[i + 1..]
    {
      live := live[..i] + live[i + 1..];
      assert forall k :: 0 <= k < |live| ==> live[k] == old(live)[if k < i then k else k + 1];
    }

    // -------------------------------------------------------------------
    // Time updates and generation (src/danmaku.js:170-245)
    // -------------------------------------------------------------------

    /**
      `handleTimeUpdate()` at the floored play time `videoTime`: without a
      video or when disabled nothing happens; otherwise one drain happens
      when the second differs from the last one processed, which becomes it.
     */
    method HandleTimeUpdate(videoTime: nat, draws: seq<Draw>)
      requires Valid() && |draws| >= |queue|
      modifies this
      ensures Valid()
      ensures !old(hasVideo) || !old(config.enabled) || videoTime == old(lastProcessedTime) ==> St() == old(St())
      ensures old(hasVideo) && old(config.enabled) && videoTime != old(lastProcessedTime) ==>
        var n := old(St()).NextDrain();
        St() == old(St()).(lastProcessedTime := videoTime, queue := old(queue)[n..],
          live := old(live) + old(St()).Shown(old(queue)[..n], draws))
    {
      if !hasVideo || !config.enabled {
        return;
      }
      if videoTime != lastProcessedTime {
        lastProcessedTime := videoTime;
        ShowQueuedDanmaku(draws);
      }
    }

    /**
      `request` is what `generateDanmakuBatch()` sends from the current state:
      nothing without a video, when disabled or without a key, and otherwise a
      request for the current context, style, key and platform, asking for
      `10 + Scale(countDraw, 11)` comments.
     */
    predicate BatchRequest(m: Moment, countDraw: Sample, request: Option<Background.Request>)
      reads this
    {
      && (request.Some? <==> hasVideo && config.enabled && config.apiKey != "")
      && (request.Some? ==> request.value == Background.GenerateDanmaku(
            GetVideoContext(platform, subtitles, m), config.danmakuStyle, config.apiKey,
            10 + Scale(countDraw, 11), platform))
    }

    /**
      `generateDanmakuBatch()`: without a video, when disabled or without a
      key nothing is sent; otherwise a request for 10 to 20 comments about
      the current context is sent.
     */
    method GenerateDanmakuBatch(m: Moment, countDraw: Sample) returns (request: Option<Background.Request>)
      modifies this
      ensures Valid() == old(Valid())
      ensures BatchRequest(m, countDraw, request)
      ensures request.Some? ==> 10 <= request.value.count <= 20
      ensures St() == old(St()).(inFlight := old(inFlight) + if request.Some? then 1 else 0)
    {
      if !hasVideo || !config.enabled || config.apiKey == "" {
        return None;
      }
      var context := GetVideoContext(platform, subtitles, m);
      var count := Scale(countDraw, 11) + 10;
      request := Some(Background.GenerateDanmaku(context, config.danmakuStyle, config.apiKey, count, platform));
      inFlight := inFlight + 1;
    }

    /**
      `startRandomDanmakuGeneration()`: nothing while a batch is generating or
      while paused; otherwise the flag is set, a batch is requested, and the
      re-entry is scheduled 1000 to 4999 ms later.
     */
    method StartRandomDanmakuGeneration(m: Moment, countDraw: Sample, delayDraw: Sample)
      returns (request: Option<Background.Request>)
      requires Valid()
      modifies this
      ensures Valid()
      ensures old(isBatchGenerating) || old(isPaused) ==> St() == old(St()) && request.None?
      ensures !old(isBatchGenerating) && !old(isPaused) ==>
        && isBatchGenerating && timerPending
        && 1000 <= batchDelay <= 4999 && batchDelay == 1000 + Scale(delayDraw, 4000)
        && BatchRequest(m, countDraw, request)
        && St() == old(St()).(isBatchGenerating := true, timerPending := true, batchDelay := batchDelay,
             inFlight := old(inFlight) + if request.Some? then 1 else 0)
    {
      if isBatchGenerating || isPaused {
        return None;
      }
      isBatchGenerating := true;
      request := GenerateDanmakuBatch(m, countDraw);
      batchDelay := Scale(delayDraw, 4000) + 1000;
      timerPending := true;
    }

    /** The batch timer fires: the flag is cleared and generation restarts, unless the session is paused. */
    method OnBatchTimer(m: Moment, countDraw: Sample, delayDraw: Sample) returns (request: Option<Background.Request>)
      requires Valid() && timerPending
      modifies this
      ensures Valid()
      ensures old(isPaused) ==> St() == old(St()).(isBatchGenerating := false, timerPending := false) && request.None?
      ensures !old(isPaused) ==> isBatchGenerating && timerPending && 1000 <= batchDelay <= 4999
      ensures !old(isPaused) ==> batchDelay == 1000 + Scale(delayDraw, 4000) && BatchRequest(m, countDraw, request)
      ensures !old(isPaused) ==>
        St() == old(St()).(batchDelay := batchDelay, inFlight := old(inFlight) + if request.Some? then 1 else 0)
    {
      timerPending := false;
      isBatchGenerating := false;
      request := StartRandomDanmakuGeneration(m, countDraw, delayDraw);
    }

    /**
      The reply to a generation request. A `{danmaku}` result goes to the
      back of the queue, one drain follows at once, and a display interval
      starts; any other reply, or none, changes nothing. The pause state is
      not consulted.
     */
    method OnGenerateResponse(response: Option<Background.Reply>, draws: seq<Draw>)
      requires Valid() && inFlight > 0 && |draws| >= |queue| + |ResponseItems(response)|
      modifies this
      ensures Valid()
      ensures !(response.Some? && response.value.Generated? && response.value.result.Danmaku?) ==>
        St() == old(St()).(inFlight := old(inFlight) - 1)
      ensures response.Some? && response.value.Generated? && response.value.result.Danmaku? ==>
        var q := old(queue) + ResponseItems(response);
        var n := if old(hasContainer) then DrainCount(old(config.danmakuFrequency), |q|) else 0;
        && q[..n] + queue == q
        && St() == old(St()).(inFlight := old(inFlight) - 1, queue := q[n..],
             live := old(live) + old(St()).Shown(q[..n], draws), activeIntervals := old(activeIntervals) + 1)
    {
      inFlight := inFlight - 1;
      if !(response.Some? && response.value.Generated? && response.value.result.Danmaku?) {
        return;
      }
      AddDanmakuToQueue(Items(response.value.result.items));
      ShowQueuedDanmaku(draws);
      activeIntervals := activeIntervals + 1;
    }

    /** A display interval fires: a drain while the queue has comments, otherwise the interval clears itself. */
    method DisplayTick(draws: seq<Draw>)
      requires Valid() && activeIntervals > 0 && |draws| >= |queue|
      modifies this
      ensures Valid()
      ensures old(queue) == [] ==> St() == old(St()).(activeIntervals := old(activeIntervals) - 1)
      ensures old(queue) != [] ==>
        var n := old(St()).NextDrain();
        St() == old(St()).(queue := old(queue)[n..], live := old(live) + old(St()).Shown(old(queue)[..n], draws))
    {
      if |queue| > 0 {
        ShowQueuedDanmaku(draws);
      } else {
        activeIntervals := activeIntervals - 1;
      }
    }

    // -------------------------------------------------------------------
    // Pause and play (src/danmaku.js:770-807, 819-841)
    // -------------------------------------------------------------------

    /** `handleVideoPause()`: tells the background page, pauses, cancels the timer and clears the flag. */
    method HandleVideoPause() returns (message: Background.Request)
      requires Valid()
      modifies this
      ensures Valid()
      ensures message == Background.VideoPaused
      ensures St() == old(St()).(isPaused := true, timerPending := false, isBatchGenerating := false)
    {
      message := Background.VideoPaused;
      isPaused := true;
      timerPending := false;
      isBatchGenerating := false;
    }

    /** `handleVideoPlay()`: tells the background page, plays, and starts generation unless a batch is generating. */
    method HandleVideoPlay(m: Moment, countDraw: Sample, delayDraw: Sample)
      returns (message: Background.Request, request: Option<Background.Request>)
      requires Valid()
      modifies this
      ensures Valid()
      ensures message == Background.VideoPlayed
      ensures !isPaused
      ensures old(isBatchGenerating) ==> St() == old(St()).(isPaused := false) && request.None?
      ensures !old(isBatchGenerating) ==> isBatchGenerating && timerPending && 1000 <= batchDelay <= 4999
      ensures !old(isBatchGenerating) ==> batchDelay == 1000 + Scale(delayDraw, 4000) && BatchRequest(m, countDraw, request)
      ensures !old(isBatchGenerating) ==>
        St() == old(St()).(isPaused := false, isBatchGenerating := true, timerPending := true,
          batchDelay := batchDelay, inFlight := old(inFlight) + if request.Some? then 1 else 0)
    {
      message := Background.VideoPlayed;
      isPaused := false;
      request := None;
      if !isBatchGenerating {
        request := StartRandomDanmakuGeneration(m, countDraw, delayDraw);
      }
    }

    /** Every live element's animation is paused (`paused`) or played (`!paused`). */
    method SetAllPaused(paused: bool)
      requires Valid()
      modifies this`live
      ensures Valid()
      ensures |live| == |old(live)|
      ensures forall k :: 0 <= k < |live| ==> live[k] == old(live)[k].(paused := paused)
    {
      var i := 0;
      while i < |live|
        invariant 0 <= i <= |live| == |old(live)|
        invariant forall k :: 0 <= k < i ==> live[k] == old(live)[k].(paused := paused)
        invariant forall k :: i <= k < |live| ==> live[k] == old(live)[k]
        invariant Valid()
      {
        live := live[i := live[i].(paused := paused)];
        i := i + 1;
      }
    }

    /** The `pauseDanmaku` message: every live element's animation is paused, and so is the session. */
    method PauseDanmaku() returns (status: string)
      requires Valid()
      modifies this
      ensures Valid()
      ensures status == "paused"
      ensures |live| == |old(live)|
      ensures forall k :: 0 <= k < |live| ==> live[k] == old(live)[k].(paused := true)
      ensures St() == old(St()).(isPaused := true, live := live)
    {
      SetAllPaused(true);
      isPaused := true;
      status := "paused";
    }

    /**
      The `resumeDanmaku` message: every live element's animation plays, the
      session plays, and generation restarts unless a batch is generating.
     */
    method ResumeDanmaku(m: Moment, countDraw: Sample, delayDraw: Sample)
      returns (status: string, request: Option<Background.Request>)
      requires Valid()
      modifies this
      ensures Valid()
      ensures status == "resumed"
      ensures !isPaused
      ensures |live| == |old(live)|
      ensures forall k :: 0 <= k < |live| ==> live[k] == old(live)[k].(paused := false)
      ensures old(isBatchGenerating) ==> St() == old(St()).(isPaused := false, live := live) && request.None?
      ensures !old(isBatchGenerating) ==> isBatchGenerating && timerPending && 1000 <= batchDelay <= 4999
      ensures !old(isBatchGenerating) ==> batchDelay == 1000 + Scale(delayDraw, 4000) && BatchRequest(m, countDraw, request)
      ensures !old(isBatchGenerating) ==>
        St() == old(St()).(isPaused := false, live := live, isBatchGenerating := true, timerPending := true,
          batchDelay := batchDelay, inFlight := old(inFlight) + if request.Some? then 1 else 0)
    {
      SetAllPaused(false);
      isPaused := false;
      request := None;
      if !isBatchGenerating {
        request := StartRandomDanmakuGeneration(m, countDraw, delayDraw);
      }
      status := "resumed";
    }

    /** The `configUpdated` message: the keys it carries replace the current settings. */
    method ConfigUpdated(patch: Settings.Patch) returns (status: string)
      requires Valid()
      modifies this
      ensures Valid()
      ensures status == "configUpdated"
      ensures St() == old(St()).(config := Settings.Merge(old(config), patch))
    {
      config := Settings.Merge(config, patch);
      status := "configUpdated";
    }

    // -------------------------------------------------------------------
    // Initialisation (src/danmaku.js:26-167, 846-866)
    // -------------------------------------------------------------------

    /**
      `clearAllDanmaku()`: every comment element is cancelled and removed.
      The container is looked up by a class it never has, so it stays.
     */
    method ClearAllDanmaku()
      requires Valid()
      modifies this`live
      ensures Valid()
      ensures live == []
    {
      while live != []
        invariant Valid()
        decreases |live|
      {
        live := live[1..];
      }
    }

    /**
      `setupDanmakuContainer()`: a container already in the document is
      reused; otherwise a new one is made, and it enters the document only
      when both the video and the platform's player wrapper exist.
     */
    method SetupDanmakuContainer(videoPresent: bool, wrapperPresent: bool)
      requires Valid()
      modifies this
      ensures Valid()
      ensures St() == old(St()).(hasContainer := true,
        containerMounted := old(containerMounted) || (videoPresent && wrapperPresent))
    {
      hasContainer := true;
      if containerMounted {
        return;
      }
      if !videoPresent || !wrapperPresent {
        return;
      }
      containerMounted := true;
    }

    /**
      The synchronous part of `initialize()` on the page `url`: the comments
      are cleared and every variable is reset; then the platform is detected,
      and without one initialisation stops. The settings, the video variable,
      requests in flight, display intervals and the container element are
      left as they were.
     */
    method Initialize(url: string) returns (detected: Option<Settings.Platform>)
      requires Valid()
      modifies this
      ensures Valid()
      ensures detected == DetectPlatform(url)
      ensures queue == [] && subtitles == [] && lastProcessedTime == 0 && live == []
      ensures !isPaused && !isBatchGenerating && !timerPending && !hasContainer
      ensures containerMounted == old(containerMounted)
      ensures St() == old(St()).(queue := [], subtitles := [], lastProcessedTime := 0, isPaused := false,
        isBatchGenerating := false, timerPending := false, hasContainer := false, live := [],
        platform := if detected.Some? then detected.value else old(platform))
    {
      ClearAllDanmaku();
      Reset();
      detected := DetectPlatform(url);
      if detected.Some? {
        platform := detected.value;
      }
    }

    /** The reset of `initialize()`: the variables get their initial values, the timer is cancelled. */
    method Reset()
      modifies this`hasContainer, this`queue, this`subtitles, this`lastProcessedTime, this`isPaused,
        this`isBatchGenerating, this`timerPending
      ensures queue == [] && subtitles == [] && lastProcessedTime == 0
      ensures !isPaused && !isBatchGenerating && !timerPending && !hasContainer
    {
      hasContainer := false;
      queue := [];
      subtitles := [];
      lastProcessedTime := 0;
      isPaused := false;
      isBatchGenerating := false;
      timerPending := false;
    }

    /**
      The storage callback of `initialize()`: the stored keys replace the
      settings; disabled or without a key, initialisation stops there.
      Otherwise the container is set up, the video is looked up, and when
      there is one the pause state is asked of the background page.
     */
    method OnStoredConfig(stored: Settings.Patch, videoPresent: bool, wrapperPresent: bool)
      returns (request: Option<Background.Request>)
      requires Valid()
      modifies this
      ensures Valid()
      ensures config == Settings.Merge(old(config), stored)
      ensures !config.enabled || config.apiKey == "" ==>
        St() == old(St()).(config := config) && request.None?
      ensures config.enabled && config.apiKey != "" ==>
        && (request == if videoPresent then Some(Background.CheckPauseState) else None)
        && St() == old(St()).(config := config, hasContainer := true,
             containerMounted := old(containerMounted) || (videoPresent && wrapperPresent),
             hasVideo := videoPresent)
    {
      config := Settings.Merge(config, stored);
      if !config.enabled || config.apiKey == "" {
        return None;
      }
      SetupDanmakuContainer(videoPresent, wrapperPresent);
      hasVideo := videoPresent;
      request := if videoPresent then Some(Background.CheckPauseState) else None;
    }

    /**
      The reply to `checkPauseState`: the session is paused when the tab is
      paused or the video is, and generation starts only when it is not. The
      callback stops before changing anything when it throws: a missing reply
      makes `response.isPaused` throw, and so does `videoElement.paused` when
      the tab is not paused and the video reference is null, as it is after an
      `initialize()` that found no video ran while the reply was on its way.
     */
    method OnPauseState(registryPaused: Option<bool>, videoPaused: bool, m: Moment, countDraw: Sample, delayDraw: Sample)
      returns (request: Option<Background.Request>)
      requires Valid()
      modifies this
      ensures Valid()
      ensures !ReplyRead(registryPaused, old(hasVideo)) ==> St() == old(St()) && request.None?
      ensures ReplyRead(registryPaused, old(hasVideo)) ==> isPaused == (registryPaused.value || videoPaused)
      ensures ReplyRead(registryPaused, old(hasVideo)) && isPaused ==>
        St() == old(St()).(isPaused := true) && request.None?
      ensures ReplyRead(registryPaused, old(hasVideo)) && !isPaused && !old(isBatchGenerating) ==>
        isBatchGenerating && timerPending && 1000 <= batchDelay <= 4999
      ensures ReplyRead(registryPaused, old(hasVideo)) && !isPaused && !old(isBatchGenerating) ==>
        batchDelay == 1000 + Scale(delayDraw, 4000) && BatchRequest(m, countDraw, request)
      ensures ReplyRead(registryPaused, old(hasVideo)) && !isPaused && !old(isBatchGenerating) ==>
        St() == old(St()).(isPaused := false, isBatchGenerating := true, timerPending := true,
          batchDelay := batchDelay, inFlight := old(inFlight) + if request.Some? then 1 else 0)
      ensures ReplyRead(registryPaused, old(hasVideo)) && !isPaused && old(isBatchGenerating) ==>
        St() == old(St()).(isPaused := false) && request.None?
    {
      if !ReplyRead(registryPaused, hasVideo) {
        return None;
      }
      isPaused := registryPaused.value || videoPaused;
      request := None;
      if !isPaused {
        request := StartRandomDanmakuGeneration(m, countDraw, delayDraw);
      }
    }

    /** A subtitle scan at play time `time` (src/danmaku.js:303-313): each non-empty trimmed text is pushed. */
    method RecordSubtitles(texts: seq<string>, time: int)
      requires Valid()
      modifies this`subtitles
      ensures Valid()
      ensures old(subtitles) + Recorded(texts, time) == subtitles
    {
      subtitles := PushSubtitles(subtitles, texts, time);
    }
  }
}
