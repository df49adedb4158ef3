/**
  The background page (src/background.js): the per-tab pause registry
  `tabPauseStates`, updated by the tab-update, tab-removed and runtime-message
  listeners, and the install-time defaults. A `chrome.tabs.sendMessage` the
  page makes is returned as a `Relay`; a `sendResponse` as the reply.
 */
module Background {
  import opened Wrappers
  import opened Text
  import Settings
  import Api

  /** The messages the runtime listener distinguishes by `request.action`. */
  datatype Request =
    | GenerateDanmaku(context: Api.VideoContext, style: string, apiKey: string, count: nat, platform: Settings.Platform)
    | VideoPaused
    | VideoPlayed
    | CheckPauseState
    | OtherAction(action: string)

  /** What `sendResponse` is called with. */
  datatype Reply =
    | Paused                        // `{ paused: true }`
    | Generated(result: Api.GenResult)
    | Status(status: string)        // `{ status }`
    | PauseState(isPaused: bool)    // `{ isPaused }`

  /** The messages the background page sends to a tab's content script. */
  datatype TabMessage = VideoPageLoaded(platform: Settings.Platform) | PauseDanmaku | ResumeDanmaku

  datatype Relay = Relay(tabId: int, message: TabMessage)

  const YouTubeWatch := "youtube.com/watch"
  const BilibiliVideo := "bilibili.com/video/"

  /**
    The platform announced for a loaded URL: YouTube whenever the URL is a
    watch page, Bilibili when it is only a Bilibili video page, none otherwise.
   */
  function VideoPlatform(url: string): (r: Option<Settings.Platform>)
    ensures r == Some(Settings.YouTube) <==> Contains(url, YouTubeWatch)
    ensures r == Some(Settings.Bilibili) <==> !Contains(url, YouTubeWatch) && Contains(url, BilibiliVideo)
    ensures r.None? <==> !Contains(url, YouTubeWatch) && !Contains(url, BilibiliVideo)
  {
    if Contains(url, YouTubeWatch) then Some(Settings.YouTube)
    else if Contains(url, BilibiliVideo) then Some(Settings.Bilibili)
    else None
  }

  /** `changeInfo.status === 'complete' && tab.url` and a video URL: the platform to announce. */
  function PageLoaded(status: string, url: Option<string>): (r: Option<Settings.Platform>)
    ensures r.Some? <==> status == "complete" && url.Some? && VideoPlatform(url.value).Some?
    ensures r.Some? ==> r == VideoPlatform(url.value)
  {
    if status == "complete" && url.Some? && url.value != "" then VideoPlatform(url.value) else None
  }

  /** `sender.tab ? sender.tab.id : null`, used as a condition: absent, or the falsy id 0, is no tab. */
  function SenderTab(sender: Option<int>): (r: Option<int>)
    ensures r.Some? <==> sender.Some? && sender.value != 0
    ensures r.Some? ==> r == sender
  {
    if sender.Some? && sender.value != 0 then sender else None
  }

  /** `tabPauseStates[tabId] || false`: the stored flag, false for a tab without an entry. */
  function StoredPause(states: map<int, bool>, tabId: int): bool
  {
    tabId in states && states[tabId]
  }

  /**
    What the listeners' map updates do to the stored flags: writing a tab's
    entry sets its flag and leaves every other tab's, and deleting a tab's
    entry leaves it reported playing and every other tab's flag as it was.
   */
  lemma StoredPauseAfter(states: map<int, bool>, tabId: int, paused: bool, other: int)
    ensures StoredPause(states[tabId := paused], tabId) == paused
    ensures other != tabId ==> StoredPause(states[tabId := paused], other) == StoredPause(states, other)
    ensures !StoredPause(states - {tabId}, tabId)
    ensures other != tabId ==> StoredPause(states - {tabId}, other) == StoredPause(states, other)
  {
  }

  /** `tabId && tabPauseStates[tabId]`: the sending tab is known and marked paused. */
  function SenderPaused(states: map<int, bool>, sender: Option<int>): (r: bool)
    ensures r <==> exists t :: sender == Some(t) && t != 0 && StoredPause(states, t)
  {
    var tab := SenderTab(sender);
    tab.Some? && StoredPause(states, tab.value)
  }

  /** The values `onInstalled` writes to `chrome.storage.sync` (no display area). */
  const InstallDefaults := Settings.Patch(Some(""), Some("medium"), Some("standard"), Some(true), None)

  class PauseRegistry {
    var tabPauseStates: map<int, bool>

    constructor ()
      ensures tabPauseStates == map[]
    {
      tabPauseStates := map[];
    }

    /** `chrome.tabs.onUpdated`: a loaded video page is announced to its tab and marked playing. */
    method OnUpdated(tabId: int, status: string, url: Option<string>) returns (relay: Option<Relay>)
      modifies this
      ensures PageLoaded(status, url).Some? ==>
        && relay == Some(Relay(tabId, VideoPageLoaded(PageLoaded(status, url).value)))
        && tabPauseStates == old(tabPauseStates)[tabId := false]
      ensures PageLoaded(status, url).None? ==> relay.None? && tabPauseStates == old(tabPauseStates)
    {
      relay := None;
      if status == "complete" && url.Some? && url.value != "" {
        var isYouTube := Contains(url.value, YouTubeWatch);
        var isBilibili := Contains(url.value, BilibiliVideo);
        if isYouTube || isBilibili {
          var platform := if isYouTube then Settings.YouTube else Settings.Bilibili;
          relay := Some(Relay(tabId, VideoPageLoaded(platform)));
          tabPauseStates := tabPauseStates[tabId := false];
        }
      }
    }

    /** `chrome.tabs.onRemoved`: the tab's entry goes, every other entry stays. */
    method OnRemoved(tabId: int)
      modifies this
      ensures tabPauseStates == old(tabPauseStates) - {tabId}
      ensures tabId !in tabPauseStates
      ensures forall t :: t != tabId ==> (t in tabPauseStates <==> t in old(tabPauseStates))
      ensures forall t :: t != tabId && t in tabPauseStates ==> tabPauseStates[t] == old(tabPauseStates)[t]
    {
      if tabId in tabPauseStates {
        tabPauseStates := tabPauseStates - {tabId};
      }
    }

    /**
      `chrome.runtime.onMessage`, with the chat-completion endpoint as a
      parameter. A request from a paused tab gets `{paused: true}` and no
      request is made; `videoPaused` and `videoPlayed` update the sending
      tab's entry and relay the matching command to it; an unknown action
      gets no response.
     */
    method OnMessage(request: Request, sender: Option<int>, endpoint: Api.ChatRequest -> Api.Completion)
      returns (reply: Option<Reply>, relay: Option<Relay>)
      modifies this
      ensures request.GenerateDanmaku? ==>
        && tabPauseStates == old(tabPauseStates) && relay.None?
        && reply == Some(
             if SenderPaused(old(tabPauseStates), sender) then Paused
             else Generated(Api.Generate(request.context, request.style, request.apiKey, endpoint)))
      ensures request.VideoPaused? ==>
        && reply == Some(Status("paused"))
        && (SenderTab(sender).Some? ==>
              tabPauseStates == old(tabPauseStates)[sender.value := true]
              && relay == Some(Relay(sender.value, PauseDanmaku)))
        && (SenderTab(sender).None? ==> tabPauseStates == old(tabPauseStates) && relay.None?)
      ensures request.VideoPlayed? ==>
        && reply == Some(Status("playing"))
        && (SenderTab(sender).Some? ==>
              tabPauseStates == old(tabPauseStates)[sender.value := false]
              && relay == Some(Relay(sender.value, ResumeDanmaku)))
        && (SenderTab(sender).None? ==> tabPauseStates == old(tabPauseStates) && relay.None?)
      ensures request.CheckPauseState? ==>
        && tabPauseStates == old(tabPauseStates) && relay.None?
        && reply == Some(PauseState(SenderTab(sender).Some? && StoredPause(old(tabPauseStates), sender.value)))
      ensures request.OtherAction? ==> reply.None? && relay.None? && tabPauseStates == old(tabPauseStates)
    {
      var tabId := SenderTab(sender);
      relay := None;
      match request
      case GenerateDanmaku(context, style, apiKey, _, _) =>
        if tabId.Some? && StoredPause(tabPauseStates, tabId.value) {
          reply := Some(Paused);
        } else {
          // The generator never rejects, so its `.catch` branch is never taken.
          reply := Some(Generated(Api.Generate(context, style, apiKey, endpoint)));
        }
      case VideoPaused =>
        if tabId.Some? {
          tabPauseStates := tabPauseStates[tabId.value := true];
          relay := Some(Relay(tabId.value, PauseDanmaku));
        }
        reply := Some(Status("paused"));
      case VideoPlayed =>
        if tabId.Some? {
          tabPauseStates := tabPauseStates[tabId.value := false];
          relay := Some(Relay(tabId.value, ResumeDanmaku));
        }
        reply := Some(Status("playing"));
      case CheckPauseState =>
        if tabId.Some? {
          reply := Some(PauseState(StoredPause(tabPauseStates, tabId.value)));
        } else {
          reply := Some(PauseState(false));
        }
      case OtherAction(_) =>
        reply := None;
    }
  }

  /** The install-time defaults agree with the content script's initial settings. */
  lemma DefaultsMatchInitialConfig()
    ensures Settings.Merge(Settings.InitialConfig, InstallDefaults) == Settings.InitialConfig
  {
  }

  /**
    A tab that has paused is reported paused, and a generation request from
    it is answered `{paused: true}` whatever the endpoint would say; after it
    plays again, or after its entry is removed, it is reported playing.
   */
  method PauseRoundTrip(tab: int, endpoint: Api.ChatRequest -> Api.Completion, context: Api.VideoContext)
    returns (whilePaused: Option<Reply>, generated: Option<Reply>, afterPlay: Option<Reply>, afterRemove: Option<Reply>)
    requires tab != 0
    ensures whilePaused == Some(PauseState(true))
    ensures generated == Some(Paused)
    ensures afterPlay == Some(PauseState(false))
    ensures afterRemove == Some(PauseState(false))
  {
    var registry := new PauseRegistry();
    var relay;
    whilePaused, relay := registry.OnMessage(VideoPaused, Some(tab), endpoint);
    whilePaused, relay := registry.OnMessage(CheckPauseState, Some(tab), endpoint);
    generated, relay := registry.OnMessage(GenerateDanmaku(context, "standard", "key", 10, Settings.YouTube), Some(tab), endpoint);
    afterPlay, relay := registry.OnMessage(VideoPlayed, Some(tab), endpoint);
    afterPlay, relay := registry.OnMessage(CheckPauseState, Some(tab), endpoint);
    afterRemove, relay := registry.OnMessage(VideoPaused, Some(tab), endpoint);
    registry.OnRemoved(tab);
    afterRemove, relay := registry.OnMessage(CheckPauseState, Some(tab), endpoint);
  }
}
