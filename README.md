# ai-danmaku, modelled in Dafny

ai-danmaku is a browser extension that writes AI-generated "danmaku" (short
floating comments) over YouTube and Bilibili videos. This project models its
logic:

- The content script (`src/danmaku.js`). It keeps a FIFO queue of comments
  and drains it a batch at a time into comment elements. It runs a batch
  generator that re-enters itself on a random 1–5 s timer, and display
  intervals that drain the queue after each reply. It tracks pause and play,
  handles the messages the background page sends, and builds the video
  context from nearby subtitles. This is the class `Danmaku.Session`, with
  its pure helpers in the modules `Display` and `Captions`.
- The background page (`src/background.js`). It keeps the per-tab pause
  registry `tabPauseStates` and handles the tab-update, tab-removed and
  runtime-message events. This is the class `Background.PauseRegistry`.
- The language-model helpers (`src/utils/api.js`). These are the prompt
  template, `formatTime`, the reply parser `parseDanmakuResponse` with its
  marker-stripping regular expression, and how the endpoint's answer becomes
  `{danmaku}` or `{error}`. This is the module `Api`.
- The URL helpers of the two platforms (`src/utils/youtube.js`,
  `src/utils/bilibili.js`): the video-id regular expressions, the video-page
  tests and each file's own copy of `formatTime`. These are the modules
  `YouTube` and `Bilibili`, over the shared regular-expression shape in
  `UrlPattern`.

How things outside the logic are represented:

- The DOM becomes booleans:
  - `hasVideo`: the video element is known;
  - `hasContainer`: `danmakuContainer` is set;
  - `containerMounted`: an element with the container's id is in the document.
  Each comment element is a `Display.Handle`.
- `Math.random()` becomes a `Random.Sample`, a fraction in [0, 1), passed
  as a parameter.
- What the page reads from the DOM at one moment becomes a `Captions.Moment`
  parameter: the floored play time, the title and the description.
- The HTTP exchange with the chat-completion endpoint is a function
  parameter.
- Each `chrome.runtime` and `chrome.tabs` message is a value. The content
  script returns the requests it sends (`Background.Request`). The
  background page returns its `sendResponse` value (`Background.Reply`) and
  any message it relays to a tab (`Background.Relay`). A callback that
  receives a reply is a method that takes the reply as an argument.
- JavaScript's `length` counts UTF-16 code units (`Text.Utf16Length`).
- `trim` and the `\s` class use ECMAScript's whitespace set
  (`Text.IsSpace`).

Behaviour of the code a reader might not expect:

- A generation reply is queued even when it arrives while the video is
  paused. The only pause check is the background page's, made when the
  request arrives (`src/background.js:58-62`), not when the reply arrives
  (`src/danmaku.js:223-230`).
- Nothing limits the content script to one request at a time. The batch
  timer re-enters every 1–5 s whether or not a reply has come, so
  `Session.inFlight` counts the open requests.
- `initialize()` neither cancels display intervals nor ignores replies to
  requests sent before it ran.
- The `checkPauseState` reply reads the video reference when it arrives
  (`src/danmaku.js:81`). If an `initialize()` that found no video ran in
  between and the tab is not paused, the callback throws and generation does
  not start (`Danmaku.ReplyRead`).
- The container is never removed. `clearAllDanmaku` looks containers up by
  the class `.ai-danmaku-container`, but the container only has that value
  as its id (`src/danmaku.js:105, 859`). Re-initialisation therefore reuses
  the element it finds by id (`src/danmaku.js:97-101`).
- `initialize()` does not reset `videoElement`.
- The `.catch` of the background page's generation call is never taken,
  because the generator catches every error inside its own `try`
  (`src/utils/api.js:51-54`).
- The re-entry delay is `floor(random * 4000) + 1000` ms, so 1000–4999 ms.

## Model

| member | source | states |
|---|---|---|
| Api.FormatTime | src/utils/api.js:87-91 | the result is the minutes as a canonical decimal, a colon, then the seconds modulo 60 as exactly two digits; both fields read back as those numbers |
| Api.SecondsField | src/utils/api.js:89-90 | the zero-padded seconds field is two digits whose value is the seconds |
| Api.ParseFormatTime | src/utils/api.js:87-91 | reading a formatted time back gives the number of seconds |
| Api.FormatParseTime | src/utils/api.js:87-91 | the rendering is unique: every `m:ss` string that reads as n is the formatted n |
| Api.FirstBullet | src/utils/api.js:101 | finds the leftmost `-` or `•` at or after the start index, or reports that there is none |
| Api.StripMarker | src/utils/api.js:101 | the replacement never lengthens the line (its cases are stated by the three lemmas below) |
| Api.NumberedPrefixFound | src/utils/api.js:101 | a line that starts with digits and a dot takes the anchored alternative |
| Api.StripNumbered | src/utils/api.js:101 | a line that starts with `digits.` loses the digits, the dot and the whitespace after them, and nothing else |
| Api.StripBullet | src/utils/api.js:101 | without a numbered prefix, the first `-` or `•` anywhere in the line is removed with the whitespace after it, and the rest is kept |
| Api.StripPlain | src/utils/api.js:101 | a line with neither a numbered prefix nor a bullet is unchanged |
| Api.CleanLine | src/utils/api.js:99-102 | a cleaned line has no whitespace at either end |
| Api.LineComment | src/utils/api.js:96-102 | a line contributes at most one comment and none when it is blank; the comment is trimmed and 1..30 code units long |
| Api.ParseLines | src/utils/api.js:96-102 | every comment is trimmed and 1..30 code units long; there are no more comments than non-blank lines |
| Api.ParseDanmakuResponse | src/utils/api.js:94-103 | every comment is trimmed and 1..30 code units long; there are no more comments than non-blank `\n`-separated lines of the content |
| Api.ParseLinesAppend | src/utils/api.js:96-102 | parsing two runs of lines gives the comments of the first run, then those of the second |
| Api.ParseAppend | src/utils/api.js:94-103 | parsing keeps line order: the comments of `a + "\n" + b` are those of `a` followed by those of `b` |
| Api.ParseSingleLine | src/utils/api.js:94-103 | content without a line break gives what its one line contributes |
| Api.LineYields | src/utils/api.js:96-102 | a line contributes `x` exactly when it is not blank, cleans to `x`, and `x` is 1..30 code units long |
| Api.ParseLinesMembership | src/utils/api.js:96-102 | a string is among the parsed comments exactly when some line contributes it |
| Api.ParseMembership | src/utils/api.js:94-103 | a string is in the parsed reply exactly when some `\n`-separated line of the content contributes it |
| Api.ParseBlank | src/utils/api.js:96 | empty or whitespace-only content parses to no comments |
| Api.AllBlankParsesEmpty | src/utils/api.js:96 | lines that are all blank give no comments |
| Api.KeptLine | src/utils/api.js:96-102 | a line that does not start with whitespace, and whose marker removal leaves a trimmed comment of the right length, contributes exactly that comment |
| Api.NumberedStrip | src/utils/api.js:101 | `<digits>. x` loses `<digits>. ` |
| Api.NumberedLine | src/utils/api.js:96-102 | `<digits>. x` contributes exactly `x`, for any trimmed single-line `x` of 1..30 UTF-16 code units |
| Api.BulletStrip | src/utils/api.js:101 | `- x` and `• x` lose the bullet and the space |
| Api.BulletLine | src/utils/api.js:96-102 | `- x` and `• x` contribute exactly `x`, for any trimmed single-line `x` of 1..30 UTF-16 code units |
| Api.ParseThreeLines | src/utils/api.js:94-103 | three break-free lines joined by line breaks give each line's contribution, in order |
| Api.ParseMarkedLines | src/utils/api.js:94-103 | a numbered line, a dashed line and a bulleted line parse to their three comments with the markers removed, in order, for any trimmed single-line comments of 1..30 UTF-16 code units (the shape of `"1. Great move!\n- nice\n• wow"`) |
| Api.StylePrompt | src/utils/api.js:61-71 | the funny sentence exactly for `funny`, the critical sentence exactly for `critical`, the standard sentence for every other style |
| Api.BuildPrompt | src/utils/api.js:58-84 | the prompt contains the title, the description, the formatted time, the style sentence, and the subtitles, or `无可用字幕` when they are empty |
| Api.Request | src/utils/api.js:12-36 | the request carries the key, the built prompt as the user message, the fixed system prompt, model `gpt-4o`, temperature 0.7, 150 tokens and 5 choices |
| Api.Generate | src/utils/api.js:4-54 | without a key the missing-key error; an API error or a thrown error becomes its message; an empty `choices` list becomes the error of reading its missing first element; the result is `{danmaku}` exactly when there is a key and the endpoint returns at least one choice, and then it is the parse of the first choice's content |
| Api.NoKeyNoRequest | src/utils/api.js:5-8 | without a key the result does not depend on the endpoint: no request is made |
| Api.GeneratedComments | src/utils/api.js:47-50 | every generated comment is trimmed and 1..30 code units long |
| Text.SpaceEnd | src/utils/api.js:101 | the greedy `\s*` from a position: every character it passes is whitespace and it stops at the end or at a non-space |
| Text.Trim | src/utils/api.js:96 | `trim`: the result has no whitespace at either end and is no longer than the input |
| Text.TrimSlice | src/utils/api.js:96 | the trimmed string is the slice of the input between a whitespace prefix and a whitespace suffix; it is empty exactly when the input is all whitespace |
| Text.TrimOfTrimmed | src/utils/api.js:101 | trimming a trimmed string changes nothing |
| Text.Utf16Length | src/utils/api.js:102 | `length` in code units lies between the number of characters and twice that |
| Text.Contains | src/background.js:13-14 | `includes` holds exactly when the substring occurs at some index |
| Text.ContainsPart | src/utils/api.js:73-83 | every piece of a concatenation occurs in it, at the length of the pieces before it |
| Text.Split | src/utils/api.js:96 | `split` on one character gives at least one piece |
| Text.SplitPieces | src/utils/api.js:96 | no piece contains the separator |
| Text.JoinSplit | src/utils/api.js:96 | joining the pieces with the separator gives back the string |
| Text.SplitNoSeparator | src/utils/api.js:96 | a string without the separator is one piece |
| Text.SplitAppend | src/utils/api.js:96 | the pieces of `a + sep + b` are those of `a` followed by those of `b` |
| Text.NatToString | src/utils/api.js:90 | the decimal rendering of a number is at least one digit and starts with 0 only for zero |
| Text.ParseNatToString | src/utils/api.js:90 | the decimal rendering reads back as the number |
| Text.NatToStringParse | src/utils/api.js:90 | a canonical digit string is the rendering of its value |
| Text.NatToStringCanonical | src/utils/api.js:90 | a rendering has no leading zero |
| UrlPattern.RunEnd | src/utils/youtube.js:18 | the greedy `[^stops]+` run: every character it passes is outside the stop set, and it ends at the end of the string or at a stop character |
| UrlPattern.FirstMatchFrom | src/utils/youtube.js:18 | the leftmost match at or after a position, or that there is none |
| UrlPattern.FirstMatch | src/utils/youtube.js:18 | the leftmost match, or none exactly when the expression matches nowhere |
| UrlPattern.Capture | src/utils/youtube.js:18-19 | there is no capture exactly when nothing matches; a capture is non-empty and free of stop characters |
| UrlPattern.CaptureAt | src/utils/youtube.js:18-19 | the capture sits right after the lead and the literal of the leftmost match, and is followed by the end of the URL or by a stop character |
| YouTube.MarkerIsMatch | src/utils/youtube.js:18 | `?v=` or `&v=` followed by something other than `&` is exactly a match of the expression |
| YouTube.CaptureIsId | src/utils/youtube.js:18-19 | the capture is the id at the leftmost marker, with the marker, `v=` and the id occurring together in the URL |
| YouTube.GetVideoId | src/utils/youtube.js:16-20 | null exactly when no marker is followed by an id character; otherwise a non-empty id without `&`, taken at the leftmost marker, with marker, `v=` and id a substring of the URL, followed by `&` or by the end |
| YouTube.FormatTime | src/utils/youtube.js:29-33 | this copy renders the same string as the API module's copy, and it reads back as the seconds |
| YouTube.IsVideoPage | src/utils/youtube.js:36-38 | true exactly when the URL contains `youtube.com/watch` |
| Bilibili.MarkerIsMatch | src/utils/bilibili.js:18 | `/video/` followed by something other than `/` and `?` is exactly a match of the expression |
| Bilibili.CaptureIsId | src/utils/bilibili.js:18-19 | the capture is the id at the leftmost `/video/`, with `/video/` and the id occurring together in the URL |
| Bilibili.GetVideoId | src/utils/bilibili.js:16-20 | null exactly when no `/video/` is followed by an id character; otherwise a non-empty id without `/` or `?`, taken at the leftmost such `/video/`, followed by `/`, `?` or the end of the URL |
| Bilibili.FormatTime | src/utils/bilibili.js:29-33 | this copy renders the same string as the API module's copy, and it reads back as the seconds |
| Bilibili.IsVideoPage | src/utils/bilibili.js:36-38 | true exactly when the URL contains `bilibili.com/video/` |
| Settings.Merge | src/danmaku.js:58 | object spread: each key present in the patch takes that value, every other key keeps the current one |
| Settings.MergeThen | src/danmaku.js:817 | two later spreads equal one spread of the combined patch |
| Settings.MergeIdempotent | src/danmaku.js:817 | spreading the same patch twice changes nothing the second time |
| Background.VideoPlatform | src/background.js:13-20 | YouTube whenever the URL contains `youtube.com/watch`, Bilibili when it contains only `bilibili.com/video/`, none otherwise |
| Background.PageLoaded | src/background.js:11-16 | a platform is announced exactly when the status is `complete`, there is a URL, and it is a video URL |
| Background.SenderTab | src/background.js:43 | the tab id exists, as a condition, exactly when the sender has a tab with a non-zero id |
| Background.StoredPauseAfter | src/background.js:28-107 | setting a tab's entry makes its stored flag that value and leaves every other tab's flag; deleting the entry leaves the tab reported playing and every other tab unchanged |
| Background.SenderPaused | src/background.js:58 | true exactly when the sender's non-zero tab has an entry set to true |
| Background.PauseRegistry.constructor | src/background.js:4 | the registry starts empty |
| Background.PauseRegistry.OnUpdated | src/background.js:10-31 | a completed load of a video URL relays `videoPageLoaded` with the platform and marks the tab playing; any other update changes nothing |
| Background.PauseRegistry.OnRemoved | src/background.js:34-38 | the tab's entry is removed, and every other entry stays as it was |
| Background.PauseRegistry.OnMessage | src/background.js:41-113 | a generation request from a paused tab gets `{paused: true}`, otherwise the generator's result; `videoPaused` and `videoPlayed` set the entry and relay the command when there is a tab, and always reply `paused` or `playing`; `checkPauseState` reports the stored flag, or false; other actions get no reply; only the two pause messages change the registry |
| Background.DefaultsMatchInitialConfig | src/background.js:116-124 | the install-time defaults agree with the content script's initial settings |
| Background.PauseRoundTrip | src/background.js:41-113 | a tab that paused is reported paused and a generation request from it is answered `{paused: true}`; after it plays, or after its tab is removed, it is reported playing |
| Random.Scale | src/danmaku.js:699 | `Math.floor(Math.random() * n)` lies below `n` |
| Random.ScaleReaches | src/danmaku.js:766 | every index below `n` is drawn by some sample |
| Display.TopRange | src/danmaku.js:677-696 | the range starts at 5 and ends at 25 for `quarter`, 50 for `half` and 90 for anything else |
| Display.TopPercent | src/danmaku.js:698-700 | the position lies in the area's range: 5..24 for quarter, 5..49 for half, 5..89 for any other value |
| Display.TopReaches | src/danmaku.js:699 | every position of the range is reachable by some draw |
| Display.RandomColor | src/danmaku.js:755-767 | the colour is one of the seven palette entries |
| Display.ColorReaches | src/danmaku.js:766 | every palette entry is drawn by some sample |
| Display.BatchSize | src/danmaku.js:465-471 | 1, 3 and 5 for low, medium and high; 0 for a key inherited from `Object.prototype`; 1 for anything else |
| Display.DrainCount | src/danmaku.js:471-472 | `splice(0, size)` on a queue of n takes min(size, n) items |
| Display.MakeHandle | src/danmaku.js:626-700 | an element keeps its text and the pause state it was made with, has a palette colour and lies in the top range of the display area it was made under (5..24, 5..49 or 5..89 percent) |
| Display.WellPlacedAppend | src/danmaku.js:705 | adding well-placed elements to well-placed elements keeps all of them well placed |
| Display.Handles | src/danmaku.js:474-476 | one element per text, in order, each well placed, with its text and the pause state |
| Display.HandlesSnoc | src/danmaku.js:474-476 | making one more element appends it after the others |
| Display.PayloadItems | src/danmaku.js:453-455 | an array gives its items; any other value is wrapped as one item |
| Captions.NearbyTexts | src/danmaku.js:262-264 | the filter keeps at most as many texts as there are subtitles |
| Captions.NearbyMembership | src/danmaku.js:262-264 | a text is taken exactly when some subtitle within 30 seconds carries it |
| Captions.NearbyAppend | src/danmaku.js:262-264 | the filter keeps order: texts of earlier subtitles come first |
| Captions.NearbyAllNear | src/danmaku.js:262-264 | when every subtitle is near, all texts are taken, in order |
| Captions.NearbyNoneNear | src/danmaku.js:262-264 | when no subtitle is near, no text is taken |
| Captions.GetVideoContext | src/danmaku.js:248-273 | the context has the page's title, description, the time and the platform, and the nearby texts joined with single spaces; it is empty when no subtitle is near |
| Captions.Recorded | src/danmaku.js:303-313 | a scan records at most one subtitle per text |
| Captions.RecordedTrimmed | src/danmaku.js:303-313 | every recorded subtitle has the scan's time and a non-empty trimmed text |
| Captions.RecordedStep | src/danmaku.js:303-313 | scanning one more text appends its trimmed subtitle when that subtitle is not empty |
| Captions.PushSubtitles | src/danmaku.js:303-313 | the loop appends exactly the recorded subtitles of the texts, in order, to the existing ones |
| Danmaku.DetectPlatform | src/danmaku.js:45-54 | YouTube for a watch URL, Bilibili for a Bilibili video URL that is not one, none otherwise |
| Danmaku.Session.constructor | src/danmaku.js:4-23 | the initial values of every variable |
| Danmaku.Session.AddDanmakuToQueue | src/danmaku.js:452-458 | the items go to the back of the queue, in order; a non-array is one item |
| Danmaku.Session.CreateDanmakuElement | src/danmaku.js:626-752 | with a container and a video an element is made with the current pause state, and it is live when the container is in the document; otherwise nothing happens |
| Danmaku.Session.ShowQueuedDanmaku | src/danmaku.js:461-477 | the first min(batch size, queue length) comments leave the queue and their elements are made, in order; the rest of the queue is kept; nothing happens without a container or with an empty queue |
| Danmaku.Session.CreateAll | src/danmaku.js:474-476 | the loop adds one element per text, in order, and keeps every live element well placed |
| Danmaku.Session.FinishHandle | src/danmaku.js:745-750 | a finished element leaves the document and the others stay, in order |
| Danmaku.Session.HandleTimeUpdate | src/danmaku.js:170-182 | without a video, when disabled, or in the same second nothing changes; otherwise the second is recorded and exactly one drain happens |
| Danmaku.Session.GenerateDanmakuBatch | src/danmaku.js:203-222 | a request is sent exactly when there is a video, generation is enabled and a key is set; it carries the context, the style, the key, a count of 10..20 and the platform |
| Danmaku.Session.StartRandomDanmakuGeneration | src/danmaku.js:185-200 | nothing while generating or paused; otherwise the flag is set, a batch is requested and the re-entry is scheduled 1000..4999 ms later, and nothing else changes |
| Danmaku.Session.OnBatchTimer | src/danmaku.js:196-221 | the re-entry clears the flag before restarting generation; while paused it only clears the flag and the timer; otherwise it sends exactly `generateDanmakuBatch()`'s request and reschedules after `1000 + Scale(delayDraw, 4000)` ms |
| Danmaku.Session.OnGenerateResponse | src/danmaku.js:223-243 | a `{danmaku}` reply goes to the back of the queue, one drain follows and a display interval starts, whatever the pause state; any other reply changes only the count of open requests |
| Danmaku.Session.DisplayTick | src/danmaku.js:233-239 | with a non-empty queue one drain happens; with an empty queue the interval clears itself and nothing else changes |
| Danmaku.Session.HandleVideoPause | src/danmaku.js:770-789 | notifies the background page, sets the pause flag, cancels the timer and clears the generating flag |
| Danmaku.Session.HandleVideoPlay | src/danmaku.js:792-807 | notifies the background page, clears the pause flag and starts generation only when not already generating; a start sends exactly `generateDanmakuBatch()`'s request and schedules the re-entry after `1000 + Scale(delayDraw, 4000)` ms |
| Danmaku.Session.SetAllPaused | src/danmaku.js:821-825 | every live element is paused or played, and the list of elements is unchanged otherwise |
| Danmaku.Session.PauseDanmaku | src/danmaku.js:819-827 | every live element is paused and the session is paused; nothing else changes |
| Danmaku.Session.ResumeDanmaku | src/danmaku.js:828-840 | every live element plays, the session plays and generation restarts unless a batch is generating; a restart sends exactly `generateDanmakuBatch()`'s request and schedules the re-entry after `1000 + Scale(delayDraw, 4000)` ms |
| Danmaku.Session.ConfigUpdated | src/danmaku.js:815-818 | the keys of the update replace the settings; nothing else changes |
| Danmaku.Session.ClearAllDanmaku | src/danmaku.js:846-866 | every comment element leaves the document; the container is not removed |
| Danmaku.Session.SetupDanmakuContainer | src/danmaku.js:95-167 | the container variable is set; an existing container is reused, and a new one enters the document only when the video and the player wrapper both exist |
| Danmaku.Session.Initialize | src/danmaku.js:26-54 | every comment is cleared and the queue, subtitles, time, flags, timer and container variable are reset whatever the page; the platform is detected from the URL; everything else is unchanged |
| Danmaku.Session.Reset | src/danmaku.js:33-42 | the reset values of the variables that `initialize` resets |
| Danmaku.Session.OnStoredConfig | src/danmaku.js:57-80 | the stored keys replace the settings; disabled or without a key it stops there; otherwise the container is set up, the video is recorded, and the pause state is asked for when there is a video |
| Danmaku.Session.OnPauseState | src/danmaku.js:69-90 | the session is paused when the tab or the video is; a missing reply, or a reply that does not report the tab paused while the video reference is null, throws and changes nothing; generation starts only when not paused, and then sends exactly `generateDanmakuBatch()`'s request, schedules the re-entry after `1000 + Scale(delayDraw, 4000)` ms and changes nothing else |
| Danmaku.Session.RecordSubtitles | src/danmaku.js:303-313 | a subtitle scan appends the recorded subtitles of the texts |

## Left out

- DOM construction and styling, the `ResizeObserver`, computed-style logging and the opacity envelope (`src/danmaku.js:104-136`, `src/danmaku.js:632-675`). The container is modelled by two booleans and each comment by a `Handle`.
- The `requestAnimationFrame` delay (`src/danmaku.js:717-751`): the model reads the pause flag when the element is made, not one frame later.
- The comment's travel distance and the 12000 ms duration (`src/danmaku.js:719-732`). They are floating-point values that no decision in the code depends on.
- `createDanmaku`, `applyDanmakuStyle`, `getTransitionDurationInMs` and `animateDanmaku` (`src/danmaku.js:482-624`). Nothing on the live path calls them.
- Subtitle scraping and the two `MutationObserver`s (`src/danmaku.js:276-449`). They are selector plumbing. A scan's texts are the input of `RecordSubtitles`, and the button check and selector fallbacks are not modelled.
- Real timers and intervals. A pending timer is a flag, a display interval is a count, and each firing is a method call (`OnBatchTimer`, `DisplayTick`). The period of a display interval (500–999 ms) is not modelled, because no decision depends on it.
- The order in which callbacks interleave. Each callback is a method, and any order of calls is allowed.
- The `chrome.runtime`, `chrome.tabs` and `chrome.storage` transport, including `chrome.runtime.lastError` logging. Messages are values, and replies are method arguments.
- The `{status: "initialized"}` reply of the `videoPageLoaded` message (`src/danmaku.js:811-814`). The model of the handler is `Initialize`.
- The `count` of a generation request. The code sends it (`src/danmaku.js:210, 220`) but the background page does not pass it on, so the model carries it unused.
- `fetch`, `response.json()` and the HTTP headers (`src/utils/api.js:15-39`). The endpoint is a function from request to `Completion`. A `Thrown` completion stands for any exception inside the `try`.
- The exact message of an exception. An empty `choices` array is given V8's wording.
- The module-export shims (`src/utils/api.js:106-113`).
- The DOM getters `getVideoTitle`, `getVideoDescription` and `getCurrentTime` of the platform utilities. Their values arrive in a `Moment`.
- The presence of `window.youtubeUtils` and `window.bilibiliUtils`. The model assumes both are loaded.
- src/options/options.js and src/popup/popup.js. They are not part of this model.
- Other key types. `config.danmakuFrequency` and `config.danmakuDisplayArea` are strings, and stored values of other types are not modelled.
- Api.StripMarker: its own contract states only that the line gets no longer. Its cases are stated by `Api.StripNumbered`, `Api.StripBullet` and `Api.StripPlain`.
- Captions.Recorded: its own contract states only a length bound. What it records is stated by `Captions.RecordedTrimmed`, `Captions.RecordedStep` and `Captions.PushSubtitles`.
