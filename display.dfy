/**
  Where and how the content script (src/danmaku.js) shows a comment: the
  vertical range of the display area, the colour palette, how many queued
  comments one drain takes, and the comment elements it makes.
 */
module Display {
  import opened Random

  // ---------------------------------------------------------------------
  // Placement and colour (src/danmaku.js:677-700, 755-767)
  // ---------------------------------------------------------------------

  /** The `switch (config.danmakuDisplayArea)`: `minTop` and `maxTop`, in percent. */
  function TopRange(area: string): (r: (nat, nat))
    ensures r.0 == 5
    ensures area == "quarter" ==> r.1 == 25
    ensures area == "half" ==> r.1 == 50
    ensures area != "quarter" && area != "half" ==> r.1 == 90
  {
    match area
    case "quarter" => (5, 25)
    case "half" => (5, 50)
    case _ => (5, 90)
  }

  /** `Math.floor(Math.random() * (maxTop - minTop)) + minTop`. */
  function TopPercent(area: string, x: Sample): (r: nat)
    ensures TopRange(area).0 <= r < TopRange(area).1
    ensures 5 <= r <= 89
    ensures area == "quarter" ==> r <= 24
    ensures area == "half" ==> r <= 49
  {
    var (lo, hi) := TopRange(area);
    Scale(x, hi - lo) + lo
  }

  /** Every position of the range is reachable: some draw places the comment at `k`. */
  lemma TopReaches(area: string, k: nat)
    requires TopRange(area).0 <= k < TopRange(area).1
    ensures exists x: Sample :: TopPercent(area, x) == k
  {
    var (lo, hi) := TopRange(area);
    ScaleReaches(hi - lo, k - lo);
    var x: Sample := Fraction(k - lo, hi - lo);
    assert TopPercent(area, x) == k;
  }

  const Palette := ["#FFFFFF", "#FF4444", "#44AAFF", "#44FF44", "#FFFF44", "#FF44FF", "#44FFFF"]

  /** `getRandomColor()`: `colors[Math.floor(Math.random() * colors.length)]`. */
  function RandomColor(x: Sample): (r: string)
    ensures r in Palette
  {
    Palette[Scale(x, |Palette|)]
  }

  /** Every palette entry is drawn by some sample. */
  lemma ColorReaches(k: nat)
    requires k < |Palette|
    ensures RandomColor(Fraction(k, |Palette|)) == Palette[k]
  {
    ScaleReaches(|Palette|, k);
  }

  // ---------------------------------------------------------------------
  // The batch size of showQueuedDanmaku (src/danmaku.js:465-472)
  // ---------------------------------------------------------------------

  /**
    Names every plain object inherits from `Object.prototype`. Looked up in
    `batchSizes`, they give a function or an object: truthy, so `|| 1` does
    not apply, and `splice(0, …)` converts it to NaN and removes nothing.
   */
  const PrototypeKeys := {"constructor", "toString", "toLocaleString", "valueOf", "hasOwnProperty",
    "isPrototypeOf", "propertyIsEnumerable", "__proto__", "__defineGetter__", "__defineSetter__",
    "__lookupGetter__", "__lookupSetter__"}

  /** `batchSizes[config.danmakuFrequency] || 1`, as a `splice` count. */
  function BatchSize(frequency: string): (r: nat)
    ensures frequency == "low" ==> r == 1
    ensures frequency == "medium" ==> r == 3
    ensures frequency == "high" ==> r == 5
    ensures frequency in PrototypeKeys ==> r == 0
    ensures frequency !in {"low", "medium", "high"} && frequency !in PrototypeKeys ==> r == 1
  {
    if frequency == "low" then 1
    else if frequency == "medium" then 3
    else if frequency == "high" then 5
    else if frequency in PrototypeKeys then 0
    else 1
  }

  /** How many comments one drain takes from a queue of `n`: `min(batch size, n)`. */
  function DrainCount(frequency: string, n: nat): (r: nat)
    ensures r <= n && r <= BatchSize(frequency)
    ensures r == n || r == BatchSize(frequency)
  {
    if BatchSize(frequency) < n then BatchSize(frequency) else n
  }

  // ---------------------------------------------------------------------
  // Comment elements (src/danmaku.js:626-752)
  // ---------------------------------------------------------------------

  /** A comment element in the document: its text, `top` in percent, colour and whether its animation is paused. */
  datatype Handle = Handle(text: string, top: nat, color: string, paused: bool)

  /** The two `Math.random()` values `createDanmakuElement` draws: the colour first, then the position. */
  datatype Draw = Draw(color: Sample, top: Sample)

  function MakeHandle(text: string, d: Draw, area: string, paused: bool): (h: Handle)
    ensures h.text == text && h.paused == paused
    ensures h.color in Palette && 5 <= h.top <= 89
    ensures TopRange(area).0 <= h.top < TopRange(area).1
  {
    Handle(text, TopPercent(area, d.top), RandomColor(d.color), paused)
  }

  /** Every element shows a palette colour inside the full-screen range. */
  predicate WellPlaced(live: seq<Handle>)
  {
    forall k :: 0 <= k < |live| ==> live[k].color in Palette && 5 <= live[k].top <= 89
  }

  lemma WellPlacedAppend(live: seq<Handle>, more: seq<Handle>)
    requires WellPlaced(live) && WellPlaced(more)
    ensures WellPlaced(live + more)
  {
    forall k | 0 <= k < |live + more| ensures (live + more)[k].color in Palette && 5 <= (live + more)[k].top <= 89 {
      if k >= |live| { assert (live + more)[k] == more[k - |live|]; }
    }
  }

  /** The elements made for `texts`, in order, the k-th with the k-th draw: the comments are shown in queue order. */
  function Handles(texts: seq<string>, draws: seq<Draw>, area: string, paused: bool): (r: seq<Handle>)
    requires |draws| >= |texts|
    ensures |r| == |texts| && WellPlaced(r)
    ensures forall k :: 0 <= k < |r| ==> r[k].text == texts[k] && r[k].paused == paused
  {
    seq(|texts|, k requires 0 <= k < |texts| => MakeHandle(texts[k], draws[k], area, paused))
  }

  /** Making one more element appends it. */
  lemma HandlesSnoc(texts: seq<string>, i: nat, draws: seq<Draw>, area: string, paused: bool)
    requires i < |texts| && |draws| >= |texts|
    ensures Handles(texts[..i + 1], draws, area, paused)
      == Handles(texts[..i], draws, area, paused) + [MakeHandle(texts[i], draws[i], area, paused)]
  {
    assert Handles(texts[..i + 1], draws, area, paused)[..i] == Handles(texts[..i], draws, area, paused);
  }

  /** The argument of `addDanmakuToQueue`: an array, or any other single value. */
  datatype Payload = Items(items: seq<string>) | Single(item: string)

  /** `Array.isArray(list) ? list : [list]`. */
  function PayloadItems(p: Payload): (r: seq<string>)
    ensures p.Items? ==> r == p.items
    ensures p.Single? ==> r == [p.item]
  {
    match p
    case Items(items) => items
    case Single(item) => [item]
  }

}
