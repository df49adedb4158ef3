/**
  The subtitle side of the content script (src/danmaku.js): the subtitles a
  scan records, and the video context built from those near the play time.
 */
module Captions {
  import opened Text
  import Settings
  import Api

  // ---------------------------------------------------------------------
  // getVideoContext (src/danmaku.js:248-273)
  // ---------------------------------------------------------------------

  /** One entry of `subtitles`: a caption text and the floored play time it was seen at. */
  datatype Subtitle = Subtitle(text: string, time: int)

  /** `Math.abs(sub.time - currentTime) < 30`. */
  predicate Near(sub: Subtitle, currentTime: int)
  {
    -30 < sub.time - currentTime < 30
  }

  /** `subtitles.filter(near).map(sub => sub.text)`. */
  function NearbyTexts(subs: seq<Subtitle>, currentTime: int): (r: seq<string>)
    ensures |r| <= |subs|
  {
    if subs == [] then []
    else (if Near(subs[0], currentTime) then [subs[0].text] else []) + NearbyTexts(subs[1..], currentTime)
  }

  /** A text is taken exactly when some subtitle within 30 seconds carries it. */
  lemma {:induction false} NearbyMembership(subs: seq<Subtitle>, currentTime: int, x: string)
    ensures x in NearbyTexts(subs, currentTime) <==>
      exists k :: 0 <= k < |subs| && Near(subs[k], currentTime) && subs[k].text == x
  {
    if subs != [] {
      NearbyMembership(subs[1..], currentTime, x);
      if exists k :: 1 <= k < |subs| && Near(subs[k], currentTime) && subs[k].text == x {
        var k :| 1 <= k < |subs| && Near(subs[k], currentTime) && subs[k].text == x;
        assert subs[1..][k - 1] == subs[k];
      }
      if exists k :: 0 <= k < |subs[1..]| && Near(subs[1..][k], currentTime) && subs[1..][k].text == x {
        var k :| 0 <= k < |subs[1..]| && Near(subs[1..][k], currentTime) && subs[1..][k].text == x;
        assert subs[k + 1] == subs[1..][k];
      }
    }
  }

  /** The filter keeps order: the texts of earlier subtitles come first. */
  lemma {:induction false} NearbyAppend(a: seq<Subtitle>, b: seq<Subtitle>, currentTime: int)
    ensures NearbyTexts(a + b, currentTime) == NearbyTexts(a, currentTime) + NearbyTexts(b, currentTime)
  {
    if a == [] {
      assert a + b == b;
    } else {
      var head := if Near(a[0], currentTime) then [a[0].text] else [];
      var rest, tail := NearbyTexts(a[1..], currentTime), NearbyTexts(b, currentTime);
      assert (a + b)[0] == a[0];
      assert (a + b)[1..] == a[1..] + b;
      NearbyAppend(a[1..], b, currentTime);
      assert NearbyTexts(a + b, currentTime) == head + (rest + tail);
      assert head + (rest + tail) == (head + rest) + tail;
    }
  }

  /** When every subtitle is near, every text is taken, in order. */
  lemma {:induction false} NearbyAllNear(subs: seq<Subtitle>, currentTime: int)
    requires forall k :: 0 <= k < |subs| ==> Near(subs[k], currentTime)
    ensures |NearbyTexts(subs, currentTime)| == |subs|
    ensures forall k :: 0 <= k < |subs| ==> NearbyTexts(subs, currentTime)[k] == subs[k].text
  {
    if subs != [] {
      NearbyAllNear(subs[1..], currentTime);
      var rest := NearbyTexts(subs[1..], currentTime);
      assert NearbyTexts(subs, currentTime) == [subs[0].text] + rest;
      forall k | 1 <= k < |subs| ensures NearbyTexts(subs, currentTime)[k] == subs[k].text {
        assert rest[k - 1] == subs[1..][k - 1].text;
      }
    }
  }

  /** With no subtitle near the time, no text is taken. */
  lemma NearbyNoneNear(subs: seq<Subtitle>, currentTime: int)
    ensures (forall k :: 0 <= k < |subs| ==> !Near(subs[k], currentTime)) ==> NearbyTexts(subs, currentTime) == []
  {
    var texts := NearbyTexts(subs, currentTime);
    if texts != [] {
      NearbyMembership(subs, currentTime, texts[0]);
    }
  }

  /** The title and description the platform utilities read, and the floored play time. */
  datatype Moment = Moment(videoTime: nat, title: string, description: string)

  /**
    `getVideoContext(currentTime)`: the page's title and description, the
    time, the platform, and the texts of the subtitles within 30 seconds of
    the time joined with single spaces.
   */
  function GetVideoContext(platform: Settings.Platform, subs: seq<Subtitle>, m: Moment): (c: Api.VideoContext)
    ensures c.title == m.title && c.description == m.description
    ensures c.currentTime == m.videoTime && c.platform == platform
    ensures c.subtitles == Join(NearbyTexts(subs, m.videoTime), " ")
    ensures (forall k :: 0 <= k < |subs| ==> !Near(subs[k], m.videoTime)) ==> c.subtitles == ""
  {
    var texts := NearbyTexts(subs, m.videoTime);
    NearbyNoneNear(subs, m.videoTime);
    Api.VideoContext(m.title, m.description, m.videoTime, Join(texts, " "), platform)
  }

  /** The texts a subtitle scan records, in order: each text trimmed, the empty ones skipped. */
  function Recorded(texts: seq<string>, time: int): (r: seq<Subtitle>)
    ensures |r| <= |texts|
  {
    if texts == [] then []
    else
      var text := Trim(texts[|texts| - 1]);
      Recorded(texts[..|texts| - 1], time) + (if text != "" then [Subtitle(text, time)] else [])
  }

  /** Every recorded subtitle carries the scan's time and a non-empty trimmed text. */
  lemma {:induction false} RecordedTrimmed(texts: seq<string>, time: int)
    ensures forall k :: 0 <= k < |Recorded(texts, time)| ==>
      Recorded(texts, time)[k].time == time && Recorded(texts, time)[k].text != "" && IsTrimmed(Recorded(texts, time)[k].text)
  {
    if texts != [] {
      RecordedTrimmed(texts[..|texts| - 1], time);
    }
  }

  /** Scanning one more text appends its subtitle to what was recorded before, when it is not empty once trimmed. */
  lemma RecordedStep(before: seq<Subtitle>, texts: seq<string>, i: nat, time: int)
    requires i < |texts|
    ensures before + Recorded(texts[..i + 1], time)
      == before + Recorded(texts[..i], time) + (if Trim(texts[i]) != "" then [Subtitle(Trim(texts[i]), time)] else [])
  {
    assert texts[..i + 1][..i] == texts[..i];
  }

  /**
    The `forEach` of a subtitle scan: each text is trimmed and, when not
    empty, pushed onto `subtitles` with the scan's time.
   */
  method PushSubtitles(subtitles: seq<Subtitle>, texts: seq<string>, time: int) returns (r: seq<Subtitle>)
    ensures r == subtitles + Recorded(texts, time)
  {
    r := subtitles;
    var i := 0;
    while i < |texts|
      invariant 0 <= i <= |texts|
      invariant r == subtitles + Recorded(texts[..i], time)
    {
      var text := Trim(texts[i]);
      RecordedStep(subtitles, texts, i, time);
      if text != "" {
        r := r + [Subtitle(text, time)];
      }
      i := i + 1;
    }
    assert texts[..|texts|] == texts;
  }
}
