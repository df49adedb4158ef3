/**
  The URL helpers of the Bilibili utilities (src/utils/bilibili.js), over the
  page URL as a parameter: the video id taken from the `/video/` path
  segment, the time rendering shared with the API module, and the
  video-page test.
 */
module Bilibili {
  import opened Wrappers
  import opened Text
  import UrlPattern
  import Api

  /** `/\/video\/([^\/?]+)/`. */
  const IdPattern := UrlPattern.Pattern({'/'}, "video/", {'/', '?'})

  const VideoSegment := "/video/"

  /** `/video/` at `i`, followed by a character other than `/` and `?`. */
  predicate MarkerAt(url: string, i: nat)
  {
    && i + 7 < |url|
    && url[i..i + 7] == VideoSegment
    && url[i + 7] != '/' && url[i + 7] != '?'
  }

  lemma MarkerIsMatch(url: string, i: nat)
    ensures MarkerAt(url, i) <==> UrlPattern.MatchAt(IdPattern, url, i)
  {
    if i + 7 < |url| {
      assert url[i..i + 7] == [url[i]] + url[i + 1..i + 7];
    }
  }

  /**
    `id` is the capture of the leftmost `/video/` that is followed by an id
    character, at `i`: `/video/` and the id are a substring of the URL there,
    and the id runs up to the next `/` or `?` or to the end of the URL.
   */
  predicate IdAt(url: string, i: nat, id: string)
  {
    && MarkerAt(url, i)
    && (forall j: nat :: j < i ==> !MarkerAt(url, j))
    && OccursAt(url, VideoSegment + id, i)
    && (i + 7 + |id| == |url| || url[i + 7 + |id|] == '/' || url[i + 7 + |id|] == '?')
  }

  /** The capture of the leftmost match of the expression is an id at that match. */
  lemma CaptureIsId(url: string)
    requires UrlPattern.Capture(IdPattern, url).Some?
    ensures IdAt(url, UrlPattern.FirstMatch(IdPattern, url).value, UrlPattern.Capture(IdPattern, url).value)
  {
    UrlPattern.CaptureAt(IdPattern, url);
    var i := UrlPattern.FirstMatch(IdPattern, url).value;
    var id := UrlPattern.Capture(IdPattern, url).value;
    forall j: nat | j <= i ensures MarkerAt(url, j) <==> UrlPattern.MatchAt(IdPattern, url, j) {
      MarkerIsMatch(url, j);
    }
    OccursConcat(url, VideoSegment, id, i);
  }

  /** `getVideoId()` for the page URL `url`. */
  function GetVideoId(url: string): (r: Option<string>)
    ensures r.None? <==> forall i: nat :: !MarkerAt(url, i)
    ensures r.Some? ==> r.value != [] && '/' !in r.value && '?' !in r.value
    ensures r.Some? ==> exists i: nat :: IdAt(url, i, r.value)
  {
    var r := UrlPattern.Capture(IdPattern, url);
    forall i: nat ensures MarkerAt(url, i) <==> UrlPattern.MatchAt(IdPattern, url, i) {
      MarkerIsMatch(url, i);
    }
    if r.Some? then
      CaptureIsId(url);
      assert forall k :: 0 <= k < |r.value| ==> r.value[k] != '/' && r.value[k] != '?';
      r
    else
      r
  }

  /**
    `formatTime(seconds)`, this file's own copy of the code: it renders the
    same `m:ss` string as the API module's copy, so it has the same two-digit
    seconds field, and reading it back gives the number of seconds.
   */
  function FormatTime(seconds: nat): (r: string)
    ensures r == Api.FormatTime(seconds)
    ensures Api.ParseTime(r) == Some(seconds)
  {
    var minutes := seconds / 60;
    var remaining := seconds % 60;
    var r := NatToString(minutes) + ":" + (if remaining < 10 then "0" else "") + NatToString(remaining);
    assert r == NatToString(minutes) + ":" + ((if remaining < 10 then "0" else "") + NatToString(remaining));
    assert r == Api.FormatTime(seconds);
    Api.ParseFormatTime(seconds);
    r
  }

  const VideoPath := "bilibili.com/video/"

  /** `isBilibiliVideoPage()`: the URL contains `bilibili.com/video/` somewhere. */
  function IsVideoPage(url: string): (r: bool)
    ensures r <==> exists i: nat :: OccursAt(url, VideoPath, i)
  {
    Contains(url, VideoPath)
  }
}
