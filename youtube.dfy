/**
  The URL helpers of the YouTube utilities (src/utils/youtube.js), over the
  page URL as a parameter: the video id taken from the `v` query parameter,
  the time rendering shared with the API module, and the watch-page test.
 */
module YouTube {
  import opened Wrappers
  import opened Text
  import UrlPattern
  import Api

  /** `/[?&]v=([^&]+)/`. */
  const IdPattern := UrlPattern.Pattern({'?', '&'}, "v=", {'&'})

  /** `?v=` or `&v=` at `i`, followed by a character other than `&`. */
  predicate MarkerAt(url: string, i: nat)
  {
    && i + 3 < |url|
    && (url[i] == '?' || url[i] == '&')
    && url[i + 1] == 'v' && url[i + 2] == '='
    && url[i + 3] != '&'
  }

  lemma MarkerIsMatch(url: string, i: nat)
    ensures MarkerAt(url, i) <==> UrlPattern.MatchAt(IdPattern, url, i)
  {
    if i + 3 < |url| {
      assert url[i + 1..i + 3] == [url[i + 1], url[i + 2]];
    }
  }

  /**
    `id` is the capture of the leftmost marker, at `i`: the marker, `v=` and
    the id are a substring of the URL there, and the id runs up to the next
    `&` or to the end of the URL.
   */
  predicate IdAt(url: string, i: nat, id: string)
  {
    && MarkerAt(url, i)
    && (forall j: nat :: j < i ==> !MarkerAt(url, j))
    && OccursAt(url, [url[i]] + "v=" + id, i)
    && (i + 3 + |id| == |url| || url[i + 3 + |id|] == '&')
  }

  /** The capture of the leftmost match of the expression is an id at that match. */
  lemma CaptureIsId(url: string)
    requires UrlPattern.Capture(IdPattern, url).Some?
    ensures IdAt(url, UrlPattern.FirstMatch(IdPattern, url).value, UrlPattern.Capture(IdPattern, url).value)
  {
    UrlPattern.CaptureAt(IdPattern, url);
    var i := UrlPattern.FirstMatch(IdPattern, url).value;
    var id := UrlPattern.Capture(IdPattern, url).value;
    forall j: nat | j <= i ensures MarkerAt(url, j) <==> UrlPattern.MatchAt(IdPattern, url, j) {
      MarkerIsMatch(url, j);
    }
    assert OccursAt(url, [url[i]], i);
    assert OccursAt(url, "v=", i + 1);
    OccursConcat(url, [url[i]], "v=", i);
    OccursConcat(url, [url[i]] + "v=", id, i);
  }

  /** `getVideoId()` for the page URL `url`. */
  function GetVideoId(url: string): (r: Option<string>)
    ensures r.None? <==> forall i: nat :: !MarkerAt(url, i)
    ensures r.Some? ==> r.value != [] && '&' !in r.value
    ensures r.Some? ==> exists i: nat :: IdAt(url, i, r.value)
  {
    var r := UrlPattern.Capture(IdPattern, url);
    forall i: nat ensures MarkerAt(url, i) <==> UrlPattern.MatchAt(IdPattern, url, i) {
      MarkerIsMatch(url, i);
    }
    if r.Some? then
      CaptureIsId(url);
      assert forall k :: 0 <= k < |r.value| ==> r.value[k] != '&';
      r
    else
      r
  }

  /**
    `formatTime(seconds)`, this file's own copy of the code: it renders the
    same `m:ss` string as the API module's copy, so it has the same two-digit
    seconds field, and reading it back gives the number of seconds.
   */
  function FormatTime(seconds: nat): (r: string)
    ensures r == Api.FormatTime(seconds)
    ensures Api.ParseTime(r) == Some(seconds)
  {
    var minutes := seconds / 60;
    var remaining := seconds % 60;
    var r := NatToString(minutes) + ":" + (if remaining < 10 then "0" else "") + NatToString(remaining);
    assert r == NatToString(minutes) + ":" + ((if remaining < 10 then "0" else "") + NatToString(remaining));
    assert r == Api.FormatTime(seconds);
    Api.ParseFormatTime(seconds);
    r
  }

  const WatchPath := "youtube.com/watch"

  /** `isYouTubeVideoPage()`: the URL contains `youtube.com/watch` somewhere. */
  function IsVideoPage(url: string): (r: bool)
    ensures r <==> exists i: nat :: OccursAt(url, WatchPath, i)
  {
    Contains(url, WatchPath)
  }
}
