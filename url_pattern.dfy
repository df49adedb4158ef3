/**
  The shape shared by the two video-id regular expressions,
  `[?&]v=([^&]+)` and `\/video\/([^\/?]+)`: one character from a small set,
  a fixed literal, then a greedy capture of one or more characters outside a
  stop set. `String.prototype.match` without the global flag reports the
  leftmost position where the whole expression matches.
 */
module UrlPattern {
  import opened Wrappers

  /** `[lead]literal([^stops]+)`. */
  datatype Pattern = Pattern(lead: set<char>, literal: string, stops: set<char>)

  /** Where the capture starts for a match at `i`. */
  function CaptureStart(p: Pattern, i: nat): nat
  {
    i + 1 + |p.literal|
  }

  /** The whole expression matches at `i`: the lead, the literal, and at least one capture character. */
  predicate MatchAt(p: Pattern, s: string, i: nat)
  {
    && CaptureStart(p, i) < |s|
    && s[i] in p.lead
    && s[i + 1..CaptureStart(p, i)] == p.literal
    && s[CaptureStart(p, i)] !in p.stops
  }

  /** The end of the greedy `[^stops]+` run that starts at `j`. */
  function RunEnd(s: string, j: nat, stops: set<char>): (r: nat)
    requires j <= |s|
    ensures j <= r <= |s|
    ensures forall k :: j <= k < r ==> s[k] !in stops
    ensures r == |s| || s[r] in stops
    decreases |s| - j
  {
    if j < |s| && s[j] !in stops then RunEnd(s, j + 1, stops) else j
  }

  /** The leftmost match at or after `from`. */
  function FirstMatchFrom(p: Pattern, s: string, from: nat): (r: Option<nat>)
    ensures r.None? ==> forall i: nat :: from <= i ==> !MatchAt(p, s, i)
    ensures r.Some? ==> from <= r.value && MatchAt(p, s, r.value)
    ensures r.Some? ==> forall i: nat :: from <= i < r.value ==> !MatchAt(p, s, i)
    decreases |s| - from
  {
    if |s| <= from then None
    else if MatchAt(p, s, from) then Some(from)
    else FirstMatchFrom(p, s, from + 1)
  }

  /** The leftmost match in `s`. */
  function FirstMatch(p: Pattern, s: string): (r: Option<nat>)
    ensures r.None? <==> forall i: nat :: !MatchAt(p, s, i)
    ensures r.Some? ==> MatchAt(p, s, r.value) && forall i: nat :: i < r.value ==> !MatchAt(p, s, i)
  {
    FirstMatchFrom(p, s, 0)
  }

  /** `match ? match[1] : null`: the capture group of the leftmost match. */
  function Capture(p: Pattern, s: string): (r: Option<string>)
    ensures r.None? <==> forall i: nat :: !MatchAt(p, s, i)
    ensures r.Some? ==> r.value != []
    ensures r.Some? ==> forall k :: 0 <= k < |r.value| ==> r.value[k] !in p.stops
  {
    match FirstMatch(p, s)
    case None => None
    case Some(i) =>
      var j := CaptureStart(p, i);
      var e := RunEnd(s, j, p.stops);
      assert forall k :: 0 <= k < e - j ==> s[j..e][k] == s[j + k];
      Some(s[j..e])
  }

  /**
    A captured id sits right after the lead and the literal of the leftmost
    match, and it is maximal: the URL ends after it or continues with a stop
    character.
   */
  lemma CaptureAt(p: Pattern, s: string)
    requires Capture(p, s).Some?
    ensures var i := FirstMatch(p, s).value; var id := Capture(p, s).value;
      && MatchAt(p, s, i)
      && (forall i': nat :: i' < i ==> !MatchAt(p, s, i'))
      && CaptureStart(p, i) + |id| <= |s|
      && s[i + 1..CaptureStart(p, i)] == p.literal
      && s[CaptureStart(p, i)..CaptureStart(p, i) + |id|] == id
      && (CaptureStart(p, i) + |id| == |s| || s[CaptureStart(p, i) + |id|] in p.stops)
  {
  }
}
