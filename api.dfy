/**
  The language-model side of the extension (src/utils/api.js): the prompt
  sent to the chat-completion endpoint, the `m:ss` time rendering, the parser
  that turns the model's reply into comment strings, and the mapping of the
  endpoint's answer to `{danmaku}` or `{error}`. The HTTP exchange itself is a
  function parameter.
 */
module Api {
  import opened Text
  import opened Wrappers
  import Settings

  // ---------------------------------------------------------------------
  // formatTime (src/utils/api.js:87-91; identical copies in the platform utils)
  // ---------------------------------------------------------------------

  /** `formatTime(seconds)`: minutes, a colon, and the remaining seconds padded to two digits. */
  function FormatTime(seconds: nat): (r: string)
    ensures |r| >= 4 && r[|r| - 3] == ':'
    ensures IsCanonical(r[..|r| - 3]) && ParseNat(r[..|r| - 3]) == seconds / 60
    ensures AllDigits(r[|r| - 2..]) && ParseNat(r[|r| - 2..]) == seconds % 60 < 60
  {
    var minutes := seconds / 60;
    var remaining := seconds % 60;
    var m := NatToString(minutes);
    var ss := (if remaining < 10 then "0" else "") + NatToString(remaining);
    var r := m + ":" + ss;
    NatToStringCanonical(minutes);
    ParseNatToString(minutes);
    ParseNatToString(remaining);
    SecondsField(remaining);
    assert r[..|r| - 3] == m && r[|r| - 3] == ':' && r[|r| - 2..] == ss;
    r
  }

  /** The padded seconds field is exactly two digits and reads back as the seconds. */
  lemma SecondsField(remaining: nat)
    requires remaining < 60
    ensures var ss := (if remaining < 10 then "0" else "") + NatToString(remaining);
      |ss| == 2 && AllDigits(ss) && ParseNat(ss) == remaining
  {
    var ss := (if remaining < 10 then "0" else "") + NatToString(remaining);
    if remaining < 10 {
      assert ss == ['0', DigitChar(remaining)];
    } else {
      assert NatToString(remaining) == NatToString(remaining / 10) + [DigitChar(remaining % 10)];
      assert ss == [DigitChar(remaining / 10), DigitChar(remaining % 10)];
    }
    ParseTwo(ss);
  }

  /** The value of a two-digit string. */
  lemma ParseTwo(ss: string)
    requires |ss| == 2 && AllDigits(ss)
    ensures ParseNat(ss) == 10 * DigitValue(ss[0]) + DigitValue(ss[1])
  {
    var first := ss[..1];
    assert ss[..|ss| - 1] == first;
    assert first[..|first| - 1] == [];
    assert ParseNat(first) == DigitValue(ss[0]);
  }

  /** Reads an `m:ss` string back: canonical minutes, a colon, two digits below 60. */
  function ParseTime(s: string): Option<nat>
  {
    if |s| >= 4 && s[|s| - 3] == ':' && IsCanonical(s[..|s| - 3])
       && AllDigits(s[|s| - 2..]) && ParseNat(s[|s| - 2..]) < 60
    then Some(60 * ParseNat(s[..|s| - 3]) + ParseNat(s[|s| - 2..]))
    else None
  }

  /** Reading back a formatted time gives the number of seconds. */
  lemma ParseFormatTime(seconds: nat)
    ensures ParseTime(FormatTime(seconds)) == Some(seconds)
  {
  }

  /** Every `m:ss` string that reads as `seconds` is the formatted `seconds`: the rendering is unique. */
  lemma FormatParseTime(s: string, seconds: nat)
    requires ParseTime(s) == Some(seconds)
    ensures FormatTime(seconds) == s
  {
    var m, ss := s[..|s| - 3], s[|s| - 2..];
    var v := ParseNat(ss);
    assert seconds == 60 * ParseNat(m) + v;
    assert seconds / 60 == ParseNat(m) && seconds % 60 == v;
    NatToStringParse(m);
    var r := FormatTime(seconds);
    assert r[..|r| - 3] == m by {
      NatToStringParse(r[..|r| - 3]);
    }
    assert r[|r| - 2..] == ss by {
      TwoDigitsUnique(r[|r| - 2..], ss);
    }
    assert s == m + [':'] + ss;
    assert r == r[..|r| - 3] + [':'] + r[|r| - 2..];
  }

  /** Two two-digit strings with the same value are equal. */
  lemma TwoDigitsUnique(a: string, b: string)
    requires |a| == 2 && |b| == 2 && AllDigits(a) && AllDigits(b)
    requires ParseNat(a) == ParseNat(b)
    ensures a == b
  {
    ParseTwo(a);
    ParseTwo(b);
  }

  // ---------------------------------------------------------------------
  // parseDanmakuResponse (src/utils/api.js:94-103)
  // ---------------------------------------------------------------------

  predicate IsBullet(c: char)
  {
    c == '-' || c == '•'
  }

  /** The line starts with one or more digits followed by a dot (the anchored alternative `^\d+\.`). */
  predicate HasNumberedPrefix(line: string)
  {
    exists d :: 0 < d < |line| && AllDigits(line[..d]) && line[d] == '.'
  }

  /** Where the match of `^\d+\.\s*` ends, if the line starts with a number and a dot. */
  function NumberedPrefixEnd(line: string): (r: Option<nat>)
    ensures r.Some? ==> r.value <= |line|
  {
    var d := DigitEnd(line, 0);
    if 0 < d < |line| && line[d] == '.' then Some(SpaceEnd(line, d + 1)) else None
  }

  /** The first index at or after `i` that holds `-` or `•`. */
  function FirstBullet(line: string, i: nat): (r: Option<nat>)
    requires i <= |line|
    ensures r.None? ==> forall k :: i <= k < |line| ==> !IsBullet(line[k])
    ensures r.Some? ==> i <= r.value < |line| && IsBullet(line[r.value])
    ensures r.Some? ==> forall k :: i <= k < r.value ==> !IsBullet(line[k])
    decreases |line| - i
  {
    if i == |line| then None
    else if IsBullet(line[i]) then Some(i)
    else FirstBullet(line, i + 1)
  }

  // `line.replace(/^\d+\.\s*|-\s*|•\s*/, '')`: the regular expression is not
  // global, so at most its leftmost match is removed. Only the first
  // alternative is anchored; the other two match anywhere.
  function StripMarker(line: string): (r: string)
    ensures |r| <= |line|
  {
    match NumberedPrefixEnd(line)
    case Some(e) => line[e..]
    case None =>
      match FirstBullet(line, 0)
      case Some(b) => line[..b] + line[SpaceEnd(line, b + 1)..]
      case None => line
  }

  lemma DigitEndAt(line: string, i: nat, d: nat)
    requires i <= d < |line| && !IsDigit(line[d])
    requires forall k :: i <= k < d ==> IsDigit(line[k])
    ensures DigitEnd(line, i) == d
    decreases d - i
  {
    if i < d {
      DigitEndAt(line, i + 1, d);
    }
  }

  lemma NumberedPrefixFound(line: string)
    requires HasNumberedPrefix(line)
    ensures NumberedPrefixEnd(line).Some?
  {
    var d :| 0 < d < |line| && AllDigits(line[..d]) && line[d] == '.';
    assert forall k :: 0 <= k < d ==> IsDigit(line[k]) by {
      forall k | 0 <= k < d ensures IsDigit(line[k]) { assert line[..d][k] == line[k]; }
    }
    DigitEndAt(line, 0, d);
  }

  /** A line that starts with `digits.` loses the digits, the dot and the whitespace after them. */
  lemma StripNumbered(line: string, d: nat)
    requires 0 < d < |line| && AllDigits(line[..d]) && line[d] == '.'
    ensures StripMarker(line) == line[SpaceEnd(line, d + 1)..]
  {
    assert forall k :: 0 <= k < d ==> IsDigit(line[k]) by {
      forall k | 0 <= k < d ensures IsDigit(line[k]) { assert line[..d][k] == line[k]; }
    }
    DigitEndAt(line, 0, d);
  }

  /**
    Without a numbered prefix, the first `-` or `•` anywhere in the line is
    removed with the whitespace that follows it, and nothing else.
   */
  lemma StripBullet(line: string, b: nat)
    requires !HasNumberedPrefix(line)
    requires b < |line| && IsBullet(line[b])
    requires forall k :: 0 <= k < b ==> !IsBullet(line[k])
    ensures StripMarker(line) == line[..b] + line[SpaceEnd(line, b + 1)..]
  {
    NoNumberedPrefixEnd(line);
  }

  /** A line with neither a numbered prefix nor a bullet is left as it is. */
  lemma StripPlain(line: string)
    requires !HasNumberedPrefix(line)
    requires forall k :: 0 <= k < |line| ==> !IsBullet(line[k])
    ensures StripMarker(line) == line
  {
    NoNumberedPrefixEnd(line);
  }

  lemma NoNumberedPrefixEnd(line: string)
    requires !HasNumberedPrefix(line)
    ensures NumberedPrefixEnd(line).None?
  {
    var d := DigitEnd(line, 0);
    if 0 < d < |line| && line[d] == '.' {
      assert AllDigits(line[..d]) by {
        forall k | 0 <= k < d ensures IsDigit(line[..d][k]) { assert line[..d][k] == line[k]; }
      }
      assert false;
    }
  }

  /** `line.trim() !== ''`. */
  predicate IsBlank(line: string)
  {
    Trim(line) == ""
  }

  /** The replacement and the trim applied to each non-blank line. */
  function CleanLine(line: string): (r: string)
    ensures IsTrimmed(r)
  {
    Trim(StripMarker(line))
  }

  /** `line.length > 0 && line.length <= 30`, in UTF-16 code units. */
  predicate InLength(s: string)
  {
    0 < Utf16Length(s) <= 30
  }

  /** Number of lines that are not blank. */
  function CountNonBlank(lines: seq<string>): nat
  {
    if lines == [] then 0
    else (if IsBlank(lines[0]) then 0 else 1) + CountNonBlank(lines[1..])
  }

  /** What one line contributes: nothing if it is blank or its cleaned form has the wrong length. */
  function LineComment(line: string): (r: seq<string>)
    ensures |r| <= (if IsBlank(line) then 0 else 1)
    ensures forall k :: 0 <= k < |r| ==> InLength(r[k]) && IsTrimmed(r[k])
  {
    if IsBlank(line) then []
    else
      var c := CleanLine(line);
      if InLength(c) then [c] else []
  }

  /**
    The filter–map–filter chain over the lines, fused: drop blank lines, clean
    the others, keep those whose length is 1..30.
   */
  function ParseLines(lines: seq<string>): (r: seq<string>)
    ensures forall k :: 0 <= k < |r| ==> InLength(r[k]) && IsTrimmed(r[k])
    ensures |r| <= CountNonBlank(lines) <= |lines|
  {
    if lines == [] then []
    else LineComment(lines[0]) + ParseLines(lines[1..])
  }

  /** `parseDanmakuResponse(content)`. */
  function ParseDanmakuResponse(content: string): (r: seq<string>)
    ensures forall k :: 0 <= k < |r| ==> InLength(r[k]) && IsTrimmed(r[k])
    ensures forall k :: 0 <= k < |r| ==> 1 <= |r[k]| <= 30
    ensures |r| <= CountNonBlank(Split(content, '\n'))
  {
    var r := ParseLines(Split(content, '\n'));
    assert forall k :: 0 <= k < |r| ==> |r[k]| <= Utf16Length(r[k]);
    r
  }

  lemma {:induction false} ParseLinesAppend(a: seq<string>, b: seq<string>)
    ensures ParseLines(a + b) == ParseLines(a) + ParseLines(b)
  {
    if a == [] {
      assert a + b == b;
    } else {
      var ab := a + b;
      assert ab[0] == a[0];
      assert ab[1..] == a[1..] + b;
      ParseLinesAppend(a[1..], b);
      assert ParseLines(ab) == LineComment(a[0]) + ParseLines(ab[1..]);
    }
  }

  /** Parsing is line by line and keeps order: the comments of `a` come before those of `b`. */
  lemma ParseAppend(a: string, b: string)
    ensures ParseDanmakuResponse(a + "\n" + b) == ParseDanmakuResponse(a) + ParseDanmakuResponse(b)
  {
    SplitAppend(a, '\n', b);
    ParseLinesAppend(Split(a, '\n'), Split(b, '\n'));
  }

  /** Content without a line break is one line and gives what that line contributes. */
  lemma ParseSingleLine(line: string)
    requires '\n' !in line
    ensures ParseDanmakuResponse(line) == LineComment(line)
  {
    SplitNoSeparator(line, '\n');
    assert Split(line, '\n')[1..] == [];
    assert ParseDanmakuResponse(line) == ParseLines([line]);
  }

  /** Line `line` contributes the comment `x`. */
  predicate Yields(line: string, x: string)
  {
    x in LineComment(line)
  }

  /** A line contributes `x` exactly when it is not blank, cleans to `x`, and `x` has length 1..30. */
  lemma LineYields(line: string, x: string)
    ensures Yields(line, x) <==> !IsBlank(line) && CleanLine(line) == x && InLength(x)
  {
  }

  /** Some line of `lines` yields `x`. */
  predicate SomeLineYields(lines: seq<string>, x: string)
  {
    exists k :: 0 <= k < |lines| && Yields(lines[k], x)
  }

  /** A comment is in the result exactly when some line yields it. */
  lemma {:induction false} ParseLinesMembership(lines: seq<string>, x: string)
    ensures x in ParseLines(lines) <==> SomeLineYields(lines, x)
  {
    if lines != [] {
      var rest := lines[1..];
      ParseLinesMembership(rest, x);
      assert ParseLines(lines) == LineComment(lines[0]) + ParseLines(rest);
      assert x in ParseLines(lines) <==> Yields(lines[0], x) || x in ParseLines(rest);
      if SomeLineYields(rest, x) {
        var k :| 0 <= k < |rest| && Yields(rest[k], x);
        assert Yields(lines[k + 1], x);
      }
      if SomeLineYields(lines, x) && !Yields(lines[0], x) {
        var k :| 0 <= k < |lines| && Yields(lines[k], x);
        assert k != 0;
        assert Yields(rest[k - 1], x);
      }
    }
  }

  /** A comment is in the parsed reply exactly when some `\n`-separated line of the content yields it. */
  lemma ParseMembership(content: string, x: string)
    ensures x in ParseDanmakuResponse(content) <==> SomeLineYields(Split(content, '\n'), x)
  {
    var lines := Split(content, '\n');
    assert ParseDanmakuResponse(content) == ParseLines(lines);
    ParseLinesMembership(lines, x);
  }

  /** The pieces of an all-whitespace string are all whitespace. */
  lemma {:induction false} SplitAllSpace(s: string, sep: char)
    requires AllSpace(s)
    ensures forall k :: 0 <= k < |Split(s, sep)| ==> AllSpace(Split(s, sep)[k])
  {
    if s != [] {
      assert AllSpace(s[1..]) by {
        forall k | 0 <= k < |s[1..]| ensures IsSpace(s[1..][k]) { assert s[1..][k] == s[k + 1]; }
      }
      SplitAllSpace(s[1..], sep);
      var rest := Split(s[1..], sep);
      if s[0] != sep {
        var first := [s[0]] + rest[0];
        assert AllSpace(first) by {
          forall j | 0 <= j < |first| ensures IsSpace(first[j]) {
            if j > 0 { assert first[j] == rest[0][j - 1]; }
          }
        }
        assert Split(s, sep) == [first] + rest[1..];
      }
    }
  }

  /** Empty or whitespace-only content yields no comments. */
  lemma ParseBlank(content: string)
    requires AllSpace(content)
    ensures ParseDanmakuResponse(content) == []
  {
    SplitAllSpace(content, '\n');
    AllBlankParsesEmpty(Split(content, '\n'));
  }

  lemma {:induction false} AllBlankParsesEmpty(lines: seq<string>)
    requires forall k :: 0 <= k < |lines| ==> IsBlank(lines[k])
    ensures ParseLines(lines) == []
  {
    if lines != [] {
      AllBlankParsesEmpty(lines[1..]);
    }
  }

  /** A line that does not start with a digit has no numbered prefix. */
  lemma NoDigitStart(line: string)
    requires |line| > 0 && !IsDigit(line[0])
    ensures !HasNumberedPrefix(line)
  {
    forall d | 0 < d < |line| ensures !AllDigits(line[..d]) {
      assert line[..d][0] == line[0];
    }
  }

  /** A line kept by the filter whose marker removal leaves a trimmed comment of the right length contributes it. */
  lemma KeptLine(line: string, c: string)
    requires |line| > 0 && !IsSpace(line[0])
    requires StripMarker(line) == c && IsTrimmed(c) && InLength(c)
    ensures LineComment(line) == [c]
  {
    assert !AllSpace(line);
    TrimOfTrimmed(c);
  }

  /** A comment the filter keeps: one line, trimmed, 1..30 UTF-16 code units. */
  predicate ShortComment(x: string)
  {
    InLength(x) && IsTrimmed(x) && '\n' !in x
  }

  /** `<digits>. <x>` loses `<digits>. `. */
  lemma NumberedStrip(n: string, x: string)
    requires |n| >= 1 && AllDigits(n) && x != [] && !IsSpace(x[0])
    ensures StripMarker(n + ". " + x) == x
  {
    var line := n + ". " + x;
    var d := |n|;
    assert line[..d] == n;
    assert line[d] == '.' && line[d + 1] == ' ' && line[d + 2] == x[0];
    StripNumbered(line, d);
    assert SpaceEnd(line, d + 2) == d + 2;
    assert SpaceEnd(line, d + 1) == d + 2;
    assert line[d + 2..] == x;
  }

  /** `<digits>. <x>` contributes `x`. */
  lemma NumberedLine(n: string, x: string)
    requires |n| >= 1 && AllDigits(n) && ShortComment(x)
    ensures LineComment(n + ". " + x) == [x]
  {
    var line := n + ". " + x;
    NumberedStrip(n, x);
    assert line[0] == n[0] && IsDigit(n[0]);
    KeptLine(line, x);
  }

  /** `- <x>` and `• <x>` lose the bullet and the space. */
  lemma BulletStrip(bullet: char, x: string)
    requires IsBullet(bullet) && x != [] && !IsSpace(x[0])
    ensures StripMarker([bullet, ' '] + x) == x
  {
    var line := [bullet, ' '] + x;
    assert line[2] == x[0];
    assert line[2..] == x;
    NoDigitStart(line);
    StripBullet(line, 0);
    assert SpaceEnd(line, 1) == 2;
    assert line[..0] + line[2..] == x;
  }

  /** `- <x>` and `• <x>` contribute `x`. */
  lemma BulletLine(bullet: char, x: string)
    requires IsBullet(bullet) && ShortComment(x)
    ensures LineComment([bullet, ' '] + x) == [x]
  {
    BulletStrip(bullet, x);
    KeptLine([bullet, ' '] + x, x);
  }

  lemma ParseLinesOne(w: string)
    ensures ParseLines([w]) == LineComment(w)
  {
    assert [w][1..] == [];
    assert ParseLines([w]) == LineComment([w][0]) + ParseLines([w][1..]);
  }

  lemma ParseLinesThree(x: string, y: string, z: string)
    ensures ParseLines([x, y, z]) == LineComment(x) + LineComment(y) + LineComment(z)
  {
    ThreeItems(x, y, z);
    ParseLinesAppend([x] + [y], [z]);
    ParseLinesAppend([x], [y]);
    ParseLinesOne(x);
    ParseLinesOne(y);
    ParseLinesOne(z);
  }

  lemma SplitThree(x: string, y: string, z: string)
    requires '\n' !in x && '\n' !in y && '\n' !in z
    ensures Split(x + "\n" + y + "\n" + z, '\n') == [x, y, z]
  {
    SplitAppend(x + "\n" + y, '\n', z);
    SplitAppend(x, '\n', y);
    SplitNoSeparator(x, '\n');
    SplitNoSeparator(y, '\n');
    SplitNoSeparator(z, '\n');
  }

  /**
    The answer shape the prompt asks for, with the formatting a model adds
    anyway: a numbered line, a dashed line and a bulleted line give their
    three comments, markers removed, in order.
   */
  lemma ParseMarkedLines(n: string, x: string, y: string, z: string)
    requires |n| >= 1 && AllDigits(n) && '\n' !in n
    requires ShortComment(x) && ShortComment(y) && ShortComment(z)
    ensures ParseDanmakuResponse((n + ". " + x) + "\n" + ("- " + y) + "\n" + ("• " + z)) == [x, y, z]
  {
    var l1, l2, l3 := n + ". " + x, "- " + y, "• " + z;
    NumberedLine(n, x);
    BulletLine('-', y);
    BulletLine('•', z);
    NoBreak(n, ". ", x);
    NoBreak([], "- ", y);
    NoBreak([], "• ", z);
    ParseThreeLines(l1, l2, l3);
    ThreeItems(x, y, z);
  }

  /** A line made of break-free parts around a two-character marker without a break has no break. */
  lemma NoBreak(a: string, marker: string, b: string)
    requires '\n' !in a && '\n' !in b && |marker| == 2 && marker[0] != '\n' && marker[1] != '\n'
    ensures '\n' !in a + marker + b
  {
    var s := a + marker + b;
    forall k | 0 <= k < |s| ensures s[k] != '\n' {
      if k < |a| {
        assert s[k] == a[k];
      } else if k < |a| + 2 {
        assert s[k] == marker[k - |a|];
      } else {
        assert s[k] == b[k - |a| - 2];
      }
    }
  }

  lemma ThreeItems(x: string, y: string, z: string)
    ensures [x] + [y] + [z] == [x, y, z]
  {
    var s := [x] + [y] + [z];
    assert |s| == 3 && s[0] == x && s[1] == y && s[2] == z;
  }

  /** Three lines joined by line breaks give their contributions in order. */
  lemma ParseThreeLines(l1: string, l2: string, l3: string)
    requires '\n' !in l1 && '\n' !in l2 && '\n' !in l3
    ensures ParseDanmakuResponse(l1 + "\n" + l2 + "\n" + l3) == LineComment(l1) + LineComment(l2) + LineComment(l3)
  {
    SplitThree(l1, l2, l3);
    ParseLinesThree(l1, l2, l3);
    assert ParseDanmakuResponse(l1 + "\n" + l2 + "\n" + l3) == ParseLines([l1, l2, l3]);
  }

  // ---------------------------------------------------------------------
  // buildPrompt (src/utils/api.js:58-84)
  // ---------------------------------------------------------------------

  /** What the content script sends as `context` (src/danmaku.js:266-272). */
  datatype VideoContext = VideoContext(
    title: string,
    description: string,
    currentTime: nat,
    subtitles: string,
    platform: Settings.Platform)

  const FunnyPrompt := "生成幽默搞笑的弹幕，可以包含梗和笑点"
  const CriticalPrompt := "生成批判性思考的弹幕，可以质疑或分析视频内容"
  const StandardPrompt := "生成标准的评论弹幕，表达对视频内容的反应和感受"
  const NoSubtitles := "无可用字幕"

  /** The `switch (style)` with its `default` branch. */
  function StylePrompt(style: string): (r: string)
    ensures r == FunnyPrompt <==> style == "funny"
    ensures r == CriticalPrompt <==> style == "critical"
    ensures r == StandardPrompt <==> style != "funny" && style != "critical"
  {
    match style
    case "funny" => FunnyPrompt
    case "critical" => CriticalPrompt
    case _ => StandardPrompt
  }

  /** `subtitles || "无可用字幕"`: the empty string is falsy. */
  function SubtitleText(subtitles: string): string
  {
    if subtitles == "" then NoSubtitles else subtitles
  }

  /** The pieces of the template literal, with its line breaks and four-space indentation. */
  function PromptParts(context: VideoContext, style: string): seq<string>
  {
    [ "\n    视频标题: ", context.title,
      "\n    视频描述: ", context.description,
      "\n    当前时间点: ", FormatTime(context.currentTime),
      "\n    当前内容字幕: ", SubtitleText(context.subtitles),
      "\n    \n    ", StylePrompt(style),
      "\n    \n    请生成5条简短的弹幕（每条不超过20个字），与视频当前内容相关。"
      + "\n    直接输出弹幕内容，每行一条，不要有编号或其他格式。\n  " ]
  }

  /**
    `buildPrompt(context, style)`: the title, the description, the formatted
    time, the subtitles (or the placeholder when there are none) and the style
    instruction all appear in the prompt.
   */
  function BuildPrompt(context: VideoContext, style: string): (r: string)
    ensures Contains(r, context.title) && Contains(r, context.description)
    ensures Contains(r, FormatTime(context.currentTime))
    ensures Contains(r, StylePrompt(style))
    ensures context.subtitles == "" ==> Contains(r, NoSubtitles)
    ensures context.subtitles != "" ==> Contains(r, context.subtitles)
  {
    var parts := PromptParts(context, style);
    ContainsPart(parts, 1);
    ContainsPart(parts, 3);
    ContainsPart(parts, 5);
    ContainsPart(parts, 7);
    ContainsPart(parts, 9);
    Concat(parts)
  }

  // ---------------------------------------------------------------------
  // generateDanmakuWithGPT4o (src/utils/api.js:4-54)
  // ---------------------------------------------------------------------

  const SystemPrompt := "你是一个专门为视频生成有趣弹幕的AI助手。根据视频内容，生成简短、有趣、相关的弹幕评论。每条弹幕应该简短（不超过20个字），符合视频当前内容，并且有趣或有见解。"

  /** The body posted to the chat-completion endpoint, with its bearer key. */
  datatype ChatRequest = ChatRequest(
    apiKey: string,
    model: string,
    system: string,
    user: string,
    maxTokens: nat,
    temperature: real,
    choices: nat)

  /** What the endpoint's answer turns into after `fetch` and `json()`. */
  datatype Completion =
    | ApiError(message: string)      // `data.error` is present
    | Choices(contents: seq<string>) // `data.choices[i].message.content`
    | Thrown(message: string)        // `fetch` or `json()` threw

  /** The result object the function resolves to. */
  datatype GenResult = Danmaku(items: seq<string>) | Error(message: string)

  const MissingKeyMessage := "未提供API密钥"

  /** V8's message for `data.choices[0].message` when `choices` is empty. */
  const NoChoiceMessage := "Cannot read properties of undefined (reading 'message')"

  function Request(context: VideoContext, style: string, apiKey: string): (q: ChatRequest)
    ensures q.apiKey == apiKey && q.user == BuildPrompt(context, style)
    ensures q.model == "gpt-4o" && q.maxTokens == 150 && q.choices == 5
    ensures q.system == SystemPrompt && q.temperature == 0.7
  {
    ChatRequest(apiKey, "gpt-4o", SystemPrompt, BuildPrompt(context, style), 150, 0.7, 5)
  }

  /**
    `generateDanmakuWithGPT4o(context, style, apiKey)` with the endpoint as
    `endpoint`. It never rejects: every failure inside the `try` becomes an
    `{error}` result.
   */
  function Generate(context: VideoContext, style: string, apiKey: string,
                    endpoint: ChatRequest -> Completion): (r: GenResult)
    ensures apiKey == "" ==> r == Error(MissingKeyMessage)
    ensures r.Danmaku? <==>
      apiKey != "" && endpoint(Request(context, style, apiKey)).Choices?
      && |endpoint(Request(context, style, apiKey)).contents| > 0
    ensures r.Danmaku? ==>
      r.items == ParseDanmakuResponse(endpoint(Request(context, style, apiKey)).contents[0])
    ensures apiKey != "" && endpoint(Request(context, style, apiKey)).ApiError? ==>
      r == Error(endpoint(Request(context, style, apiKey)).message)
    ensures apiKey != "" && endpoint(Request(context, style, apiKey)).Thrown? ==>
      r == Error(endpoint(Request(context, style, apiKey)).message)
    ensures apiKey != "" && endpoint(Request(context, style, apiKey)) == Choices([]) ==>
      r == Error(NoChoiceMessage)
  {
    if apiKey == "" then Error(MissingKeyMessage)
    else
      match endpoint(Request(context, style, apiKey))
      case ApiError(message) => Error(message)
      case Thrown(message) => Error(message)
      case Choices(contents) =>
        if |contents| == 0 then Error(NoChoiceMessage)
        else Danmaku(ParseDanmakuResponse(contents[0]))
  }

  /** Without a key no request is made: the result does not depend on the endpoint. */
  lemma NoKeyNoRequest(context: VideoContext, style: string,
                       e1: ChatRequest -> Completion, e2: ChatRequest -> Completion)
    ensures Generate(context, style, "", e1) == Generate(context, style, "", e2)
  {
  }

  /** Every comment the generator yields has length 1..30 and no surrounding whitespace. */
  lemma GeneratedComments(context: VideoContext, style: string, apiKey: string,
                          endpoint: ChatRequest -> Completion)
    ensures var r := Generate(context, style, apiKey, endpoint);
      r.Danmaku? ==> forall k :: 0 <= k < |r.items| ==> InLength(r.items[k]) && IsTrimmed(r.items[k])
  {
  }
}
