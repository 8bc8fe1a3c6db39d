/** The music player's pure view logic: the `mm:ss` time text, the skip and seek targets, the
    width of the progress bar, the header's metadata fallbacks and the choice of cover art.
    JavaScript numbers are modelled as `real` (NaN and the infinities are not modelled). */
module Player {
  import opened Common
  import Base64

  // ---------------------------------------------------------------- JavaScript arithmetic

  /** `Math.trunc`: rounding toward zero. */
  function Trunc(x: real): (n: int)
    ensures x >= 0.0 ==> n == x.Floor
    ensures x < 0.0 ==> n == -((-x).Floor)
  {
    if x >= 0.0 then x.Floor else -((-x).Floor)
  }

  /** JavaScript's `%` on numbers: the remainder of a division truncated toward zero, so it
      takes the sign of the dividend (unlike Dafny's Euclidean `%`). */
  function JsRem(x: real, y: real): real
    requires y != 0.0
  {
    x - y * (Trunc(x / y) as real)
  }

  // ---------------------------------------------------------------- decimal digits

  function DigitChar(d: nat): (c: char)
    requires d < 10
    ensures '0' <= c <= '9'
  {
    (('0' as int) + d) as char
  }

  /** The decimal numeral of `n`, as `Number.prototype.toString` writes a non-negative
      integer. */
  function NatToString(n: nat): (s: string)
    ensures |s| >= 1
    ensures n < 10 <==> |s| == 1
    ensures IsDigits(s)
    decreases n
  {
    if n < 10 then [DigitChar(n)] else NatToString(n / 10) + [DigitChar(n % 10)]
  }

  /** An integer's numeral, with a leading `-` when it is negative. */
  function IntToString(i: int): (s: string)
    ensures i >= 0 ==> s == NatToString(i)
    ensures i < 0 ==> s == "-" + NatToString(-i)
  {
    if i >= 0 then NatToString(i) else "-" + NatToString(-i)
  }

  predicate IsDigits(s: string)
  {
    forall i :: 0 <= i < |s| ==> '0' <= s[i] <= '9'
  }

  /** The value of a string of decimal digits, the reader's inverse of `NatToString`. */
  function DigitsValue(s: string): nat
    requires IsDigits(s)
    decreases |s|
  {
    if s == [] then 0
    else DigitsValue(s[..|s| - 1]) * 10 + ((s[|s| - 1] as int) - ('0' as int))
  }

  /** Reading a numeral back gives the number. */
  lemma {:induction false} DigitsValueOfNatToString(n: nat)
    ensures DigitsValue(NatToString(n)) == n
    decreases n
  {
    if n >= 10 {
      var s := NatToString(n);
      DigitsValueOfNatToString(n / 10);
      assert s[..|s| - 1] == NatToString(n / 10);
    }
  }

  /** `padStart(2, "0")`: a numeral shorter than two characters gets leading zeros. */
  function Pad2(s: string): (r: string)
    ensures |r| == if |s| < 2 then 2 else |s|
    ensures r[|r| - |s|..] == s
    ensures forall i :: 0 <= i < |r| - |s| ==> r[i] == '0'
    ensures IsDigits(s) ==> IsDigits(r)
  {
    if |s| == 0 then "00" else if |s| == 1 then "0" + s else s
  }

  // ---------------------------------------------------------------- formatTime

  /** `formatTime`: `Math.floor(t / 60)` and `Math.floor(t % 60)`, each written with
      `toString` and padded to two characters, joined by a colon. */
  function FormatTime(t: real): string
  {
    var minutes := (t / 60.0).Floor;
    var seconds := JsRem(t, 60.0).Floor;
    Pad2(IntToString(minutes)) + ":" + Pad2(IntToString(seconds))
  }

  /** The minutes and seconds of a non-negative time: whole minutes, and the whole seconds
      left over, which are below 60. */
  lemma FloorFields(t: real)
    requires t >= 0.0
    ensures (t / 60.0).Floor == t.Floor / 60
    ensures JsRem(t, 60.0).Floor == t.Floor % 60
  {
    var n := t.Floor;
    var q, r := n / 60, n % 60;
    assert n == 60 * q + r;
    assert (q as real) <= t / 60.0 < (q as real) + 1.0;
    assert (t / 60.0).Floor == q;
    assert Trunc(t / 60.0) == q;
    assert (r as real) <= JsRem(t, 60.0) < (r as real) + 1.0;
  }

  /** For a time that is not negative the text is the whole minutes, a colon and the seconds
      within the minute, each at least two digits; the seconds field is exactly two. */
  lemma FormatTimeFields(t: real)
    requires t >= 0.0
    ensures var m, s := t.Floor / 60, t.Floor % 60;
      && 0 <= s < 60 && m * 60 + s == t.Floor
      && FormatTime(t) == Pad2(NatToString(m)) + ":" + Pad2(NatToString(s))
      && |Pad2(NatToString(s))| == 2
  {
    FloorFields(t);
  }

  /** The value of a padded numeral is the number it pads. */
  lemma Pad2Value(n: nat)
    ensures DigitsValue(Pad2(NatToString(n))) == n
  {
    DigitsValueOfNatToString(n);
    if n < 10 {
      var p := Pad2(NatToString(n));
      assert p[..|p| - 1] == "0";
    }
  }

  /** The text for a time whose whole seconds are `m` minutes and `s` seconds. */
  lemma FormatTimeOf(t: real, m: nat, s: nat)
    requires t >= 0.0 && s < 60 && t.Floor == m * 60 + s
    ensures FormatTime(t) == Pad2(NatToString(m)) + ":" + Pad2(NatToString(s))
  {
    FormatTimeFields(t);
    assert t.Floor / 60 == m && t.Floor % 60 == s;
  }

  /** The two fields of `mm:ss` are found again around the third character from the end. */
  lemma JoinFields(mm: string, ss: string)
    requires |ss| == 2
    ensures var text := mm + ":" + ss;
      && text[|text| - 3] == ':' && text[..|text| - 3] == mm && text[|text| - 2..] == ss
  {
    var text := mm + ":" + ss;
    assert text[..|text| - 3] == mm;
    assert text[|text| - 2..] == ss;
  }

  /** The text `mm:ss` for `m` minutes and `s` seconds reads back as `m * 60 + s`. */
  lemma FieldsReadBack(m: nat, s: nat)
    requires s < 60
    ensures var text := Pad2(NatToString(m)) + ":" + Pad2(NatToString(s));
      && |text| >= 5 && text[|text| - 3] == ':'
      && IsDigits(text[..|text| - 3]) && IsDigits(text[|text| - 2..])
      && DigitsValue(text[..|text| - 3]) * 60 + DigitsValue(text[|text| - 2..]) == m * 60 + s
      && DigitsValue(text[|text| - 2..]) < 60
  {
    var mm, ss := Pad2(NatToString(m)), Pad2(NatToString(s));
    JoinFields(mm, ss);
    Pad2Value(m);
    Pad2Value(s);
  }

  /** Reading the text of a non-negative time back: the field before the colon times 60 plus
      the two-digit field after it is the whole number of seconds, and the latter is below 60. */
  lemma FormatTimeReadsBack(t: real)
    requires t >= 0.0
    ensures var text := FormatTime(t);
      && |text| >= 5 && text[|text| - 3] == ':'
      && IsDigits(text[..|text| - 3]) && IsDigits(text[|text| - 2..])
      && DigitsValue(text[..|text| - 3]) * 60 + DigitsValue(text[|text| - 2..]) == t.Floor
      && DigitsValue(text[|text| - 2..]) < 60
  {
    FormatTimeFields(t);
    FieldsReadBack(t.Floor / 60, t.Floor % 60);
  }

  /** The text for `m` minutes and `s` seconds, both below ten. */
  lemma SmallFields(m: nat, s: nat)
    requires m < 10 && s < 10
    ensures Pad2(NatToString(m)) + ":" + Pad2(NatToString(s)) == ['0', DigitChar(m), ':', '0', DigitChar(s)]
  {
  }

  /** The start of the track reads `00:00`. */
  lemma FormatTimeStart()
    ensures FormatTime(0.0) == "00:00"
  {
    FormatTimeOf(0.0, 0, 0);
    SmallFields(0, 0);
  }

  lemma FormatTimeMinuteAndAHalf()
    ensures FormatTime(65.5) == "01:05"
  {
    assert (65.5).Floor == 65;
    FormatTimeOf(65.5, 1, 5);
    SmallFields(1, 5);
  }

  /** An hour is written as sixty minutes: the minutes field is not bounded. */
  lemma FormatTimeHour()
    ensures FormatTime(3600.0) == "60:00"
  {
    FormatTimeOf(3600.0, 60, 0);
    var mm := NatToString(60);
    assert mm == [DigitChar(6), DigitChar(0)];
    assert Pad2(mm) == mm;
    assert Pad2(NatToString(0)) == ['0', DigitChar(0)];
  }

  /** A negative time is not rejected: both fields come out negative, five seconds before the
      start reading `-1:-5`. */
  lemma FormatTimeNegative()
    ensures FormatTime(-5.0) == "-1:-5"
  {
    assert (-5.0 / 60.0).Floor == -1;
    assert Trunc(-5.0 / 60.0) == 0;
    assert JsRem(-5.0, 60.0) == -5.0;
  }

  // ---------------------------------------------------------------- skip and seek

  function Min(x: real, y: real): real { if x <= y then x else y }
  function Max(x: real, y: real): real { if x >= y then x else y }

  /** Ten seconds forward or back. */
  function SkipAmount(forward: bool): real { if forward then 10.0 else -10.0 }

  /** `handleSkip`'s new position: `Math.max(0, Math.min(current ± 10, duration))`. */
  function SkipTarget(current: real, duration: real, forward: bool): (r: real)
    ensures r >= 0.0
    ensures duration >= 0.0 ==> r <= duration
    ensures 0.0 <= current + SkipAmount(forward) <= duration ==> r == current + SkipAmount(forward)
    ensures current + SkipAmount(forward) > duration >= 0.0 ==> r == duration
    ensures current + SkipAmount(forward) < 0.0 ==> r == 0.0
    ensures duration < 0.0 ==> r == 0.0
  {
    Max(0.0, Min(current + SkipAmount(forward), duration))
  }

  /** Skipping forward and then back returns to a position that started at least ten seconds
      from either end. */
  lemma SkipForwardThenBack(current: real, duration: real)
    requires 10.0 <= current && current + 10.0 <= duration
    ensures SkipTarget(SkipTarget(current, duration, true), duration, false) == current
  {
  }

  /** `handleSeek`'s new position: `offsetX / offsetWidth` of the element the click landed on,
      times the duration. That element is the bar, or the played fill or its knob drawn over
      it, so `width` is the hit element's width, not necessarily the bar's. A width of zero
      makes the fraction `NaN` or infinite, and assigning that to `currentTime` throws:
      `None`. The result is not clamped. */
  function SeekTarget(offsetX: real, width: real, duration: real): (r: Option<real>)
    ensures r.None? <==> width == 0.0
    ensures r.Some? ==> r.value * width == offsetX * duration
  {
    if width == 0.0 then None else Some(offsetX / width * duration)
  }

  /** An offset within the hit element's width seeks inside the track: offset zero is the
      start and the full width the end. */
  lemma SeekWithinBar(offsetX: real, width: real, duration: real)
    requires 0.0 <= offsetX <= width && width > 0.0 && duration >= 0.0
    ensures SeekTarget(offsetX, width, duration).Some?
    ensures 0.0 <= SeekTarget(offsetX, width, duration).value <= duration
    ensures SeekTarget(0.0, width, duration) == Some(0.0)
    ensures SeekTarget(width, width, duration) == Some(duration)
  {
    var f := offsetX / width;
    assert 0.0 <= f <= 1.0;
    assert 0.0 <= f * duration <= duration;
  }

  /** Nothing in the formula clamps it: an offset larger than the width gives a position past
      the end. */
  lemma SeekPastBar()
    ensures SeekTarget(150.0, 100.0, 60.0) == Some(90.0)
  {
  }

  // ---------------------------------------------------------------- progress bar

  /** `currentPercentage` as a number: zero while the duration is zero (falsy), otherwise the
      progress as a percentage of the duration. Its `toString` and the `%` suffix are not
      modelled. */
  function CurrentPercentage(progress: real, duration: real): (p: real)
    ensures duration == 0.0 ==> p == 0.0
    ensures duration != 0.0 ==> p * duration == progress * 100.0
  {
    if duration == 0.0 then 0.0 else progress / duration * 100.0
  }

  /** The bar is within 0-100% when the progress is within the track, empty at the start and
      full at the end. */
  lemma PercentageWithinBar(progress: real, duration: real)
    requires duration > 0.0 && 0.0 <= progress <= duration
    ensures 0.0 <= CurrentPercentage(progress, duration) <= 100.0
    ensures CurrentPercentage(0.0, duration) == 0.0
    ensures CurrentPercentage(duration, duration) == 100.0
  {
    var f := progress / duration;
    assert 0.0 <= f <= 1.0;
  }

  // ---------------------------------------------------------------- metadata and cover art

  /** An embedded picture: its MIME type and its bytes. */
  datatype Picture = Picture(format: string, data: seq<u8>)

  /** The `common` tags the player reads; an absent tag is `None`. */
  datatype CommonTags = CommonTags(
    title: Option<string>,
    artist: Option<string>,
    album: Option<string>,
    picture: Option<seq<Picture>>)

  /** `metadata?.common?.<field> || fallback`: an absent or empty tag is falsy. */
  function TagOr(tag: Option<string>, fallback: string): (r: string)
    ensures tag.Some? && tag.value != "" ==> r == tag.value
    ensures tag.None? || tag.value == "" ==> r == fallback
  {
    if tag.Some? && tag.value != "" then tag.value else fallback
  }

  function TitleTag(m: Option<CommonTags>): Option<string>
  {
    if m.Some? then m.value.title else None
  }

  function ArtistTag(m: Option<CommonTags>): Option<string>
  {
    if m.Some? then m.value.artist else None
  }

  function AlbumTag(m: Option<CommonTags>): Option<string>
  {
    if m.Some? then m.value.album else None
  }

  /** The header's title line. */
  function Title(m: Option<CommonTags>): (r: string)
    ensures r != ""
    ensures r == "Unknown Title" <==>
      m.None? || m.value.title.None? || m.value.title.value in {"", "Unknown Title"}
  {
    TagOr(TitleTag(m), "Unknown Title")
  }

  /** The header's artist. */
  function Artist(m: Option<CommonTags>): (r: string)
    ensures r != ""
    ensures r == "Unknown Artist" <==>
      m.None? || m.value.artist.None? || m.value.artist.value in {"", "Unknown Artist"}
  {
    TagOr(ArtistTag(m), "Unknown Artist")
  }

  /** The header's album. */
  function Album(m: Option<CommonTags>): (r: string)
    ensures r != ""
    ensures r == "Unknown Album" <==>
      m.None? || m.value.album.None? || m.value.album.value in {"", "Unknown Album"}
  {
    TagOr(AlbumTag(m), "Unknown Album")
  }

  /** The three fallbacks are independent: each line depends on its own tag only. */
  lemma FallbacksIndependent(m: CommonTags, n: CommonTags)
    ensures m.title == n.title ==> Title(Some(m)) == Title(Some(n))
    ensures m.artist == n.artist ==> Artist(Some(m)) == Artist(Some(n))
    ensures m.album == n.album ==> Album(Some(m)) == Album(Some(n))
  {
  }

  /** What `renderImage` shows: the default artwork or a `data:` URI. */
  datatype CoverArt = DefaultArtwork | DataUri(uri: string)

  function DataUriPrefix(format: string): string
  {
    "data:" + format + ";base64,"
  }

  /** `renderImage`: the first embedded picture as a `data:` URI holding its Base64 encoding;
      the default artwork when there is no metadata, no picture list, an empty one, or when
      the first picture's encoding is the empty string (it holds no bytes). */
  function RenderImage(m: Option<CommonTags>): (art: CoverArt)
    ensures art.DefaultArtwork? <==>
      || m.None? || m.value.picture.None? || |m.value.picture.value| == 0
      || |m.value.picture.value[0].data| == 0
  {
    if m.Some? && m.value.picture.Some? && |m.value.picture.value| > 0 then
      var picture := m.value.picture.value[0];
      var base64 := Base64.Encode(picture.data);
      Base64.EncodeLength(picture.data);
      if base64 != "" then DataUri(DataUriPrefix(picture.format) + base64) else DefaultArtwork
    else DefaultArtwork
  }

  /** The cover art carries the first picture: the URI is the picture's MIME type followed by
      a Base64 text that decodes to exactly the picture's bytes. */
  lemma RenderImageCarriesPicture(m: Option<CommonTags>)
    requires RenderImage(m).DataUri?
    ensures m.Some? && m.value.picture.Some? && |m.value.picture.value| > 0
    ensures var picture := m.value.picture.value[0];
      var prefix := DataUriPrefix(picture.format);
      var uri := RenderImage(m).uri;
      && |prefix| <= |uri| && uri[..|prefix|] == prefix
      && Base64.Decode(uri[|prefix|..]) == Some(picture.data)
  {
    var picture := m.value.picture.value[0];
    var prefix := DataUriPrefix(picture.format);
    var uri := RenderImage(m).uri;
    assert uri == prefix + Base64.Encode(picture.data);
    assert uri[|prefix|..] == Base64.Encode(picture.data);
    Base64.DecodeEncode(picture.data);
  }
}
