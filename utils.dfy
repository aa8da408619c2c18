/** src/utils.ts: account-id generation, the engagement colour and the per-platform style. */
module Utils {
  import opened Text

  /** Number of decimal digits in a generated account id. */
  const IdLength := 16

  /** The character of decimal digit `d`, as JavaScript writes a number 0-9 when appending it to a string. */
  function DigitChar(d: int): (c: char)
    requires 0 <= d < 10
    ensures '0' <= c <= '9'
    ensures c as int - '0' as int == d
  {
    ('0' as int + d) as char
  }

  /** The digit `Math.floor(x * 10)` for a draw `x` of `Math.random()`. */
  function DrawDigit(x: real): (d: int)
    requires 0.0 <= x < 1.0
    ensures 0 <= d < 10
    ensures d as real <= x * 10.0 < d as real + 1.0
  {
    (x * 10.0).Floor
  }

  /**
   * `getRandomUUID`: appends 16 random decimal digits to an empty string.
   * The values `Math.random()` returns are the parameter `draws`, each in [0, 1).
   */
  method RandomId(draws: seq<real>) returns (s: string)
    requires |draws| == IdLength
    requires forall i :: 0 <= i < |draws| ==> 0.0 <= draws[i] < 1.0
    ensures |s| == IdLength
    ensures forall i :: 0 <= i < |s| ==> '0' <= s[i] <= '9'
    ensures forall i :: 0 <= i < |s| ==> s[i] == DigitChar(DrawDigit(draws[i]))
  {
    s := "";
    for i := 0 to IdLength
      invariant |s| == i
      invariant forall k :: 0 <= k < i ==> s[k] == DigitChar(DrawDigit(draws[k]))
    {
      s := s + [DigitChar(DrawDigit(draws[i]))];
    }
  }

  /** `getEngagementColor`: "success" from 50 up, "warning" from 15 up, "error" below. */
  function EngagementColor(engagement: real): (color: string)
    ensures color == "success" <==> engagement >= 50.0
    ensures color == "warning" <==> 15.0 <= engagement < 50.0
    ensures color == "error" <==> engagement < 15.0
  {
    if engagement >= 50.0 then "success"
    else if engagement >= 15.0 then "warning"
    else "error"
  }

  /** The order of the three colours: error, then warning, then success. */
  function ColorRank(color: string): int {
    if color == "success" then 2 else if color == "warning" then 1 else 0
  }

  /** A higher engagement never gets a lower colour. */
  lemma EngagementColorMonotone(lower: real, higher: real)
    requires lower <= higher
    ensures ColorRank(EngagementColor(lower)) <= ColorRank(EngagementColor(higher))
  {
  }

  /** The colour and icon a platform card is drawn with. */
  datatype Style = Style(color: string, icon: string)

  /** The icon of every platform that is not one of the four known ones. */
  const DefaultIcon := "\U{1F310}"

  /** The platform names `getPlatformStyle` recognises, lower-cased. */
  predicate IsKnownPlatform(lower: string) {
    lower == "twitter" || lower == "instagram" || lower == "youtube" || lower == "tiktok"
  }

  /**
   * `getPlatformStyle`: a fixed style for the four known platforms, matched on the lower-cased name;
   * any other name gets the globe icon and `randomColor`, the colour `getRandomColor` would draw.
   */
  function PlatformStyle(name: string, randomColor: string): (style: Style)
    ensures ToLower(name) == "twitter" ==> style == Style("#1DA1F2", "\U{1D54F}")
    ensures ToLower(name) == "instagram" ==> style == Style("#E1306C", "\U{1F4F7}")
    ensures ToLower(name) == "youtube" ==> style == Style("#FF0000", "\U{25B6}")
    ensures ToLower(name) == "tiktok" ==> style == Style("#000", "\U{266A}")
    ensures style.icon == DefaultIcon <==> !IsKnownPlatform(ToLower(name))
    ensures !IsKnownPlatform(ToLower(name)) ==> style.color == randomColor
  {
    var lower := ToLower(name);
    if lower == "twitter" then Style("#1DA1F2", "\U{1D54F}")
    else if lower == "instagram" then Style("#E1306C", "\U{1F4F7}")
    else if lower == "youtube" then Style("#FF0000", "\U{25B6}")
    else if lower == "tiktok" then Style("#000", "\U{266A}")
    else Style(randomColor, DefaultIcon)
  }

  /** Names that differ only in the case of their letters get the same style. */
  lemma PlatformStyleIgnoresCase(a: string, b: string, randomColor: string)
    requires ToLower(a) == ToLower(b)
    ensures PlatformStyle(a, randomColor) == PlatformStyle(b, randomColor)
  {
  }

  /** "TWITTER" and "TikTok" are recognised, whatever their casing. */
  lemma PlatformStyleExamples(randomColor: string)
    ensures PlatformStyle("TWITTER", randomColor).icon == "\U{1D54F}"
    ensures PlatformStyle("TikTok", randomColor) == Style("#000", "\U{266A}")
    ensures PlatformStyle("LinkedIn", randomColor) == Style(randomColor, DefaultIcon)
  {
    assert ToLower("TWITTER") == "twitter";
    assert ToLower("TikTok") == "tiktok";
    assert ToLower("LinkedIn") == "linkedin";
  }
}
