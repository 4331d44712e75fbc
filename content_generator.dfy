/**
 * YouTube Shorts text rules of `ContentGenerator`: the `#Shorts` marker in titles,
 * descriptions and tags, the default description, and the pattern-based fallback
 * title with its two random picks passed in as indices.
 */
module ContentGenerator {
  import opened Wrappers
  import opened Text

  /** The marker YouTube looks for, compared case-insensitively. */
  const Marker := "#shorts"

  const TitleTag := " #Shorts"
  const DescriptionTags := "\n\n#Shorts #Viral #Trending"
  const DefaultHashtags := "#Shorts #Viral #Trending #AI #Vykso"
  const CallToAction := "\U{1F449} Abonne-toi pour plus de contenu !"
  const DefaultTags: seq<string> := ["Shorts", "AI", "Vykso", "Viral", "Trending"]
  const ClickbaitEmojis: seq<char> := [
    '\U{1F631}', '\U{1F525}', '\U{274C}', '\U{2705}', '\U{1F4B0}', '\U{1F3AF}', '\U{26A1}', '\U{1F680}',
    '\U{1F4A1}', '\U{1F632}', '\U{1F92F}', '\U{1F440}', '\U{2B50}', '\U{1F3C6}', '\U{1F4A5}']

  /** `"#shorts" in text.lower()`. */
  predicate HasMarker(text: string) {
    Contains(Lower(text), Marker)
  }

  /** A text whose suffix holds `#Shorts` at `at` carries the marker. */
  lemma MarkerInSuffixAt(text: string, suffix: string, at: nat)
    requires at + 7 <= |suffix| && suffix[at..at + 7] == "#Shorts"
    ensures HasMarker(text + suffix)
  {
    LowerAppend(text, suffix);
    assert Lower("#Shorts") == Marker;
    assert Lower(suffix)[at..at + 7] == Lower(suffix[at..at + 7]);
    assert OccursAt(Lower(suffix), Marker, at);
    ContainsInSuffix(Lower(text), Lower(suffix), Marker);
  }

  /** A text ending with a lower- or mixed-case `#Shorts` tag carries the marker. */
  lemma MarkerInSuffix(text: string, suffix: string)
    requires suffix in {TitleTag, DescriptionTags, DefaultHashtags, "\n\n#Shorts", "#Shorts"}
    ensures HasMarker(text + suffix)
  {
    if suffix == DescriptionTags {
      assert suffix[2..9] == "#Shorts";
      MarkerInSuffixAt(text, suffix, 2);
    } else if suffix == DefaultHashtags {
      assert suffix[0..7] == "#Shorts";
      MarkerInSuffixAt(text, suffix, 0);
    } else if suffix == TitleTag {
      assert suffix[1..8] == "#Shorts";
      MarkerInSuffixAt(text, suffix, 1);
    } else if suffix == "\n\n#Shorts" {
      assert suffix[2..9] == "#Shorts";
      MarkerInSuffixAt(text, suffix, 2);
    } else {
      assert suffix[0..7] == "#Shorts";
      MarkerInSuffixAt(text, suffix, 0);
    }
  }

  /**
   * The append path shared by titles and descriptions: keep the text if it fits in
   * front of `suffix`, else cut it and add `...`, then append `suffix`.
   */
  function AppendTag(text: string, suffix: string, maxLength: int): (r: string)
    ensures EndsWith(r, suffix)
    ensures |text| + |suffix| <= maxLength ==> r == text + suffix
    ensures maxLength >= |suffix| + 3 && |text| + |suffix| > maxLength ==>
      |r| == maxLength && r == text[..maxLength - |suffix| - 3] + "..." + suffix
  {
    var available := maxLength - |suffix|;
    var body := if |text| > available then SliceTo(text, available - 3) + "..." else text;
    assert (body + suffix)[|body|..] == suffix;
    body + suffix
  }

  /** `_ensure_shorts_tag` as written: a title that already has the marker is only cut to `max_length`. */
  function EnsureShortsTagAsWritten(title: string, maxLength: int): (r: string)
    ensures HasMarker(title) ==> r == SliceTo(title, maxLength)
    ensures !HasMarker(title) ==> EndsWith(r, TitleTag) && HasMarker(r)
    ensures maxLength >= 11 ==> |r| <= maxLength
  {
    if HasMarker(title) then SliceTo(title, maxLength)
    else
      MarkerInSuffix(SliceTo(AppendTag(title, TitleTag, maxLength), |AppendTag(title, TitleTag, maxLength)| - |TitleTag|), TitleTag);
      AppendTag(title, TitleTag, maxLength)
  }

  /** The cut keeps the first eleven characters of a twelve-character title whose marker ends it, and the marker is lost. */
  lemma ShortsTagCutOff()
    ensures HasMarker("best #shorts")
    ensures EnsureShortsTagAsWritten("best #shorts", 11) == "best #short"
    ensures !HasMarker(EnsureShortsTagAsWritten("best #shorts", 11))
  {
    var t := "best #shorts";
    LowerOfLowercase(t);
    assert OccursAt(Lower(t), Marker, 5);
    var r := "best #short";
    assert SliceTo(t, 11) == r;
    NoMarker(r);
  }

  lemma LowerOfLowercase(s: string)
    requires forall i | 0 <= i < |s| :: !('A' <= s[i] <= 'Z')
    ensures Lower(s) == s
  {
  }

  /** "best #short" has no `#shorts` in it: the only `#` is too close to the end. */
  lemma NoMarker(r: string)
    requires r == "best #short"
    ensures !HasMarker(r)
  {
    LowerOfLowercase(r);
    forall i | 0 <= i <= |r| ensures !OccursAt(r, Marker, i) {
      if i + |Marker| <= |r| {
        assert r[i] != '#';
        assert r[i..i + |Marker|][0] == r[i];
      }
    }
  }

  /**
   * `_ensure_shorts_tag` as its docstring intends: a title with the marker is kept
   * only when it fits; any other title takes the append path, so for `max_length >= 11`
   * the result fits and carries the marker.
   */
  function EnsureShortsTag(title: string, maxLength: int): (r: string)
    ensures HasMarker(title) && |title| <= maxLength ==> r == title
    ensures !(HasMarker(title) && |title| <= maxLength) ==> EndsWith(r, TitleTag)
    ensures maxLength >= 11 ==> |r| <= maxLength && HasMarker(r)
    ensures !HasMarker(title) && |title| + |TitleTag| <= maxLength ==> r == title + TitleTag
    ensures maxLength >= 11 && |title| > maxLength - |TitleTag| && !(HasMarker(title) && |title| <= maxLength) ==>
      r == title[..maxLength - 11] + "..." + TitleTag
  {
    if HasMarker(title) && |title| <= maxLength then title
    else
      var r := AppendTag(title, TitleTag, maxLength);
      assert r == r[..|r| - |TitleTag|] + TitleTag;
      MarkerInSuffix(r[..|r| - |TitleTag|], TitleTag);
      r
  }

  /** `_ensure_shorts_in_description` as written: same cut-off with the 26-character hashtag block. */
  function EnsureShortsInDescriptionAsWritten(description: string, maxLength: int): (r: string)
    ensures HasMarker(description) ==> r == SliceTo(description, maxLength)
    ensures !HasMarker(description) ==> EndsWith(r, DescriptionTags) && HasMarker(r)
    ensures maxLength >= 29 ==> |r| <= maxLength
  {
    if HasMarker(description) then SliceTo(description, maxLength)
    else
      var r := AppendTag(description, DescriptionTags, maxLength);
      assert r == r[..|r| - |DescriptionTags|] + DescriptionTags;
      MarkerInSuffix(r[..|r| - |DescriptionTags|], DescriptionTags);
      r
  }

  /** A description whose only marker lies past `max_length` loses it. */
  lemma DescriptionMarkerCutOff()
    ensures HasMarker("best #shorts")
    ensures EnsureShortsInDescriptionAsWritten("best #shorts", 11) == "best #short"
    ensures !HasMarker(EnsureShortsInDescriptionAsWritten("best #shorts", 11))
  {
    ShortsTagCutOff();
    NoMarker("best #short");
  }

  /** `_ensure_shorts_in_description` as intended: for `max_length >= 29` the result fits and carries the marker. */
  function EnsureShortsInDescription(description: string, maxLength: int): (r: string)
    ensures HasMarker(description) && |description| <= maxLength ==> r == description
    ensures !(HasMarker(description) && |description| <= maxLength) ==> EndsWith(r, DescriptionTags)
    ensures maxLength >= 29 ==> |r| <= maxLength && HasMarker(r)
    ensures !HasMarker(description) && |description| + |DescriptionTags| <= maxLength ==> r == description + DescriptionTags
  {
    if HasMarker(description) && |description| <= maxLength then description
    else
      var r := AppendTag(description, DescriptionTags, maxLength);
      assert r == r[..|r| - |DescriptionTags|] + DescriptionTags;
      MarkerInSuffix(r[..|r| - |DescriptionTags|], DescriptionTags);
      r
  }

  /** The marker check is the only thing that separates the two versions: they agree on every text without it. */
  lemma CorrectionOnlyTouchesMarkedTexts(text: string, maxLength: int)
    ensures !HasMarker(text) || |text| <= maxLength ==>
      && EnsureShortsTag(text, maxLength) == EnsureShortsTagAsWritten(text, maxLength)
      && EnsureShortsInDescription(text, maxLength) == EnsureShortsInDescriptionAsWritten(text, maxLength)
  {
  }

  /** The default description: prompt, blank line, call to action, blank line, hashtags. */
  function DefaultDescription(prompt: string): string {
    prompt + "\n\n" + CallToAction + "\n\n" + DefaultHashtags
  }

  /** The default description always carries the marker, in its hashtag block. */
  lemma DefaultDescriptionMarked(prompt: string)
    ensures HasMarker(DefaultDescription(prompt)) && |DefaultDescription(prompt)| >= 29
  {
    var d := DefaultDescription(prompt);
    assert d == (prompt + "\n\n" + CallToAction + "\n\n") + DefaultHashtags;
    MarkerInSuffix(prompt + "\n\n" + CallToAction + "\n\n", DefaultHashtags);
  }

  /**
   * `generate_description`: a non-empty custom text gets the marker rule as written;
   * otherwise the default text, cut to `max_length`.
   */
  function GenerateDescription(prompt: string, customDescription: string, maxLength: int): (r: string)
    ensures customDescription != "" ==> r == EnsureShortsInDescriptionAsWritten(customDescription, maxLength)
    ensures customDescription == "" ==> r == SliceTo(DefaultDescription(prompt), maxLength)
    ensures customDescription == "" && maxLength >= 0 ==> |r| <= maxLength && r == DefaultDescription(prompt)[..|r|]
    ensures maxLength >= 29 ==> |r| <= maxLength
    // the marker survives unless a marked custom text is too long
    ensures customDescription != "" && (!HasMarker(customDescription) || |customDescription| <= maxLength) ==> HasMarker(r)
    ensures customDescription == "" && maxLength >= |DefaultDescription(prompt)| ==> HasMarker(r)
  {
    if customDescription != "" then
      assert HasMarker(customDescription) && |customDescription| <= maxLength ==>
        SliceTo(customDescription, maxLength) == customDescription;
      EnsureShortsInDescriptionAsWritten(customDescription, maxLength)
    else
      var d := DefaultDescription(prompt);
      DefaultDescriptionMarked(prompt);
      assert maxLength >= |d| ==> SliceTo(d, maxLength) == d;
      SliceTo(d, maxLength)
  }

  /**
   * `generate_description` with the intended marker rule: for `max_length` of at least
   * 29 a custom text fits and is marked. It differs from the program only on a marked
   * custom text that is too long.
   */
  function GenerateDescriptionCorrected(prompt: string, customDescription: string, maxLength: int): (r: string)
    ensures customDescription != "" ==> r == EnsureShortsInDescription(customDescription, maxLength)
    ensures customDescription == "" || !HasMarker(customDescription) || |customDescription| <= maxLength ==>
      r == GenerateDescription(prompt, customDescription, maxLength)
    ensures maxLength >= 29 ==> |r| <= maxLength
    ensures customDescription != "" && maxLength >= 29 ==> HasMarker(r)
    ensures maxLength >= |DefaultDescription(prompt)| ==> HasMarker(r)
  {
    DefaultDescriptionMarked(prompt);
    if customDescription != "" then
      CorrectionOnlyTouchesMarkedTexts(customDescription, maxLength);
      EnsureShortsInDescription(customDescription, maxLength)
    else GenerateDescription(prompt, customDescription, maxLength)
  }

  /** A tag list satisfies YouTube's Shorts rule when some tag lower-cases to `shorts`. */
  predicate HasShortsTag(tags: seq<string>) {
    exists i | 0 <= i < |tags| :: Lower(tags[i]) == "shorts"
  }

  /** What `get_default_tags` returns. */
  function TagsFor(customTags: seq<string>): (r: seq<string>)
    ensures customTags == [] ==> r == DefaultTags
    ensures |customTags| <= |r|
    ensures customTags != [] ==> r[|r| - |customTags|..] == customTags && |r| <= |customTags| + 1
  {
    if customTags == [] then DefaultTags
    else if HasShortsTag(customTags) then customTags
    else ["Shorts"] + customTags
  }

  /** The result always carries a Shorts tag, and feeding it back changes nothing. */
  lemma TagsForHasShortsAndIsIdempotent(customTags: seq<string>)
    ensures HasShortsTag(TagsFor(customTags))
    ensures TagsFor(TagsFor(customTags)) == TagsFor(customTags)
    ensures HasShortsTag(customTags) ==> TagsFor(customTags) == customTags
  {
    assert Lower("Shorts") == "shorts";
    var r := TagsFor(customTags);
    if customTags == [] {
      assert Lower(r[0]) == "shorts";
    } else if !HasShortsTag(customTags) {
      assert r[0] == "Shorts";
    }
  }

  /**
   * `get_default_tags`: scan the custom tags for one that lower-cases to `shorts`
   * and put `Shorts` first when none does; an empty or missing list gives the defaults.
   */
  method GetDefaultTags(customTags: seq<string>) returns (tags: seq<string>)
    ensures tags == TagsFor(customTags)
  {
    if |customTags| > 0 {
      tags := customTags;
      var found := false;
      for i := 0 to |tags|
        invariant found <==> exists j | 0 <= j < i :: Lower(tags[j]) == "shorts"
      {
        if tags[i] == "Shorts" || Lower(tags[i]) == "shorts" {
          found := true;
        }
      }
      if !found {
        tags := ["Shorts"] + tags;
      }
    } else {
      tags := DefaultTags;
    }
  }

  /** `check_shorts_tag_present`: the title is never changed; an unmarked pair gets the marker in the description. */
  function CheckShortsTagPresent(title: string, description: string): (r: (string, string))
    ensures r.0 == title
    ensures HasMarker(r.0) || HasMarker(r.1)
    ensures HasMarker(title) || HasMarker(description) ==> r.1 == description
    ensures !HasMarker(title) && !HasMarker(description) ==>
      r.1 == (if description != "" then description + "\n\n#Shorts" else "#Shorts")
  {
    if HasMarker(title) || HasMarker(description) then (title, description)
    else if description != "" then
      MarkerInSuffix(description, "\n\n#Shorts");
      (title, description + "\n\n#Shorts")
    else
      MarkerInSuffix("", "#Shorts");
      assert "" + "#Shorts" == "#Shorts";
      (title, "#Shorts")
  }

  lemma CheckShortsTagPresentIdempotent(title: string, description: string)
    ensures var r := CheckShortsTagPresent(title, description);
      CheckShortsTagPresent(r.0, r.1) == r
  {
  }

  /** The four fallback patterns, for an emoji and a cleaned prompt. */
  function FallbackPattern(emoji: char, clean: string, pattern: nat): string
    requires pattern < 4
  {
    var e := [emoji];
    if pattern == 0 then e + " " + SliceTo(Upper(clean), 30) + " ! (INCROYABLE)"
    else if pattern == 1 then e + " Tu ne vas PAS y croire : " + SliceTo(clean, 40)
    else if pattern == 2 then e + " REGARDE \U{E7}a : " + SliceTo(clean, 45) + " !"
    else e + " " + SliceTo(clean, 50) + " (r\U{E9}sultat FOU)"
  }

  /** With room for more than the tag and its ellipsis, the marker rule keeps the title's first character. */
  lemma EnsureShortsTagKeepsFirst(title: string, maxLength: int)
    requires |title| >= 1 && maxLength >= 12
    ensures |EnsureShortsTag(title, maxLength)| >= 1
    ensures EnsureShortsTag(title, maxLength)[0] == title[0]
  {
    var r := EnsureShortsTag(title, maxLength);
    if !(HasMarker(title) && |title| <= maxLength) {
      if |title| > maxLength - |TitleTag| {
        assert r == title[..maxLength - 11] + "..." + TitleTag;
      } else {
        assert r == title + TitleTag;
      }
    }
  }

  /** The rule as written keeps the first character too: its only other path is a plain cut. */
  lemma EnsureShortsTagAsWrittenKeepsFirst(title: string, maxLength: int)
    requires |title| >= 1 && maxLength >= 12
    ensures |EnsureShortsTagAsWritten(title, maxLength)| >= 1
    ensures EnsureShortsTagAsWritten(title, maxLength)[0] == title[0]
  {
    if HasMarker(title) && |title| > maxLength {
      assert EnsureShortsTagAsWritten(title, maxLength) == title[..maxLength];
    } else {
      CorrectionOnlyTouchesMarkedTexts(title, maxLength);
      EnsureShortsTagKeepsFirst(title, maxLength);
    }
  }

  /** The fallback title before the marker rule: a pattern over `prompt.strip()[:60]`. */
  function FallbackTitle(prompt: string, emojiIndex: nat, pattern: nat): (t: string)
    requires emojiIndex < |ClickbaitEmojis| && pattern < 4
    ensures |t| >= 1 && t[0] == ClickbaitEmojis[emojiIndex]
  {
    FallbackPattern(ClickbaitEmojis[emojiIndex], SliceTo(Strip(prompt), 60), pattern)
  }

  /**
   * `_generate_title_fallback` with its two `random.choice` picks as indices: the
   * pattern title, then the marker rule as written.
   */
  function GenerateTitleFallback(prompt: string, maxLength: int, emojiIndex: nat, pattern: nat): (r: string)
    requires emojiIndex < |ClickbaitEmojis| && pattern < 4
    ensures r == EnsureShortsTagAsWritten(FallbackTitle(prompt, emojiIndex, pattern), maxLength)
    ensures maxLength >= 11 ==> |r| <= maxLength
    ensures maxLength >= 12 ==> r[0] == ClickbaitEmojis[emojiIndex]
    // the marker survives unless the prompt brought one in and the title is too long
    ensures var t := FallbackTitle(prompt, emojiIndex, pattern);
      !HasMarker(t) || |t| <= maxLength ==> HasMarker(r)
  {
    var title := FallbackTitle(prompt, emojiIndex, pattern);
    assert HasMarker(title) && |title| <= maxLength ==> SliceTo(title, maxLength) == title;
    if maxLength >= 12 then
      EnsureShortsTagAsWrittenKeepsFirst(title, maxLength);
      EnsureShortsTagAsWritten(title, maxLength)
    else EnsureShortsTagAsWritten(title, maxLength)
  }

  /**
   * `_generate_title_fallback` with the intended marker rule: for `max_length` of at
   * least 11 the title fits and is marked. It differs from the program only on a
   * marked pattern title that is too long.
   */
  function GenerateTitleFallbackCorrected(prompt: string, maxLength: int, emojiIndex: nat, pattern: nat): (r: string)
    requires emojiIndex < |ClickbaitEmojis| && pattern < 4
    ensures r == EnsureShortsTag(FallbackTitle(prompt, emojiIndex, pattern), maxLength)
    ensures var t := FallbackTitle(prompt, emojiIndex, pattern);
      !HasMarker(t) || |t| <= maxLength ==> r == GenerateTitleFallback(prompt, maxLength, emojiIndex, pattern)
    ensures maxLength >= 11 ==> |r| <= maxLength && HasMarker(r)
    ensures maxLength >= 12 ==> r[0] == ClickbaitEmojis[emojiIndex]
  {
    var title := FallbackTitle(prompt, emojiIndex, pattern);
    CorrectionOnlyTouchesMarkedTexts(title, maxLength);
    if maxLength >= 12 then
      EnsureShortsTagKeepsFirst(title, maxLength);
      EnsureShortsTag(title, maxLength)
    else EnsureShortsTag(title, maxLength)
  }

  /** The title the generator starts from: a non-empty AI title, else the fallback pattern. */
  function ClickbaitSource(prompt: string, aiTitle: Option<string>, emojiIndex: nat, pattern: nat): string
    requires emojiIndex < |ClickbaitEmojis| && pattern < 4
  {
    if aiTitle.Some? && aiTitle.value != "" then aiTitle.value else FallbackTitle(prompt, emojiIndex, pattern)
  }

  /**
   * `generate_clickbait_title`: a non-empty title from the AI client (passed in,
   * `None` when the client is absent or fails) gets the marker rule as written;
   * otherwise the fallback.
   */
  function GenerateClickbaitTitle(prompt: string, aiTitle: Option<string>, maxLength: int, emojiIndex: nat, pattern: nat): (r: string)
    requires emojiIndex < |ClickbaitEmojis| && pattern < 4
    ensures aiTitle.Some? && aiTitle.value != "" ==> r == EnsureShortsTagAsWritten(aiTitle.value, maxLength)
    ensures !(aiTitle.Some? && aiTitle.value != "") ==> r == GenerateTitleFallback(prompt, maxLength, emojiIndex, pattern)
    ensures maxLength >= 11 ==> |r| <= maxLength
    // the marker survives unless the starting title is marked and too long
    ensures var t := ClickbaitSource(prompt, aiTitle, emojiIndex, pattern);
      !HasMarker(t) || |t| <= maxLength ==> HasMarker(r)
  {
    if aiTitle.Some? && aiTitle.value != "" then
      assert HasMarker(aiTitle.value) && |aiTitle.value| <= maxLength ==> SliceTo(aiTitle.value, maxLength) == aiTitle.value;
      EnsureShortsTagAsWritten(aiTitle.value, maxLength)
    else GenerateTitleFallback(prompt, maxLength, emojiIndex, pattern)
  }

  /**
   * `generate_clickbait_title` with the intended marker rule: for `max_length` of at
   * least 11 the title fits and is marked either way. It differs from the program only
   * on a marked starting title that is too long.
   */
  function GenerateClickbaitTitleCorrected(prompt: string, aiTitle: Option<string>, maxLength: int, emojiIndex: nat, pattern: nat)
    : (r: string)
    requires emojiIndex < |ClickbaitEmojis| && pattern < 4
    ensures aiTitle.Some? && aiTitle.value != "" ==> r == EnsureShortsTag(aiTitle.value, maxLength)
    ensures !(aiTitle.Some? && aiTitle.value != "") ==> r == GenerateTitleFallbackCorrected(prompt, maxLength, emojiIndex, pattern)
    ensures var t := ClickbaitSource(prompt, aiTitle, emojiIndex, pattern);
      !HasMarker(t) || |t| <= maxLength ==> r == GenerateClickbaitTitle(prompt, aiTitle, maxLength, emojiIndex, pattern)
    ensures maxLength >= 11 ==> |r| <= maxLength && HasMarker(r)
  {
    if aiTitle.Some? && aiTitle.value != "" then
      CorrectionOnlyTouchesMarkedTexts(aiTitle.value, maxLength);
      EnsureShortsTag(aiTitle.value, maxLength)
    else GenerateTitleFallbackCorrected(prompt, maxLength, emojiIndex, pattern)
  }
}
