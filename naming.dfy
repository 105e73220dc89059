/**
 * The reel's output file name (src/editor.ts): the video title is reduced to the characters
 * of the pattern `[\w- ]` (`match(/[\w- ]/g)?.join('')`), its spaces become dashes
 * (`replaceAll(' ', '-')`) and `.mp4` is appended; without a usable title the default name
 * `convertedReel.mp4` stays.
 */
module ReelNaming {
  import opened Wrappers
  import opened Constants

  const MP4_EXTENSION: string := ".mp4"

  /** The name the editor starts with. */
  const DEFAULT_FILENAME: string := DEFAULT_REEL_FILENAME + MP4_EXTENSION

  /** `\w` without the `u` flag: ASCII letters, digits and underscore. */
  predicate IsWordChar(c: char) {
    'A' <= c <= 'Z' || 'a' <= c <= 'z' || '0' <= c <= '9' || c == '_'
  }

  /** The character class `[\w- ]`. */
  predicate IsNameChar(c: char) {
    IsWordChar(c) || c == '-' || c == ' '
  }

  /** A character that can appear in a sanitised name: `[\w-]`. */
  predicate IsSafeChar(c: char) {
    IsWordChar(c) || c == '-'
  }

  /** All matches of `/[\w- ]/g`, joined, in their original order. */
  function KeepNameChars(s: string): (r: string)
    ensures |r| <= |s|
    ensures forall i :: 0 <= i < |r| ==> IsNameChar(r[i])
  {
    if |s| == 0 then []
    else if IsNameChar(s[0]) then [s[0]] + KeepNameChars(s[1..])
    else KeepNameChars(s[1..])
  }

  /** `replaceAll(' ', '-')`. */
  function SpacesToDashes(s: string): (r: string)
    ensures |r| == |s|
    ensures forall i :: 0 <= i < |s| ==> r[i] == (if s[i] == ' ' then '-' else s[i])
  {
    if |s| == 0 then [] else [if s[0] == ' ' then '-' else s[0]] + SpacesToDashes(s[1..])
  }

  /** The base name derived from a video title. */
  function SanitisedName(title: string): (r: string)
    ensures |r| <= |title|
    ensures forall i :: 0 <= i < |r| ==> IsSafeChar(r[i])
  {
    SpacesToDashes(KeepNameChars(title))
  }

  /**
   * The reel file name after `createReel`'s naming step: a non-empty title whose sanitised
   * form is non-empty replaces the current name; otherwise the current name stays.
   */
  function FilenameFor(current: string, videoName: Option<string>): (name: string)
    ensures name == current ||
      (videoName.Some? && SanitisedName(videoName.value) != "" && name == SanitisedName(videoName.value) + MP4_EXTENSION)
  {
    if videoName.Some? && videoName.value != "" && SanitisedName(videoName.value) != "" then
      SanitisedName(videoName.value) + MP4_EXTENSION
    else
      current
  }

  lemma {:induction false} KeepNameCharsConcat(a: string, b: string)
    ensures KeepNameChars(a + b) == KeepNameChars(a) + KeepNameChars(b)
  {
    if a == [] {
      assert a + b == b;
    } else {
      assert (a + b)[1..] == a[1..] + b;
      KeepNameCharsConcat(a[1..], b);
    }
  }

  lemma {:induction false} SpacesToDashesConcat(a: string, b: string)
    ensures SpacesToDashes(a + b) == SpacesToDashes(a) + SpacesToDashes(b)
  {
    var r := SpacesToDashes(a + b);
    assert |r| == |SpacesToDashes(a) + SpacesToDashes(b)|;
    forall i | 0 <= i < |r| ensures r[i] == (SpacesToDashes(a) + SpacesToDashes(b))[i] {
      if i < |a| {
        assert (a + b)[i] == a[i];
      } else {
        assert (a + b)[i] == b[i - |a|];
      }
    }
  }

  /**
   * Sanitising works character by character: the name of a concatenation is the
   * concatenation of the names, so SanitisedName is fixed by SanitisedNameOfChar.
   */
  lemma SanitisedNameConcat(a: string, b: string)
    ensures SanitisedName(a + b) == SanitisedName(a) + SanitisedName(b)
  {
    KeepNameCharsConcat(a, b);
    SpacesToDashesConcat(KeepNameChars(a), KeepNameChars(b));
  }

  /** A single character is kept (a space as a dash) exactly when it is in `[\w- ]`. */
  lemma SanitisedNameOfChar(c: char)
    ensures SanitisedName([c]) == if c == ' ' then "-" else if IsNameChar(c) then [c] else ""
  {
    assert [c][1..] == [];
  }

  /** The sanitised name is empty exactly when the title holds no character of `[\w- ]`. */
  lemma {:induction false} SanitisedNameEmptyIff(title: string)
    ensures SanitisedName(title) == "" <==> forall i :: 0 <= i < |title| ==> !IsNameChar(title[i])
  {
    if title != [] {
      SanitisedNameEmptyIff(title[1..]);
      assert title == [title[0]] + title[1..];
      SanitisedNameConcat([title[0]], title[1..]);
      SanitisedNameOfChar(title[0]);
      assert forall i :: 1 <= i < |title| ==> title[i] == title[1..][i - 1];
    }
  }

  lemma {:induction false} KeepSafeChars(s: string)
    requires forall i :: 0 <= i < |s| ==> IsSafeChar(s[i])
    ensures KeepNameChars(s) == s
  {
    if s != [] {
      KeepSafeChars(s[1..]);
      assert s == [s[0]] + s[1..];
    }
  }

  lemma NoSpacesUnchanged(s: string)
    requires forall i :: 0 <= i < |s| ==> s[i] != ' '
    ensures SpacesToDashes(s) == s
  {
  }

  /** Sanitising a sanitised name leaves it unchanged. */
  lemma SanitisedNameIdempotent(title: string)
    ensures SanitisedName(SanitisedName(title)) == SanitisedName(title)
  {
    var r := SanitisedName(title);
    KeepSafeChars(r);
    NoSpacesUnchanged(r);
  }

  /**
   * The file name chosen for a usable title is its sanitised form plus `.mp4`, and that
   * base has no spaces and is no longer than the title; no usable title keeps the name.
   */
  lemma FilenameForTitle(current: string, title: string)
    ensures SanitisedName(title) != "" ==>
      FilenameFor(current, Some(title)) == SanitisedName(title) + MP4_EXTENSION
    ensures SanitisedName(title) == "" ==> FilenameFor(current, Some(title)) == current
    ensures FilenameFor(current, None) == current
    ensures ' ' !in SanitisedName(title) && |SanitisedName(title)| <= |title|
    ensures DEFAULT_FILENAME == "convertedReel.mp4"
  {
  }

  /** `"Go 2!".match(/[\w- ]/g).join('')` is `"Go 2"`. */
  lemma KeepNameCharsExample()
    ensures KeepNameChars("Go 2!") == "Go 2"
    ensures KeepNameChars("!?") == ""
  {
  }

  lemma SpacesToDashesExample()
    ensures SpacesToDashes("Go 2") == "Go-2"
  {
  }

  /** The example title `Go 2!` gives `Go-2`; `!?` gives nothing, so no rename. */
  lemma SanitisedNameExample()
    ensures SanitisedName("Go 2!") == "Go-2"
    ensures SanitisedName("!?") == ""
  {
    KeepNameCharsExample();
    SpacesToDashesExample();
  }
}
