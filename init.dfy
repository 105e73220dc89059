/**
 * The two checks the command-line flow (src/init.ts) applies to its answers before it builds
 * the editor's options: the YouTube URL shape `^(https?\:\/\/)?((www\.)?youtube\.com|youtu\.be)\/.+$`
 * and the end-time check `value - start <= 90`.
 */
module Init {
  import opened Wrappers
  import opened ReelEditor

  const URL_ERROR: string := "Please enter a link to a valid Youtube video"
  const DURATION_ERROR: string := "Total reel duration must be 90 seconds or less"
  const MAX_REEL_SECONDS: int := 90
  const SAVED_REEL_LOCATION: string := "./convertedReel.mp4"

  /** The answer of a prompt's `validate`: `true`, or the message to show. */
  datatype Validation = Accept | Reject(message: string)

  /** The characters `.` does not match in a regular expression without the `s` flag. */
  predicate IsLineTerminator(c: char) {
    c == '\n' || c == '\r' || c == '\U{2028}' || c == '\U{2029}'
  }

  predicate NoLineTerminator(s: string) {
    forall i :: 0 <= i < |s| ==> !IsLineTerminator(s[i])
  }

  /** The alternatives of the optional group `(https?\:\/\/)?`. */
  const SCHEMES: seq<string> := ["https://", "http://", ""]

  /** The alternatives of `((www\.)?youtube\.com|youtu\.be)`. */
  const HOSTS: seq<string> := ["www.youtube.com", "youtube.com", "youtu.be"]

  /** `url` is `scheme`, then `host`, then `/`, then one or more characters other than line terminators. */
  predicate UrlWith(scheme: string, host: string, url: string) {
    var head := scheme + host + "/";
    head <= url && |url| > |head| && NoLineTerminator(url[|head|..])
  }

  /** The language of the URL pattern: one scheme alternative and one host alternative. */
  ghost predicate MatchesUrlPattern(url: string) {
    exists i, j :: 0 <= i < |SCHEMES| && 0 <= j < |HOSTS| && UrlWith(SCHEMES[i], HOSTS[j], url)
  }

  /** The text after an optional `https://` or `http://`. */
  function StripScheme(url: string): (rest: string)
    ensures |rest| <= |url|
  {
    if "https://" <= url then url[8..]
    else if "http://" <= url then url[7..]
    else url
  }

  /** The text after a host alternative and its `/`, if the text starts with one. */
  function StripHost(s: string): (rest: Option<string>)
    ensures rest.Some? ==> |rest.value| + 9 <= |s|
  {
    if "www.youtube.com/" <= s then Some(s[16..])
    else if "youtube.com/" <= s then Some(s[12..])
    else if "youtu.be/" <= s then Some(s[9..])
    else None
  }

  /** `youtubeRegex.test(url)`, reading the pattern left to right. */
  predicate IsYoutubeUrl(url: string)
    ensures IsYoutubeUrl(url) ==> |url| >= 10
  {
    match StripHost(StripScheme(url))
    case None => false
    case Some(path) => |path| >= 1 && NoLineTerminator(path)
  }

  lemma StripSchemeOf(i: nat, rest: string)
    requires i < |SCHEMES|
    requires |rest| >= 1 && (rest[0] == 'w' || rest[0] == 'y')
    ensures StripScheme(SCHEMES[i] + rest) == rest
  {
    var url := SCHEMES[i] + rest;
    if i == 0 {
      assert url[..8] == "https://";
      assert url[8..] == rest;
    } else if i == 1 {
      assert url[4] == ':';
      assert url[..7] == "http://";
      assert url[7..] == rest;
    } else {
      assert url == rest;
      assert url[0] != 'h';
    }
  }

  lemma StripHostOf(j: nat, path: string)
    requires j < |HOSTS|
    ensures StripHost(HOSTS[j] + "/" + path) == Some(path)
  {
    var s := HOSTS[j] + "/" + path;
    if j == 0 {
      assert s[..16] == "www.youtube.com/";
      assert s[16..] == path;
    } else if j == 1 {
      assert s[0] == 'y';
      assert s[..12] == "youtube.com/";
      assert s[12..] == path;
    } else {
      assert s[0] == 'y' && s[5] == '.';
      assert s[..9] == "youtu.be/";
      assert s[9..] == path;
    }
  }

  lemma SchemeOf(url: string) returns (i: nat)
    ensures i < |SCHEMES| && url == SCHEMES[i] + StripScheme(url)
  {
    if "https://" <= url {
      i := 0;
      assert url == url[..8] + url[8..];
    } else if "http://" <= url {
      i := 1;
      assert url == url[..7] + url[7..];
    } else {
      i := 2;
      assert SCHEMES[i] + url == url;
    }
  }

  lemma HostOf(s: string) returns (j: nat)
    requires StripHost(s).Some?
    ensures j < |HOSTS| && s == HOSTS[j] + "/" + StripHost(s).value
  {
    if "www.youtube.com/" <= s {
      j := 0;
      assert s == s[..16] + s[16..];
      assert s[..16] == HOSTS[j] + "/";
    } else if "youtube.com/" <= s {
      j := 1;
      assert s == s[..12] + s[12..];
      assert s[..12] == HOSTS[j] + "/";
    } else {
      j := 2;
      assert s == s[..9] + s[9..];
      assert s[..9] == HOSTS[j] + "/";
    }
  }

  lemma AcceptedUrlMatches(url: string)
    requires IsYoutubeUrl(url)
    ensures MatchesUrlPattern(url)
  {
    var rest := StripScheme(url);
    var i := SchemeOf(url);
    var j := HostOf(rest);
    ShapedUrl(i, j, StripHost(rest).value, url);
  }

  lemma ShapedUrl(i: nat, j: nat, path: string, url: string)
    requires i < |SCHEMES| && j < |HOSTS|
    requires url == SCHEMES[i] + (HOSTS[j] + "/" + path)
    requires |path| >= 1 && NoLineTerminator(path)
    ensures UrlWith(SCHEMES[i], HOSTS[j], url)
  {
    var head := SCHEMES[i] + HOSTS[j] + "/";
    assert url == head + path;
    assert url[|head|..] == path;
  }

  lemma MatchingUrlAccepted(url: string)
    requires MatchesUrlPattern(url)
    ensures IsYoutubeUrl(url)
  {
    var i, j :| 0 <= i < |SCHEMES| && 0 <= j < |HOSTS| && UrlWith(SCHEMES[i], HOSTS[j], url);
    var head := SCHEMES[i] + HOSTS[j] + "/";
    var path := url[|head|..];
    var rest := HOSTS[j] + "/" + path;
    assert url == head + path;
    assert url == SCHEMES[i] + rest;
    assert rest[0] == HOSTS[j][0];
    StripSchemeOf(i, rest);
    StripHostOf(j, path);
  }

  /** The left-to-right reading accepts exactly the language of the pattern. */
  lemma IsYoutubeUrlIff(url: string)
    ensures IsYoutubeUrl(url) <==> MatchesUrlPattern(url)
  {
    if IsYoutubeUrl(url) {
      AcceptedUrlMatches(url);
    }
    if MatchesUrlPattern(url) {
      MatchingUrlAccepted(url);
    }
  }

  /** A scheme alternative, a host alternative, `/` and a one-line path make an accepted URL. */
  lemma AcceptedShape(i: nat, j: nat, path: string)
    requires i < |SCHEMES| && j < |HOSTS|
    requires |path| >= 1 && NoLineTerminator(path)
    ensures IsYoutubeUrl(SCHEMES[i] + (HOSTS[j] + "/" + path))
  {
    StripSchemeOf(i, HOSTS[j] + "/" + path);
    StripHostOf(j, path);
  }

  /** Shapes the pattern accepts: with or without a scheme. */
  lemma AcceptedUrlExamples()
    ensures IsYoutubeUrl("https://youtu.be/x")
    ensures IsYoutubeUrl("youtu.be/x")
  {
    AcceptedShape(0, 2, "x");
    assert SCHEMES[0] + (HOSTS[2] + "/" + "x") == "https://youtu.be/x";
    AcceptedShape(2, 2, "x");
    assert SCHEMES[2] + (HOSTS[2] + "/" + "x") == "youtu.be/x";
  }

  /** Hosts the pattern rejects: it is anchored at the start and case-sensitive. */
  lemma RejectedHostExamples()
    ensures !IsYoutubeUrl("m.youtu.be/a")
    ensures !IsYoutubeUrl("xhttp://youtu.be/a")
    ensures !IsYoutubeUrl("HTTP://youtu.be/a")
  {
    assert "m.youtu.be/a"[0] == 'm';
    assert "xhttp://youtu.be/a"[0] == 'x';
    assert "HTTP://youtu.be/a"[0] == 'H';
  }

  /** Paths the pattern rejects: the `/` and a non-empty path on one line are required. */
  lemma RejectedPathExamples()
    ensures !IsYoutubeUrl("youtube.com")
    ensures !IsYoutubeUrl("youtu.be/")
    ensures !IsYoutubeUrl("youtu.be/a\nb")
  {
    var c := "youtube.com";
    assert c[0] != 'h' && c[0] != 'w';
    assert |c| < 12;
    assert c[5] != '.';
    var d := "youtu.be/";
    assert d[0] != 'h' && d[0] != 'w' && d[5] != 'b';
    assert d[..9] == "youtu.be/" && d[9..] == "";
    var e := "youtu.be/a\nb";
    assert e[0] != 'h' && e[0] != 'w' && e[5] != 'b';
    assert e[..9] == "youtu.be/";
    assert e[9..][1] == '\n';
  }

  /** The URL prompt's `validate`. */
  function ValidateUrl(value: string): (v: Validation)
    ensures v == Accept <==> MatchesUrlPattern(value)
    ensures v.Reject? ==> v.message == URL_ERROR
  {
    IsYoutubeUrlIff(value);
    if IsYoutubeUrl(value) then Accept else Reject(URL_ERROR)
  }

  /** The end prompt's `validate`, given the start answered before it. */
  function ValidateEnd(start: int, value: int): (v: Validation)
    ensures v == Accept <==> value <= start + MAX_REEL_SECONDS
    ensures v.Reject? ==> v.message == DURATION_ERROR
  {
    if value - start <= MAX_REEL_SECONDS then Accept else Reject(DURATION_ERROR)
  }

  /** The options the flow constructs the editor with. */
  function ReelOptions(start: int, end: int): (o: EditorOptions)
    ensures o.savedReelLocation == "./convertedReel.mp4"
    ensures o.trimTimestamp.start == start && o.trimTimestamp.end == end
  {
    EditorOptions(SAVED_REEL_LOCATION, TrimTimestamp(start, end))
  }

  /**
   * An accepted end time gives options whose trim window is at most 90 seconds long. Only
   * the length is checked: an end before the start, or a negative start, is accepted too.
   */
  lemma AcceptedWindow(start: int, end: int)
    ensures ValidateEnd(start, end) == Accept <==>
      ReelOptions(start, end).trimTimestamp.end - ReelOptions(start, end).trimTimestamp.start <= MAX_REEL_SECONDS
    ensures ValidateEnd(start, end).Reject? ==> ValidateEnd(start, end).message == DURATION_ERROR
    ensures ValidateEnd(10, 5) == Accept && ValidateEnd(-5, 60) == Accept && ValidateEnd(0, 91).Reject?
  {
  }

  /**
   * The editor built from the flow's options renders to the saved location followed by the
   * file name; no video name is set in this flow, so that is `./convertedReel.mp4convertedReel.mp4`.
   */
  lemma FlowOutputPath(start: int, end: int)
    ensures var o := ReelOptions(start, end);
      OutputPath(EditorState(o.savedReelLocation, ReelNaming.DEFAULT_FILENAME, start, end, end - start, None)) ==
      "./convertedReel.mp4convertedReel.mp4"
  {
    ReelNaming.FilenameForTitle(ReelNaming.DEFAULT_FILENAME, "");
  }
}
