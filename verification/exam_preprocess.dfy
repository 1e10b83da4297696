/** The pure core of the exam preprocessing script: recognising a YouTube
    video id in a watch URL, a short link or a bare id, the guard in front of
    the transcript fetch, and the file paths and page text the script writes
    for one (url, quarter, student) triple. */
module ExamPreprocess {
  import opened Wrappers
  import opened Text

  /** Length of a YouTube video id: the `{11}` of both patterns. */
  const IdLength: nat := 11

  /** Literal part of the first pattern, `youtube\.com\/watch\?v=`. */
  const WatchMarker: string := "youtube.com/watch?v="

  /** Literal part of the second pattern, `youtu\.be\/`. */
  const ShortMarker: string := "youtu.be/"

  /** The character class `[a-zA-Z0-9_-]`. */
  predicate IsIdChar(c: char)
  {
    ('a' <= c <= 'z') || ('A' <= c <= 'Z') || ('0' <= c <= '9') || c == '_' || c == '-'
  }

  /** `^[a-zA-Z0-9_-]{11}$`: exactly eleven id characters. */
  predicate IsVideoId(s: string)
  {
    |s| == IdLength && forall i :: 0 <= i < |s| ==> IsIdChar(s[i])
  }

  /** The pattern `marker([a-zA-Z0-9_-]{11})` matches `url` starting at `i`. */
  predicate MatchAt(url: string, marker: string, i: int)
  {
    0 <= i && i + |marker| + IdLength <= |url|
    && url[i..i + |marker|] == marker
    && IsVideoId(url[i + |marker|..i + |marker| + IdLength])
  }

  /** The group the pattern captures when it matches at `i`. */
  function Captured(url: string, marker: string, i: nat): string
    requires i + |marker| + IdLength <= |url|
  {
    url[i + |marker|..i + |marker| + IdLength]
  }

  /** `re.search`: the leftmost position at or after `from` where the pattern
      matches. The search has no end anchor, so what follows the eleven
      captured characters is irrelevant. */
  function FindMatch(url: string, marker: string, from: nat): (r: Option<nat>)
    ensures r.Some? ==> from <= r.value && MatchAt(url, marker, r.value)
    ensures r.Some? ==> forall k :: from <= k < r.value ==> !MatchAt(url, marker, k)
    ensures r.None? ==> forall k :: from <= k ==> !MatchAt(url, marker, k)
    decreases |url| - from
  {
    if from + |marker| + IdLength > |url| then None
    else if MatchAt(url, marker, from) then Some(from)
    else FindMatch(url, marker, from + 1)
  }

  /** `re.search(marker + r'([a-zA-Z0-9_-]{11})', url).group(1)`, or None. */
  function SearchId(url: string, marker: string): (r: Option<string>)
  {
    match FindMatch(url, marker, 0)
    case Some(i) => Some(Captured(url, marker, i))
    case None => None
  }

  /** `extract_video_id`: the watch pattern, then the short-link pattern,
      then the whole input as a bare id; None when none of them applies. */
  function ExtractVideoId(url: string): (r: Option<string>)
    ensures r.Some? ==> IsVideoId(r.value)
    ensures r.None? <==>
      (forall k :: !MatchAt(url, WatchMarker, k)) && (forall k :: !MatchAt(url, ShortMarker, k))
      && !IsVideoId(url)
  {
    var watch := SearchId(url, WatchMarker);
    if watch.Some? then watch
    else
      var short := SearchId(url, ShortMarker);
      if short.Some? then short
      else if IsVideoId(url) then Some(url)
      else None
  }

  /** A bare id is returned as it is. */
  lemma BareIdUnchanged(url: string)
    requires IsVideoId(url)
    ensures ExtractVideoId(url) == Some(url)
  {
    assert FindMatch(url, WatchMarker, 0).None?;
    assert FindMatch(url, ShortMarker, 0).None?;
  }

  /** The result is the eleven characters after the leftmost position where a
      marker is followed by eleven id characters, and the watch form is tried
      first: a short link elsewhere in the same input is then ignored. */
  lemma WatchFormFirst(url: string, i: nat)
    requires MatchAt(url, WatchMarker, i)
    requires forall k :: 0 <= k < i ==> !MatchAt(url, WatchMarker, k)
    ensures ExtractVideoId(url) == Some(url[i + |WatchMarker|..i + |WatchMarker| + IdLength])
  {
    var r := FindMatch(url, WatchMarker, 0);
    assert r == Some(i);
  }

  /** The short-link form applies only when the watch form matches nowhere. */
  lemma ShortFormSecond(url: string, i: nat)
    requires forall k :: !MatchAt(url, WatchMarker, k)
    requires MatchAt(url, ShortMarker, i)
    requires forall k :: 0 <= k < i ==> !MatchAt(url, ShortMarker, k)
    ensures ExtractVideoId(url) == Some(url[i + |ShortMarker|..i + |ShortMarker| + IdLength])
  {
    var r := FindMatch(url, ShortMarker, 0);
    assert r == Some(i);
  }

  /** A URL of the form `prefix + marker + id + rest`, where the marker does
      not start inside `prefix`, yields `id`, whatever `rest` holds (more id
      characters included). */
  lemma WatchUrlYieldsId(prefix: string, id: string, rest: string)
    requires IsVideoId(id)
    requires forall k :: 0 <= k < |prefix| ==> !OccursAt(prefix + WatchMarker, WatchMarker, k)
    ensures ExtractVideoId(prefix + WatchMarker + id + rest) == Some(id)
  {
    var url := prefix + WatchMarker + id + rest;
    var i := |prefix|;
    assert url[i..i + |WatchMarker|] == WatchMarker;
    assert url[i + |WatchMarker|..i + |WatchMarker| + IdLength] == id;
    forall k | 0 <= k < i
      ensures !MatchAt(url, WatchMarker, k)
    {
      assert !OccursAt(prefix + WatchMarker, WatchMarker, k);
      assert url[k..k + |WatchMarker|] == (prefix + WatchMarker)[k..k + |WatchMarker|];
    }
    WatchFormFirst(url, i);
  }

  /** A short link `prefix + "youtu.be/" + id + rest`, with no watch form
      anywhere and the short marker not starting inside `prefix`, yields `id`. */
  lemma ShortUrlYieldsId(prefix: string, id: string, rest: string)
    requires IsVideoId(id)
    requires forall k :: 0 <= k < |prefix| ==> !OccursAt(prefix + ShortMarker, ShortMarker, k)
    requires forall k :: !MatchAt(prefix + ShortMarker + id + rest, WatchMarker, k)
    ensures ExtractVideoId(prefix + ShortMarker + id + rest) == Some(id)
  {
    var url := prefix + ShortMarker + id + rest;
    var i := |prefix|;
    assert url[i..i + |ShortMarker|] == ShortMarker;
    assert url[i + |ShortMarker|..i + |ShortMarker| + IdLength] == id;
    forall k | 0 <= k < i
      ensures !MatchAt(url, ShortMarker, k)
    {
      assert !OccursAt(prefix + ShortMarker, ShortMarker, k);
      assert url[k..k + |ShortMarker|] == (prefix + ShortMarker)[k..k + |ShortMarker|];
    }
    ShortFormSecond(url, i);
  }

  /** The watch marker does not start inside "https://www.". */
  lemma NoWatchMarkerInWww()
    ensures forall k :: 0 <= k < |"https://www."| ==> !OccursAt("https://www." + WatchMarker, WatchMarker, k)
  {
    var prefix := "https://www.";
    var text := prefix + WatchMarker;
    forall k | 0 <= k < |prefix|
      ensures !OccursAt(text, WatchMarker, k)
    {
      assert text[k] == prefix[k] != WatchMarker[0];
      assert k + |WatchMarker| <= |text| ==> text[k..k + |WatchMarker|][0] != WatchMarker[0];
    }
  }

  /** The watch-URL form in the script's usage text,
      https://www.youtube.com/watch?v=dQw4w9WgXcQ. */
  lemma WatchUsageExample()
    ensures ExtractVideoId("https://www." + "youtube.com/watch?v=" + "dQw4w9WgXcQ") == Some("dQw4w9WgXcQ")
  {
    assert IsVideoId("dQw4w9WgXcQ");
    NoWatchMarkerInWww();
    WatchUrlYieldsId("https://www.", "dQw4w9WgXcQ", "");
    assert "https://www." + WatchMarker + "dQw4w9WgXcQ" + "" == "https://www." + "youtube.com/watch?v=" + "dQw4w9WgXcQ";
  }

  /** The short-link form in the script's usage text. */
  lemma ShortUsageExample()
    ensures ExtractVideoId("https://youtu.be/5Bd_onCysfw") == Some("5Bd_onCysfw")
  {
    var prefix := "https://";
    var url := "https://youtu.be/5Bd_onCysfw";
    forall k | 0 <= k < |prefix|
      ensures !OccursAt(prefix + ShortMarker, ShortMarker, k)
    {
      var text := prefix + ShortMarker;
      assert text[k] == prefix[k] != ShortMarker[0];
      assert k + |ShortMarker| <= |text| ==> text[k..k + |ShortMarker|][0] != ShortMarker[0];
    }
    forall k ensures !MatchAt(url, WatchMarker, k) {
      assert |url| < |WatchMarker| + IdLength;
    }
    assert IsVideoId("5Bd_onCysfw");
    assert prefix + ShortMarker + "5Bd_onCysfw" + "" == url;
    ShortUrlYieldsId(prefix, "5Bd_onCysfw", "");
  }

  /** The watch form occurs nowhere in "youtu.be/abc youtu.be/5Bd_onCysfw". */
  lemma NoWatchFormInSkipExample(url: string)
    requires url == "youtu.be/abc youtu.be/5Bd_onCysfw"
    ensures forall k :: !MatchAt(url, WatchMarker, k)
  {
    forall k ensures !MatchAt(url, WatchMarker, k) {
      if 0 <= k <= 3 {
        var window := url[k..k + |WatchMarker|];
        if k == 0 {
          assert window[5] == url[5] != WatchMarker[5];
        } else {
          assert window[0] == url[k] != WatchMarker[0];
        }
      }
    }
  }

  /** In "youtu.be/abc youtu.be/5Bd_onCysfw" the short form does not match
      before the second marker: the first is followed by only three id
      characters. */
  lemma NoEarlyShortFormInSkipExample(url: string)
    requires url == "youtu.be/abc youtu.be/5Bd_onCysfw"
    ensures forall k :: 0 <= k < 13 ==> !MatchAt(url, ShortMarker, k)
  {
    forall k | 0 <= k < 13
      ensures !MatchAt(url, ShortMarker, k)
    {
      if k == 0 {
        assert !IsIdChar(url[12]);
      } else {
        assert url[k] != ShortMarker[0];
      }
    }
  }

  /** The search does not stop at the first marker: when fewer than eleven id
      characters follow it, a later occurrence is used. */
  lemma SearchSkipsShortCapture()
    ensures ExtractVideoId("youtu.be/abc youtu.be/5Bd_onCysfw") == Some("5Bd_onCysfw")
  {
    var url := "youtu.be/abc youtu.be/5Bd_onCysfw";
    NoWatchFormInSkipExample(url);
    NoEarlyShortFormInSkipExample(url);
    assert MatchAt(url, ShortMarker, 13) by {
      assert url[13..13 + |ShortMarker|] == ShortMarker;
      assert url[13 + |ShortMarker|..13 + |ShortMarker| + IdLength] == "5Bd_onCysfw";
    }
    assert Captured(url, ShortMarker, 13) == "5Bd_onCysfw";
    ShortFormSecond(url, 13);
  }

  /** What `fetch_transcript` does before the network call: the id it would
      fetch, or the ValueError it raises when no id can be extracted. */
  function FetchTarget(videoUrl: string): (r: Result<string>)
    ensures r.Ok? <==> ExtractVideoId(videoUrl).Some?
    ensures r.Ok? ==> IsVideoId(r.value) && r == Ok(ExtractVideoId(videoUrl).value)
    ensures r.Err? ==> r.message == "Could not extract video ID from: " + videoUrl
  {
    match ExtractVideoId(videoUrl)
    case Some(id) => Ok(id)
    case None => Err("Could not extract video ID from: " + videoUrl)
  }

  /** A filesystem path as its sequence of components (pathlib's `/`). */
  type Path = seq<string>

  /** The file `save_transcript` writes: `base/transcripts/<quarter>/<slug>.json`. */
  function TranscriptFile(base: Path, quarter: string, studentSlug: string): (p: Path)
  {
    base + ["transcripts", quarter, studentSlug + ".json"]
  }

  /** The file `create_student_page` writes:
      `base/textbook/students/<quarter>/<slug>/<slug>.md`. */
  function StudentPageFile(base: Path, quarter: string, studentSlug: string): (p: Path)
  {
    base + ["textbook", "students", quarter, studentSlug, studentSlug + ".md"]
  }

  /** The site-relative transcript URL written into the page. */
  function TranscriptUrl(quarter: string, studentSlug: string): string
  {
    "/transcripts/" + quarter + "/" + studentSlug + ".json"
  }

  /** The page text: one ExamBrowser embed after two blank lines. */
  function PageContent(videoUrl: string, quarter: string, studentSlug: string): string
  {
    "\n\n{{ExamBrowser:" + videoUrl + " transcript_json:\"" + TranscriptUrl(quarter, studentSlug) + "\" }}\n"
  }

  /** Path components joined with "/". */
  function JoinPath(p: Path): string
  {
    if p == [] then "" else if |p| == 1 then p[0] else p[0] + "/" + JoinPath(p[1..])
  }

  /** The transcript URL in the page names, relative to the base directory,
      exactly the file the transcript was saved to. */
  lemma PageLinksSavedTranscript(base: Path, quarter: string, studentSlug: string)
    ensures |TranscriptFile(base, quarter, studentSlug)| == |base| + 3
    ensures TranscriptFile(base, quarter, studentSlug)[..|base|] == base
    ensures TranscriptUrl(quarter, studentSlug)
         == "/" + JoinPath(TranscriptFile(base, quarter, studentSlug)[|base|..])
  {
    var rel := TranscriptFile(base, quarter, studentSlug)[|base|..];
    assert rel == ["transcripts", quarter, studentSlug + ".json"];
    assert rel[1..] == [quarter, studentSlug + ".json"];
    assert rel[1..][1..] == [studentSlug + ".json"];
    assert JoinPath(rel[1..][1..]) == studentSlug + ".json";
    assert JoinPath(rel[1..]) == quarter + "/" + studentSlug + ".json";
    assert JoinPath(rel) == "transcripts" + "/" + quarter + "/" + studentSlug + ".json";
  }

  /** The page is written under the base directory, in a folder named after
      the student, and never onto the transcript file. */
  lemma PageFileLayout(base: Path, quarter: string, studentSlug: string)
    ensures |StudentPageFile(base, quarter, studentSlug)| == |base| + 5
    ensures StudentPageFile(base, quarter, studentSlug)[..|base|] == base
    ensures StudentPageFile(base, quarter, studentSlug)[|base| + 3] == studentSlug
    ensures StudentPageFile(base, quarter, studentSlug) != TranscriptFile(base, quarter, studentSlug)
  {
    assert StudentPageFile(base, quarter, studentSlug)[|base|] == "textbook";
    assert TranscriptFile(base, quarter, studentSlug)[|base|] == "transcripts";
  }

  /** The page text names the video URL it was built from: two pages for the
      same student agree only when they embed the same video. */
  lemma {:induction false} PageContentDeterminesUrl(u1: string, u2: string, quarter: string, studentSlug: string)
    requires PageContent(u1, quarter, studentSlug) == PageContent(u2, quarter, studentSlug)
    ensures u1 == u2
  {
    var head := "\n\n{{ExamBrowser:";
    var tail := " transcript_json:\"" + TranscriptUrl(quarter, studentSlug) + "\" }}\n";
    var p1 := PageContent(u1, quarter, studentSlug);
    assert p1 == head + u1 + tail;
    assert PageContent(u2, quarter, studentSlug) == head + u2 + tail;
    assert |u1| == |u2|;
    assert u1 == p1[|head|..|head| + |u1|];
  }

  /** The page text begins with the embed directive and ends with its closing
      braces and a newline. */
  lemma PageContentShape(videoUrl: string, quarter: string, studentSlug: string)
    ensures StartsWith(PageContent(videoUrl, quarter, studentSlug), "\n\n{{ExamBrowser:" + videoUrl + " ")
    ensures Contains(PageContent(videoUrl, quarter, studentSlug), "transcript_json:\"" + TranscriptUrl(quarter, studentSlug) + "\"")
    ensures var page := PageContent(videoUrl, quarter, studentSlug); |page| >= 4 && page[|page| - 4..] == " }}\n"
  {
    var head := "\n\n{{ExamBrowser:" + videoUrl + " ";
    var link := "transcript_json:\"" + TranscriptUrl(quarter, studentSlug) + "\"";
    var page := PageContent(videoUrl, quarter, studentSlug);
    assert page == head + link + " }}\n";
    assert StartsWith(page, head) by {
      assert page[..|head|] == head;
    }
    ContainsMiddle(head, link, " }}\n");
  }
}
