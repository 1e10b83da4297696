/** The core of the script that adds YouTube URLs to question YAML files:
    reading the (question path, video URL) pairings, and adding one URL as
    the first item of a file's `example_videos:` list. A file is its list of
    lines, each keeping its line terminator as `readlines()` returns it. */
module QuestionVideos {
  import opened Text

  /** The key line that opens the list of videos. */
  const AnchorKey: string := "example_videos:"

  /** Indentation used when no existing item shows one. */
  const DefaultIndent: string := "  "

  /** A line whose stripped text starts with `example_videos:`. */
  predicate IsAnchor(line: string)
  {
    StartsWith(Strip(line), AnchorKey)
  }

  /** A line whose stripped text starts with `- `: an item of a list. */
  predicate IsItem(line: string)
  {
    StartsWith(Strip(line), "- ")
  }

  /** A line that ends the search for an existing item: neither blank nor a
      `#` comment. */
  predicate EndsItemSearch(line: string)
  {
    Strip(line) != "" && !StartsWith(Strip(line), "#")
  }

  /** Index of the first anchor line, or -1 when there is none. */
  function AnchorIndex(lines: seq<string>): (k: int)
    ensures -1 <= k < |lines|
    ensures k >= 0 ==> IsAnchor(lines[k])
  {
    if lines == [] then -1
    else if IsAnchor(lines[0]) then 0
    else
      var k := AnchorIndex(lines[1..]);
      if k < 0 then -1 else k + 1
  }

  /** The anchor found is the FIRST one, and -1 means there is none. */
  lemma {:induction false} AnchorIndexFirst(lines: seq<string>)
    ensures forall j :: 0 <= j < |lines| && (AnchorIndex(lines) < 0 || j < AnchorIndex(lines)) ==> !IsAnchor(lines[j])
  {
    if lines != [] && !IsAnchor(lines[0]) {
      AnchorIndexFirst(lines[1..]);
      assert forall j :: 1 <= j < |lines| ==> lines[j] == lines[1..][j - 1];
    }
  }

  /** The indentation of the new item: the leading whitespace of the first
      item at or after `from`, skipping blank and comment lines; two spaces
      when another line comes first or none is left. */
  function ItemIndent(lines: seq<string>, from: nat): (indent: string)
    ensures AllSpace(indent)
    decreases |lines| - from
  {
    if from >= |lines| then DefaultIndent
    else if IsItem(lines[from]) then LeadingSpace(lines[from])
    else if EndsItemSearch(lines[from]) then DefaultIndent
    else ItemIndent(lines, from + 1)
  }

  /** The indent rule when the search finds an item: the first item at or
      after `from`, reached over blank and comment lines only, gives its
      leading whitespace. */
  lemma {:induction false} ItemIndentFirstItem(lines: seq<string>, from: nat, j: nat)
    requires from <= j < |lines| && IsItem(lines[j])
    requires forall m :: from <= m < j ==> !IsItem(lines[m]) && !EndsItemSearch(lines[m])
    ensures ItemIndent(lines, from) == LeadingSpace(lines[j])
    decreases j - from
  {
    if from < j {
      ItemIndentFirstItem(lines, from + 1, j);
    }
  }

  /** The indent rule when the search finds no item: blank and comment lines
      from `from` up to `stop`, where the lines run out or a line that is
      not an item ends the search, give two spaces. */
  lemma {:induction false} ItemIndentDefault(lines: seq<string>, from: nat, stop: nat)
    requires from <= stop <= |lines|
    requires stop == |lines| || (!IsItem(lines[stop]) && EndsItemSearch(lines[stop]))
    requires forall m :: from <= m < stop ==> !IsItem(lines[m]) && !EndsItemSearch(lines[m])
    ensures ItemIndent(lines, from) == DefaultIndent
    decreases stop - from
  {
    if from < stop {
      ItemIndentDefault(lines, from + 1, stop);
    }
  }

  /** The list item written for a URL. */
  function ItemLine(indent: string, videoUrl: string): string
  {
    indent + "- \"" + videoUrl + "\"\n"
  }

  /** The lines without a last line that is whitespace only. */
  function DropTrailingBlank(lines: seq<string>): seq<string>
  {
    if |lines| > 0 && Strip(lines[|lines| - 1]) == "" then lines[..|lines| - 1] else lines
  }

  /** The file after adding a URL it does not yet contain: inserted as the
      first item under the first anchor, or appended as a new section. */
  function AddedLines(lines: seq<string>, videoUrl: string): seq<string>
  {
    var k := AnchorIndex(lines);
    if k < 0 then
      DropTrailingBlank(lines) + [AnchorKey + "\n", ItemLine(DefaultIndent, videoUrl)]
    else
      lines[..k + 1] + [ItemLine(ItemIndent(lines, k + 1), videoUrl)] + lines[k + 1..]
  }

  /** The first loop of `add_video_to_yaml`: find the anchor line. */
  method FindAnchor(lines: seq<string>) returns (k: int)
    ensures k == AnchorIndex(lines)
  {
    k := -1;
    var i := 0;
    while i < |lines|
      invariant 0 <= i <= |lines|
      invariant forall j :: 0 <= j < i ==> !IsAnchor(lines[j])
    {
      if IsAnchor(lines[i]) {
        k := i;
        break;
      }
      i := i + 1;
    }
    AnchorIndexFirst(lines);
  }

  /** The second loop of `add_video_to_yaml`: the indentation of the first
      existing item after the anchor. */
  method FindIndent(lines: seq<string>, from: nat) returns (indent: string)
    ensures indent == ItemIndent(lines, from)
    ensures AllSpace(indent)
  {
    indent := DefaultIndent;
    var i := from;
    while i < |lines|
      invariant from <= i
      invariant ItemIndent(lines, from) == ItemIndent(lines, i)
      decreases |lines| - i
    {
      var line := lines[i];
      if IsItem(line) {
        indent := LeadingSpace(line);
        return;
      } else if EndsItemSearch(line) {
        return;
      }
      i := i + 1;
    }
  }

  /** `add_video_to_yaml` on the file's lines: whether the URL was added,
      and the lines written back. */
  method AddVideoToYaml(lines: seq<string>, videoUrl: string) returns (added: bool, result: seq<string>)
    ensures added <==> !Contains(Join(lines), videoUrl)
    ensures !added ==> result == lines
    ensures added ==> result == AddedLines(lines, videoUrl)
  {
    var k := FindAnchor(lines);
    var fileContent := Join(lines);
    if Contains(fileContent, videoUrl) {
      return false, lines;
    }
    result := lines;
    if k == -1 {
      if |result| > 0 && Strip(result[|result| - 1]) == "" {
        result := result[..|result| - 1];
      }
      assert result == DropTrailingBlank(lines);
      result := result + [AnchorKey + "\n"];
      result := result + [ItemLine(DefaultIndent, videoUrl)];
      assert result == DropTrailingBlank(lines) + [AnchorKey + "\n", ItemLine(DefaultIndent, videoUrl)];
    } else {
      var indent := FindIndent(result, k + 1);
      result := result[..k + 1] + [ItemLine(indent, videoUrl)] + result[k + 1..];
    }
    added := true;
  }

  /** The anchor is decided by the lines up to and including it: lines
      added after it do not move it. */
  lemma {:induction false} AnchorIndexPrefix(a: seq<string>, b: seq<string>)
    requires AnchorIndex(a) >= 0
    ensures AnchorIndex(a + b) == AnchorIndex(a)
  {
    var k := AnchorIndex(a);
    var r := AnchorIndex(a + b);
    AnchorIndexFirst(a);
    AnchorIndexFirst(a + b);
    assert (a + b)[k] == a[k];
    assert r >= 0 && r <= k;
  }

  /** The URL line that is added is found again by the same rules: its
      stripped text is an item, and its leading whitespace is the indent. */
  lemma ItemLineIsItem(indent: string, videoUrl: string)
    requires AllSpace(indent)
    ensures IsItem(ItemLine(indent, videoUrl))
    ensures LeadingSpace(ItemLine(indent, videoUrl)) == indent
    ensures Contains(ItemLine(indent, videoUrl), videoUrl)
  {
    var body := "- \"" + videoUrl + "\"";
    var line := ItemLine(indent, videoUrl);
    assert line == indent + (body + "\n");
    LStripAfterSpace(indent, body + "\n");
    RStripBeforeSpace(body, "\n");
    assert Strip(line) == body;
    assert body[..2] == "- ";
    assert line == indent + "- \"" + videoUrl + "\"\n";
    ContainsMiddle(indent + "- \"", videoUrl, "\"\n");
  }

  /** Lines before the first anchor hold no anchor either. */
  lemma NoAnchorInPrefix(lines: seq<string>, m: nat)
    requires AnchorIndex(lines) == -1 && m <= |lines|
    ensures AnchorIndex(lines[..m]) == -1
  {
    AnchorIndexFirst(lines);
    assert forall j :: 0 <= j < m ==> lines[..m][j] == lines[j];
  }

  /** The lines up to and including the first anchor have it as their last. */
  lemma AnchorOfPrefix(lines: seq<string>)
    requires AnchorIndex(lines) >= 0
    ensures AnchorIndex(lines[..AnchorIndex(lines) + 1]) == AnchorIndex(lines)
  {
    var k := AnchorIndex(lines);
    AnchorIndexFirst(lines);
    AnchorIndexFirst(lines[..k + 1]);
    assert forall j :: 0 <= j <= k ==> lines[..k + 1][j] == lines[j];
  }

  /** The default indent is whitespace and holds no line break. */
  lemma DefaultIndentIsSpace()
    ensures AllSpace(DefaultIndent) && NoNewline(DefaultIndent)
  {
  }

  /** The key line the script writes is recognised as an anchor. */
  lemma AnchorLineIsAnchor()
    ensures IsAnchor(AnchorKey + "\n")
  {
    RStripBeforeSpace(AnchorKey, "\n");
    LStripAfterSpace("", AnchorKey + "\n");
    assert "" + (AnchorKey + "\n") == AnchorKey + "\n";
  }

  /** An anchor put after lines with no anchor becomes the first one. */
  lemma SectionAppended(pre: seq<string>, anchorLine: string, item: string, r: seq<string>)
    requires AnchorIndex(pre) == -1 && IsAnchor(anchorLine)
    requires r == pre + [anchorLine, item]
    ensures AnchorIndex(r) == |pre|
  {
    AnchorIndexFirst(pre);
    AnchorIndexFirst(r);
    assert forall j :: 0 <= j < |pre| ==> r[j] == pre[j];
    assert r[|pre|] == anchorLine;
    var found := AnchorIndex(r);
    assert found >= 0 && found <= |pre|;
  }

  /** Where the URL's item line stands, the search for an existing item
      finds it and takes its indent. */
  lemma ItemIndentAt(r: seq<string>, i: nat, indent: string, videoUrl: string)
    requires i < |r| && AllSpace(indent) && r[i] == ItemLine(indent, videoUrl)
    ensures ItemIndent(r, i) == indent
  {
    ItemLineIsItem(indent, videoUrl);
  }

  /** An item put right after lines whose last line is their first anchor is
      found right after that anchor. */
  lemma ItemInserted(pre: seq<string>, indent: string, videoUrl: string, post: seq<string>, r: seq<string>)
    requires |pre| > 0 && AnchorIndex(pre) == |pre| - 1 && AllSpace(indent)
    requires r == pre + [ItemLine(indent, videoUrl)] + post
    ensures AnchorIndex(r) == |pre| - 1 && r[|pre|] == ItemLine(ItemIndent(r, |pre|), videoUrl)
  {
    var item := ItemLine(indent, videoUrl);
    assert r == pre + ([item] + post);
    AnchorIndexPrefix(pre, [item] + post);
    assert r[|pre|] == item;
    ItemLineIsItem(indent, videoUrl);
  }

  /** The lines hold an anchor, and right after the first one the item for
      the URL, with the indent the search for an existing item finds. */
  predicate UrlIsFirstItem(r: seq<string>, videoUrl: string)
  {
    0 <= AnchorIndex(r) < |r| - 1
    && r[AnchorIndex(r) + 1] == ItemLine(ItemIndent(r, AnchorIndex(r) + 1), videoUrl)
  }

  /** After an add, reading the file again finds an anchor that is
      immediately followed by the URL's item, written with the indent the
      search for an existing item now yields. */
  lemma AddedUrlIsFirstItem(lines: seq<string>, videoUrl: string)
    ensures UrlIsFirstItem(AddedLines(lines, videoUrl), videoUrl)
  {
    var k := AnchorIndex(lines);
    if k < 0 {
      var kept := DropTrailingBlank(lines);
      assert kept == lines[..|kept|];
      NoAnchorInPrefix(lines, |kept|);
      var r := AddedLines(lines, videoUrl);
      AnchorLineIsAnchor();
      SectionAppended(kept, AnchorKey + "\n", ItemLine(DefaultIndent, videoUrl), r);
      ItemIndentAt(r, |kept| + 1, DefaultIndent, videoUrl);
    } else {
      AnchorOfPrefix(lines);
      ItemInserted(lines[..k + 1], ItemIndent(lines, k + 1), videoUrl, lines[k + 1..], AddedLines(lines, videoUrl));
    }
  }

  /** With an anchor, the line after it in the new lines is the item, with
      the indent the search finds. */
  lemma InsertedLine(lines: seq<string>, videoUrl: string, k: int, indent: string)
    requires k == AnchorIndex(lines) && k >= 0
    requires ItemIndent(lines, k + 1) == indent
    ensures AddedLines(lines, videoUrl)[k + 1] == ItemLine(indent, videoUrl)
  {
    var item := ItemLine(indent, videoUrl);
    assert AddedLines(lines, videoUrl) == lines[..k + 1] + [item] + lines[k + 1..];
  }

  /** With an anchor, the inserted item takes the leading whitespace of the
      first existing item under it, when only blank and comment lines come
      between the two. */
  lemma AddedItemIndent(lines: seq<string>, videoUrl: string, k: int, j: nat)
    requires k == AnchorIndex(lines)
    requires 0 <= k < j < |lines| && IsItem(lines[j])
    requires forall m :: k < m < j ==> !IsItem(lines[m]) && !EndsItemSearch(lines[m])
    ensures AddedLines(lines, videoUrl)[k + 1] == ItemLine(LeadingSpace(lines[j]), videoUrl)
  {
    ItemIndentFirstItem(lines, k + 1, j);
    InsertedLine(lines, videoUrl, k, LeadingSpace(lines[j]));
  }

  /** With an anchor but no existing item under it (another line or the end
      of the file comes first), the inserted item is indented by two
      spaces. */
  lemma AddedItemDefaultIndent(lines: seq<string>, videoUrl: string, k: int, stop: nat)
    requires k == AnchorIndex(lines)
    requires 0 <= k < stop <= |lines|
    requires stop == |lines| || (!IsItem(lines[stop]) && EndsItemSearch(lines[stop]))
    requires forall m :: k < m < stop ==> !IsItem(lines[m]) && !EndsItemSearch(lines[m])
    ensures AddedLines(lines, videoUrl)[k + 1] == ItemLine(DefaultIndent, videoUrl)
  {
    ItemIndentDefault(lines, k + 1, stop);
    InsertedLine(lines, videoUrl, k, DefaultIndent);
  }

  /** Adding is idempotent: the URL is in the text written back, so a second
      add of the same URL reports False and changes nothing. */
  lemma AddIsIdempotent(lines: seq<string>, videoUrl: string)
    ensures Contains(Join(AddedLines(lines, videoUrl)), videoUrl)
  {
    var r := AddedLines(lines, videoUrl);
    AddedUrlIsFirstItem(lines, videoUrl);
    var k := AnchorIndex(r);
    var item := r[k + 1];
    ItemLineIsItem(ItemIndent(r, k + 1), videoUrl);
    assert Contains(item, videoUrl);
    JoinContainsPart(r, k + 1, videoUrl);
  }

  /** With an anchor, the add inserts one line and keeps every other. */
  lemma InsertKeepsLines(lines: seq<string>, videoUrl: string)
    requires AnchorIndex(lines) >= 0
    ensures var r := AddedLines(lines, videoUrl);
            var k := AnchorIndex(lines);
            |r| == |lines| + 1 && r[..k + 1] + r[k + 2..] == lines
  {
    var r := AddedLines(lines, videoUrl);
    var k := AnchorIndex(lines);
    var item := ItemLine(ItemIndent(lines, k + 1), videoUrl);
    var pre, post := lines[..k + 1], lines[k + 1..];
    assert r == pre + [item] + post;
    assert r[..k + 1] == pre;
    assert r[k + 2..] == post;
    assert pre + post == lines;
  }

  /** Without an anchor, the add keeps the lines (less a whitespace-only
      last line) as they were and puts two lines after them. */
  lemma AppendKeepsLines(lines: seq<string>, videoUrl: string)
    requires AnchorIndex(lines) < 0
    ensures var r := AddedLines(lines, videoUrl);
            var kept := DropTrailingBlank(lines);
            |r| == |kept| + 2 && r[..|r| - 2] == kept
            && kept == lines[..|kept|] && |lines| - 1 <= |kept|
  {
    var r := AddedLines(lines, videoUrl);
    var kept := DropTrailingBlank(lines);
    assert r == kept + [AnchorKey + "\n", ItemLine(DefaultIndent, videoUrl)];
    assert r[..|r| - 2] == kept;
  }

  /** Nothing else changes: with an anchor, removing the one inserted line
      gives back the input; without one, the input (less a blank last line)
      is kept as it was, followed by the two new lines. */
  lemma AddOnlyAddsLines(lines: seq<string>, videoUrl: string)
    ensures var r := AddedLines(lines, videoUrl);
            var k := AnchorIndex(lines);
            (k >= 0 ==> |r| == |lines| + 1 && r[..k + 1] + r[k + 2..] == lines)
            && (k < 0 ==> |r| == |DropTrailingBlank(lines)| + 2
                          && r[..|r| - 2] == DropTrailingBlank(lines)
                          && DropTrailingBlank(lines) == lines[..|DropTrailingBlank(lines)|]
                          && |lines| - 1 <= |DropTrailingBlank(lines)|)
  {
    if AnchorIndex(lines) >= 0 {
      InsertKeepsLines(lines, videoUrl);
    } else {
      AppendKeepsLines(lines, videoUrl);
    }
  }

  /** A line that ends with its terminator. */
  predicate EndsWithNewline(line: string)
  {
    |line| > 0 && line[|line| - 1] == '\n'
  }

  /** The lines with "\n" put at the end of the last one when it lacks it. */
  function Terminated(lines: seq<string>): seq<string>
  {
    if lines != [] && !EndsWithNewline(lines[|lines| - 1])
    then lines[..|lines| - 1] + [lines[|lines| - 1] + "\n"]
    else lines
  }

  /** The add as evidently intended: the line the new lines follow is first
      given the terminator it may lack as the last line of the file. */
  function AddedLinesTerminated(lines: seq<string>, videoUrl: string): seq<string>
  {
    var k := AnchorIndex(lines);
    if k < 0 then
      Terminated(DropTrailingBlank(lines)) + [AnchorKey + "\n", ItemLine(DefaultIndent, videoUrl)]
    else
      Terminated(lines[..k + 1]) + [ItemLine(ItemIndent(lines, k + 1), videoUrl)] + lines[k + 1..]
  }

  /** As written, a one-line file without a final "\n" and without an
      anchor gets the section appended to its lines. */
  lemma AppendToUnterminatedLine(videoUrl: string)
    ensures AddedLines(["title: Loops"], videoUrl)
         == ["title: Loops", "example_videos:\n", ItemLine(DefaultIndent, videoUrl)]
  {
    var lines := ["title: Loops"];
    assert !IsAnchor(lines[0]) && Strip(lines[0]) != "";
    assert lines[1..] == [];
    assert AnchorIndex(lines) == -1;
    assert DropTrailingBlank(lines) == lines;
    assert AnchorKey + "\n" == "example_videos:\n";
  }

  /** Neither the glued line nor the item line is an anchor. */
  lemma GluedLinesHaveNoAnchor(videoUrl: string)
    ensures AnchorIndex(["title: Loopsexample_videos:\n", ItemLine(DefaultIndent, videoUrl)]) == -1
  {
    var glued := ["title: Loopsexample_videos:\n", ItemLine(DefaultIndent, videoUrl)];
    assert !IsAnchor(glued[0]) by {
      var body := "title: Loopsexample_videos:";
      assert glued[0] == body + "\n";
      LStripAfterSpace("", body + "\n");
      assert "" + (body + "\n") == body + "\n";
      RStripBeforeSpace(body, "\n");
      assert Strip(glued[0]) == body;
      assert body[0] != AnchorKey[0];
    }
    assert !IsAnchor(glued[1]) by {
      ItemLineIsItem(DefaultIndent, videoUrl);
      assert Strip(glued[1])[0] == '-';
    }
    assert glued[1..][1..] == [];
  }

  /** Written out, three lines are the text of the first two glued into one
      line, followed by the third. */
  lemma GluedText(first: string, second: string, third: string)
    ensures Join([first, second, third]) == Join([first + second, third])
  {
    var three := [first, second, third];
    var two := [first + second, third];
    assert three[1..] == [second, third] && three[1..][1..] == [third];
    assert two[1..] == [third] && [third][1..] == [];
    assert Join([third]) == third + "";
    assert Join(three[1..]) == second + Join([third]);
    assert Join(three) == first + (second + (third + ""));
    assert Join(two) == (first + second) + (third + "");
  }

  /** The one-line file and the glued lines are both what `readlines()`
      returns. */
  lemma GluedReadLines(videoUrl: string)
    requires NoNewline(videoUrl)
    ensures IsReadLines(["title: Loops"])
    ensures IsReadLines(["title: Loopsexample_videos:\n", ItemLine(DefaultIndent, videoUrl)])
  {
    DefaultIndentIsSpace();
    ItemLineReadLine(DefaultIndent, videoUrl);
    var first := "title: Loopsexample_videos:\n";
    assert first[..|first| - 1] == "title: Loopsexample_videos:";
    assert "title: Loops"[..11] == "title: Loop";
  }

  /** As written, on a file whose last line has no "\n": the new section is
      glued onto that line, and reading the file back finds no anchor. */
  lemma UnterminatedLastLineLosesSection(videoUrl: string)
    requires NoNewline(videoUrl)
    ensures IsReadLines(["title: Loops"])
    ensures var reread := SplitLines(Join(AddedLines(["title: Loops"], videoUrl)));
            reread == ["title: Loopsexample_videos:\n", ItemLine(DefaultIndent, videoUrl)]
            && AnchorIndex(reread) == -1
  {
    var item := ItemLine(DefaultIndent, videoUrl);
    AppendToUnterminatedLine(videoUrl);
    GluedText("title: Loops", "example_videos:\n", item);
    assert "title: Loops" + "example_videos:\n" == "title: Loopsexample_videos:\n";
    GluedReadLines(videoUrl);
    SplitJoin(["title: Loopsexample_videos:\n", item]);
    GluedLinesHaveNoAnchor(videoUrl);
  }

  /** The item line has "\n" only at its end when the indent and the URL
      have none. */
  lemma ItemLineReadLine(indent: string, videoUrl: string)
    requires NoNewline(indent) && NoNewline(videoUrl)
    ensures IsReadLine(ItemLine(indent, videoUrl), false)
  {
    var line := ItemLine(indent, videoUrl);
    var body := line[..|line| - 1];
    assert body == indent + "- \"" + videoUrl + "\"";
    forall i | 0 <= i < |body|
      ensures body[i] != '\n'
    {
      if i < |indent| {
        assert body[i] == indent[i];
      } else if |indent| + 3 <= i < |indent| + 3 + |videoUrl| {
        assert body[i] == videoUrl[i - |indent| - 3];
      }
    }
  }

  /** The indent of an item in a read file holds no "\n". */
  lemma {:induction false} ItemIndentNoNewline(lines: seq<string>, from: nat)
    requires IsReadLines(lines)
    ensures NoNewline(ItemIndent(lines, from))
    decreases |lines| - from
  {
    if from < |lines| {
      var line := lines[from];
      if IsItem(line) {
        var indent := LeadingSpace(line);
        assert LStrip(line) != [];
        assert IsReadLine(line, from == |lines| - 1);
        forall i | 0 <= i < |indent|
          ensures indent[i] != '\n'
        {
          assert indent[i] == line[i] == line[..|line| - 1][i];
        }
      } else if !EndsItemSearch(line) {
        ItemIndentNoNewline(lines, from + 1);
      }
    }
  }

  /** Terminating the last line keeps every line's stripped text. */
  lemma TerminatedKeepsStrips(lines: seq<string>)
    ensures |Terminated(lines)| == |lines|
    ensures forall i :: 0 <= i < |lines| ==> Strip(Terminated(lines)[i]) == Strip(lines[i])
  {
    if lines != [] && !EndsWithNewline(lines[|lines| - 1]) {
      StripAppendSpace(lines[|lines| - 1], '\n');
    }
  }

  /** Every line of read lines, once the last is terminated, ends with "\n"
      and holds no other. */
  lemma TerminatedReadLines(lines: seq<string>)
    requires IsReadLines(lines)
    ensures forall i :: 0 <= i < |lines| ==> IsReadLine(Terminated(lines)[i], false)
  {
    if lines != [] && !EndsWithNewline(lines[|lines| - 1]) {
      var last := lines[|lines| - 1];
      assert IsReadLine(last, true);
      assert (last + "\n")[..|last|] == last;
    }
  }

  /** Lines with the same stripped texts have their first anchor at the same
      index. */
  lemma {:induction false} AnchorIndexSameStrips(a: seq<string>, b: seq<string>)
    requires |a| == |b|
    requires forall i :: 0 <= i < |a| ==> Strip(a[i]) == Strip(b[i])
    ensures AnchorIndex(a) == AnchorIndex(b)
    decreases |a|
  {
    if a != [] {
      assert Strip(a[0]) == Strip(b[0]);
      assert forall i :: 0 <= i < |a| - 1 ==> a[1..][i] == a[i + 1] && b[1..][i] == b[i + 1];
      AnchorIndexSameStrips(a[1..], b[1..]);
    }
  }

  /** The key line the script writes is one whole line. */
  lemma AnchorLineReadLine()
    ensures IsReadLine(AnchorKey + "\n", false)
  {
    var line := AnchorKey + "\n";
    assert line[..|line| - 1] == AnchorKey;
    assert NoNewline(AnchorKey);
  }

  /** The appended section is two whole lines. */
  lemma SectionReadLines(videoUrl: string)
    requires NoNewline(videoUrl)
    ensures IsReadLines([AnchorKey + "\n", ItemLine(DefaultIndent, videoUrl)])
  {
    AnchorLineReadLine();
    DefaultIndentIsSpace();
    ItemLineReadLine(DefaultIndent, videoUrl);
  }

  /** The corrected add without an anchor: the new section follows the
      terminated lines, and its item follows its anchor. */
  lemma TerminatedAppendFindsItem(kept: seq<string>, videoUrl: string, written: seq<string>)
    requires AnchorIndex(kept) == -1
    requires written == Terminated(kept) + [AnchorKey + "\n", ItemLine(DefaultIndent, videoUrl)]
    ensures AnchorIndex(written) == |written| - 2
    ensures UrlIsFirstItem(written, videoUrl)
  {
    var fixed := Terminated(kept);
    var item := ItemLine(DefaultIndent, videoUrl);
    TerminatedKeepsStrips(kept);
    AnchorIndexSameStrips(fixed, kept);
    AnchorLineIsAnchor();
    SectionAppended(fixed, AnchorKey + "\n", item, written);
    assert |written| == |fixed| + 2 && written[|fixed| + 1] == item;
    DefaultIndentIsSpace();
    ItemIndentAt(written, |fixed| + 1, DefaultIndent, videoUrl);
  }

  /** The corrected add without an anchor writes lines that read back as
      written. */
  lemma TerminatedAppendReadsBack(lines: seq<string>, videoUrl: string, written: seq<string>)
    requires IsReadLines(lines) && NoNewline(videoUrl) && AnchorIndex(lines) < 0
    requires written == AddedLinesTerminated(lines, videoUrl)
    ensures SplitLines(Join(written)) == written
  {
    var kept := DropTrailingBlank(lines);
    var section := [AnchorKey + "\n", ItemLine(DefaultIndent, videoUrl)];
    assert written == Terminated(kept) + section;
    assert kept == lines[..|kept|];
    ReadLinesPrefix(lines, |kept|);
    TerminatedReadLines(kept);
    SectionReadLines(videoUrl);
    ReadLinesAppend(Terminated(kept), section);
    SplitJoin(written);
  }

  /** An item put right after lines whose last line is their first anchor,
      once that line is terminated, is found right after that anchor. */
  lemma TerminatedInsertFindsItem(pre: seq<string>, indent: string, videoUrl: string, post: seq<string>,
                                  written: seq<string>)
    requires |pre| > 0 && AnchorIndex(pre) == |pre| - 1 && AllSpace(indent)
    requires written == Terminated(pre) + [ItemLine(indent, videoUrl)] + post
    ensures AnchorIndex(written) == |pre| - 1
    ensures UrlIsFirstItem(written, videoUrl)
  {
    var fixed := Terminated(pre);
    assert AnchorIndex(fixed) == |pre| - 1 by {
      TerminatedKeepsStrips(pre);
      AnchorIndexSameStrips(fixed, pre);
    }
    ItemInserted(fixed, indent, videoUrl, post, written);
  }

  /** The corrected add with an anchor writes lines that read back as
      written. */
  lemma TerminatedInsertReadsBack(lines: seq<string>, videoUrl: string, written: seq<string>)
    requires IsReadLines(lines) && NoNewline(videoUrl) && AnchorIndex(lines) >= 0
    requires written == AddedLinesTerminated(lines, videoUrl)
    ensures SplitLines(Join(written)) == written
  {
    var k := AnchorIndex(lines);
    var pre, post := lines[..k + 1], lines[k + 1..];
    var indent := ItemIndent(lines, k + 1);
    var item := ItemLine(indent, videoUrl);
    var fixed := Terminated(pre);
    assert written == fixed + ([item] + post);
    assert IsReadLines([item] + post) by {
      ReadLinesSuffix(lines, k + 1);
      ItemIndentNoNewline(lines, k + 1);
      ItemLineReadLine(indent, videoUrl);
      ReadLinesAppend([item], post);
    }
    assert forall i :: 0 <= i < |fixed| ==> IsReadLine(fixed[i], false) by {
      ReadLinesPrefix(lines, k + 1);
      TerminatedReadLines(pre);
    }
    ReadLinesAppend(fixed, [item] + post);
    SplitJoin(written);
  }

  /** With the correction, the file written back reads back as the same lines,
      and in them the URL's item follows the first anchor directly, for every
      file `readlines()` can return and every URL without a line break. */
  lemma TerminatedAddSurvivesReread(lines: seq<string>, videoUrl: string)
    requires IsReadLines(lines) && NoNewline(videoUrl)
    ensures SplitLines(Join(AddedLinesTerminated(lines, videoUrl))) == AddedLinesTerminated(lines, videoUrl)
    ensures UrlIsFirstItem(AddedLinesTerminated(lines, videoUrl), videoUrl)
  {
    var written := AddedLinesTerminated(lines, videoUrl);
    if AnchorIndex(lines) < 0 {
      TerminatedAppendSurvives(lines, videoUrl, written);
    } else {
      TerminatedInsertSurvives(lines, videoUrl, written);
    }
  }

  /** The no-anchor branch of `TerminatedAddSurvivesReread`. */
  lemma TerminatedAppendSurvives(lines: seq<string>, videoUrl: string, written: seq<string>)
    requires IsReadLines(lines) && NoNewline(videoUrl) && AnchorIndex(lines) < 0
    requires written == AddedLinesTerminated(lines, videoUrl)
    ensures SplitLines(Join(written)) == written && UrlIsFirstItem(written, videoUrl)
  {
    assert UrlIsFirstItem(written, videoUrl) by {
      var kept := DropTrailingBlank(lines);
      assert kept == lines[..|kept|];
      NoAnchorInPrefix(lines, |kept|);
      TerminatedAppendFindsItem(kept, videoUrl, written);
    }
    TerminatedAppendReadsBack(lines, videoUrl, written);
  }

  /** The anchor branch of `TerminatedAddSurvivesReread`. */
  lemma TerminatedInsertSurvives(lines: seq<string>, videoUrl: string, written: seq<string>)
    requires IsReadLines(lines) && NoNewline(videoUrl) && AnchorIndex(lines) >= 0
    requires written == AddedLinesTerminated(lines, videoUrl)
    ensures SplitLines(Join(written)) == written && UrlIsFirstItem(written, videoUrl)
  {
    assert UrlIsFirstItem(written, videoUrl) by {
      var k := AnchorIndex(lines);
      AnchorOfPrefix(lines);
      TerminatedInsertFindsItem(lines[..k + 1], ItemIndent(lines, k + 1), videoUrl, lines[k + 1..], written);
    }
    TerminatedInsertReadsBack(lines, videoUrl, written);
  }

  /** On a file whose lines all end with "\n", the correction changes
      nothing. */
  lemma TerminatedAgreesOnTerminatedFiles(lines: seq<string>, videoUrl: string)
    requires forall i :: 0 <= i < |lines| ==> EndsWithNewline(lines[i])
    ensures AddedLinesTerminated(lines, videoUrl) == AddedLines(lines, videoUrl)
  {
    var k := AnchorIndex(lines);
    if k < 0 {
      var kept := DropTrailingBlank(lines);
      if kept != [] {
        assert kept[|kept| - 1] == lines[|kept| - 1];
      }
    } else {
      assert lines[..k + 1][k] == lines[k];
    }
  }

  /** One entry the pairings pattern matched: the title, the URL and the
      question path, each as captured (before stripping). */
  datatype PairingMatch = PairingMatch(title: string, videoUrl: string, questionPath: string)

  /** The dictionary key an entry writes: its stripped question path. */
  function PathKey(m: PairingMatch): string
  {
    Strip(m.questionPath)
  }

  /** The dictionary after storing the entries in order, each writing its
      stripped URL under its stripped path. */
  function Pairings(matches: seq<PairingMatch>): map<string, string>
    decreases |matches|
  {
    if matches == [] then map[]
    else
      var last := matches[|matches| - 1];
      Pairings(matches[..|matches| - 1])[PathKey(last) := Strip(last.videoUrl)]
  }

  /** `parse_pairings_file` after the pattern has matched: the loop stores
      each entry in turn. */
  method ParsePairingsFile(matches: seq<PairingMatch>) returns (pairings: map<string, string>)
    ensures pairings == Pairings(matches)
  {
    pairings := map[];
    var n := 0;
    while n < |matches|
      invariant 0 <= n <= |matches|
      invariant pairings == Pairings(matches[..n])
    {
      var entry := matches[n];
      assert matches[..n + 1][..n] == matches[..n];
      pairings := pairings[PathKey(entry) := Strip(entry.videoUrl)];
      n := n + 1;
    }
    assert matches[..n] == matches;
  }

  /** The keys are exactly the stripped question paths of the entries. */
  lemma {:induction false} PairingsKeys(matches: seq<PairingMatch>, path: string)
    ensures path in Pairings(matches) <==> exists i :: 0 <= i < |matches| && PathKey(matches[i]) == path
    decreases |matches|
  {
    if matches != [] {
      var init := matches[..|matches| - 1];
      PairingsKeys(init, path);
      if exists i :: 0 <= i < |matches| && PathKey(matches[i]) == path {
        var i :| 0 <= i < |matches| && PathKey(matches[i]) == path;
        if i < |init| {
          assert init[i] == matches[i];
        }
      }
      if exists i :: 0 <= i < |init| && PathKey(init[i]) == path {
        var i :| 0 <= i < |init| && PathKey(init[i]) == path;
        assert matches[i] == init[i];
      }
    }
  }

  /** Later entries overwrite earlier ones: an entry whose path no later
      entry repeats decides the URL stored under that path. */
  lemma {:induction false} PairingsLastWins(matches: seq<PairingMatch>, i: nat)
    requires i < |matches|
    requires forall j :: i < j < |matches| ==> PathKey(matches[j]) != PathKey(matches[i])
    ensures PathKey(matches[i]) in Pairings(matches)
    ensures Pairings(matches)[PathKey(matches[i])] == Strip(matches[i].videoUrl)
    decreases |matches|
  {
    var init := matches[..|matches| - 1];
    if i < |init| {
      assert init[i] == matches[i];
      assert forall j :: i < j < |init| ==> init[j] == matches[j];
      PairingsLastWins(init, i);
    }
  }
}
