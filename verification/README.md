# YouTube helper scripts of the CIS 110 course site, in Dafny

The course site ships three Python helper scripts. This project models their
logic and proves properties of it:

- **Exam preprocessing** (`frontend/scripts/preprocess_exam.py`), module
  `ExamPreprocess`. `extract_video_id` recognises a YouTube video id in
  three forms: a `youtube.com/watch?v=` URL, a `youtu.be/` short link, or a
  bare 11-character id. `fetch_transcript` refuses input where no id is
  found. The script also builds two file paths and the page text it writes
  for a (video URL, quarter, student slug) triple:
  - the transcript JSON under `transcripts/<quarter>/`;
  - a student page under `textbook/students/<quarter>/<slug>/`, holding one
    `ExamBrowser` embed.
- **Adding videos to question files** (`scripts/add-videos-to-questions.py`),
  module `QuestionVideos`. `parse_pairings_file` maps question paths to
  video URLs; when a path repeats, the last entry wins. `add_video_to_yaml`
  works on a file as its list of lines:
  - if the URL already occurs anywhere in the file, nothing changes;
  - otherwise the URL becomes the first item under the first
    `example_videos:` line, indented like the existing items;
  - if there is no such line, a new section is appended at the end.
- **Reading a bookmark export** (`scripts/extract-youtube-links.py`),
  module `BookmarkLinks`. `BookmarkParser` is a five-field state machine
  driven by the HTML tokenizer's start-tag, end-tag and text events. It
  enters the "CIS 110" folder and tracks `<dl>` nesting to know when it has
  left. Inside the folder it records each YouTube anchor with its title.
  - The handlers are specified by pure transition functions (`OnStartTag`,
    `OnEndTag`, `OnData`, folded over an event list by `Run`).
  - The class `BookmarkParser` keeps the same fields and updates them in
    place. Each method's contract ties the new state to the transition
    function.

Module `Text` models the Python string built-ins the scripts use:
`str.strip`, `str.lstrip`, `str.startswith`, the `in` substring test and
`''.join`. Module `Wrappers` holds `Option` (Python's `None`-or-value) and
`Result` (a value or the raised exception).

The site's front end has a transcript-grouping and player-synchronisation
component. Its source is not part of this model, so none of its behaviour
is modelled. `youtube.com/embed/` URLs are not recognised by the script, and
the model follows the script.

## Model

| member | source | states |
|---|---|---|
| `ExamPreprocess.FindMatch` | frontend/scripts/preprocess_exam.py:29-39 | `re.search` of marker + 11 id characters: the result is the leftmost position where the marker is followed by eleven `[A-Za-z0-9_-]` characters, no earlier position matches, and `None` means no position matches |
| `ExamPreprocess.ExtractVideoId` | frontend/scripts/preprocess_exam.py:20-45 | any non-`None` result is exactly 11 characters, all from `[A-Za-z0-9_-]`; the result is `None` exactly when neither pattern matches anywhere and the input is not itself an id |
| `ExamPreprocess.BareIdUnchanged` | frontend/scripts/preprocess_exam.py:41-43 | a bare 11-character id of allowed characters is returned unchanged |
| `ExamPreprocess.WatchFormFirst` | frontend/scripts/preprocess_exam.py:33-35 | when the watch pattern matches, its leftmost capture is the result, whatever short link the input also holds |
| `ExamPreprocess.ShortFormSecond` | frontend/scripts/preprocess_exam.py:37-39 | the short-link capture is the result only when the watch pattern matches nowhere |
| `ExamPreprocess.WatchUrlYieldsId` | frontend/scripts/preprocess_exam.py:29-35 | for `prefix + "youtube.com/watch?v=" + id + rest`, with the marker not starting inside the prefix, the result is `id`: the 11 characters right after the marker; further id characters in `rest` are ignored |
| `ExamPreprocess.ShortUrlYieldsId` | frontend/scripts/preprocess_exam.py:30-39 | the same for `youtu.be/` when the watch form occurs nowhere |
| `ExamPreprocess.WatchUsageExample` | frontend/scripts/preprocess_exam.py:129 | the usage example `https://www.youtube.com/watch?v=dQw4w9WgXcQ` yields `dQw4w9WgXcQ` |
| `ExamPreprocess.ShortUsageExample` | frontend/scripts/preprocess_exam.py:130 | the usage example `https://youtu.be/5Bd_onCysfw` yields `5Bd_onCysfw` |
| `ExamPreprocess.SearchSkipsShortCapture` | frontend/scripts/preprocess_exam.py:31-39 | the search is not tied to the first marker: in `youtu.be/abc youtu.be/5Bd_onCysfw` the first marker has too few id characters after it, and the second one's id is returned |
| `ExamPreprocess.FetchTarget` | frontend/scripts/preprocess_exam.py:59-62 | `fetch_transcript` goes on to fetch exactly when an id is extracted, and fetches that id; otherwise it raises `ValueError("Could not extract video ID from: " + url)` before any fetch |
| `ExamPreprocess.TranscriptFile` | frontend/scripts/preprocess_exam.py:84-88 | computes the transcript file `base/transcripts/<quarter>/<slug>.json` as path components |
| `ExamPreprocess.StudentPageFile` | frontend/scripts/preprocess_exam.py:107-115 | computes the page file `base/textbook/students/<quarter>/<slug>/<slug>.md` as path components |
| `ExamPreprocess.TranscriptUrl` | frontend/scripts/preprocess_exam.py:111 | computes the site-relative URL `/transcripts/<quarter>/<slug>.json` |
| `ExamPreprocess.PageContent` | frontend/scripts/preprocess_exam.py:112 | computes the page text: two newlines, then `{{ExamBrowser:<url> transcript_json:"<transcript URL>" }}` and a newline |
| `ExamPreprocess.PageLinksSavedTranscript` | frontend/scripts/preprocess_exam.py:84-88 | the transcript file is `base/transcripts/<quarter>/<slug>.json`; the `transcript_json` URL in the page, `/transcripts/<quarter>/<slug>.json`, names that same file relative to the base directory |
| `ExamPreprocess.PageFileLayout` | frontend/scripts/preprocess_exam.py:107-115 | the page file is `base/textbook/students/<quarter>/<slug>/<slug>.md`, lies under the base directory in the student's folder, and is never the transcript file |
| `ExamPreprocess.PageContentShape` | frontend/scripts/preprocess_exam.py:111-112 | the page text begins with two newlines and `{{ExamBrowser:<url> ` carries `transcript_json:"/transcripts/<quarter>/<slug>.json"`, and ends with ` }}` and a newline |
| `ExamPreprocess.PageContentDeterminesUrl` | frontend/scripts/preprocess_exam.py:112 | the page text for a student determines the video URL embedded in it |
| `QuestionVideos.AnchorIndex` | scripts/add-videos-to-questions.py:33-38 | the index found is -1 or that of a line whose stripped text starts with `example_videos:` |
| `QuestionVideos.AnchorIndexFirst` | scripts/add-videos-to-questions.py:35-38 | the loop stops at the FIRST such line: no line before the index found is an anchor, and -1 means no line is |
| `QuestionVideos.ItemIndent` | scripts/add-videos-to-questions.py:56-66 | the indentation chosen for the new item is whitespace only |
| `QuestionVideos.ItemIndentFirstItem` | scripts/add-videos-to-questions.py:58-63 | when the first item at or after the search start is reached over blank and `#` lines only, the indent is that item's leading whitespace |
| `QuestionVideos.ItemIndentDefault` | scripts/add-videos-to-questions.py:57-66 | when blank and `#` lines run up to the end of the file or to a line that is neither an item nor blank nor a comment, the indent is the default two spaces |
| `QuestionVideos.FindAnchor` | scripts/add-videos-to-questions.py:33-38 | the scanning loop returns the first anchor index, or -1 |
| `QuestionVideos.FindIndent` | scripts/add-videos-to-questions.py:56-66 | the scanning loop returns the leading whitespace of the first `- ` item after the anchor, skipping blank and `#` lines; it returns two spaces when another line comes first or none is left |
| `QuestionVideos.AddedLines` | scripts/add-videos-to-questions.py:46-69 | computes the lines written back when the URL is new: with an anchor, the URL's item inserted right after it; without one, the lines less a whitespace-only last line, then `example_videos:` and `  - "URL"` |
| `QuestionVideos.AddVideoToYaml` | scripts/add-videos-to-questions.py:26-75 | returns `False` with the lines unchanged exactly when the URL occurs in the joined file text. Otherwise it returns `True` with the URL's item inserted right after the anchor, or, with no anchor, the lines (less a whitespace-only last line) followed by `example_videos:` and `  - "URL"` |
| `QuestionVideos.ItemLineIsItem` | scripts/add-videos-to-questions.py:60-69 | the inserted line `indent- "URL"` is itself recognised as an item, with exactly `indent` as its indentation, and contains the URL |
| `QuestionVideos.AddedUrlIsFirstItem` | scripts/add-videos-to-questions.py:46-69 | in both branches, the first anchor of the lines written back is followed at once by an item line for the URL (this lemma does not fix its indent; the next two rows do) |
| `QuestionVideos.AddedItemIndent` | scripts/add-videos-to-questions.py:56-69 | with an anchor at `k` and an existing item at `j` after it, only blank and `#` lines between: the line inserted at `k + 1` is `ItemLine` with the leading whitespace of line `j` |
| `QuestionVideos.AddedItemDefaultIndent` | scripts/add-videos-to-questions.py:56-69 | with an anchor at `k` and no existing item before the end of the file or another kind of line: the line inserted at `k + 1` is indented by two spaces |
| `QuestionVideos.AddIsIdempotent` | scripts/add-videos-to-questions.py:41-44 | after an add, the URL occurs in the written text, so a second add of the same URL returns `False` and changes nothing |
| `QuestionVideos.AddOnlyAddsLines` | scripts/add-videos-to-questions.py:46-69 | with an anchor, the length grows by one and dropping the inserted line gives back the input. Without one, the input (less a whitespace-only last line) is kept as a prefix and two lines follow |
| `QuestionVideos.Pairings` | scripts/add-videos-to-questions.py:21-22 | computes the dictionary left by storing each entry's stripped URL under its stripped path, entry after entry |
| `QuestionVideos.ParsePairingsFile` | scripts/add-videos-to-questions.py:10-24 | the loop over the matched entries leaves the dictionary that storing each entry's stripped URL under its stripped path, in order, gives |
| `QuestionVideos.PairingsKeys` | scripts/add-videos-to-questions.py:21-22 | a path is a key exactly when some entry's stripped question path equals it |
| `QuestionVideos.PairingsLastWins` | scripts/add-videos-to-questions.py:21-22 | the URL stored under a path is the stripped URL of the LAST entry with that path: an entry that no later entry repeats decides it |
| `Text.SplitJoin` | scripts/add-videos-to-questions.py:72-73 | lines as `readlines()` returns them (`\n` only at the end, missing only on the last line), written with `writelines` and read back, are the same lines |
| `QuestionVideos.UnterminatedLastLineLosesSection` | scripts/add-videos-to-questions.py:46-53 | as written: for the file `title: Loops` with no final newline, the added section is glued onto that line, and the file read back has no `example_videos:` line at all |
| `QuestionVideos.TerminatedAddSurvivesReread` | scripts/add-videos-to-questions.py:46-73 | with the last line before the added lines terminated first, for every file `readlines()` can return and every URL without a line break: the file reads back as the lines built, and in them the URL's item directly follows the first anchor |
| `QuestionVideos.TerminatedAgreesOnTerminatedFiles` | scripts/add-videos-to-questions.py:46-69 | on a file whose lines all end with `\n`, the corrected add and the script's add build the same lines |
| `BookmarkLinks.AttrLookup` | scripts/extract-youtube-links.py:20 | `dict(attrs)` lookup: `Missing` exactly when no attribute has the name; otherwise the value of an attribute with that name after which no attribute has it (the last one) |
| `BookmarkLinks.OnStartTag` | scripts/extract-youtube-links.py:19-35 | an `h3` resets the title; a `dl` in the section adds one to the depth. An `a` in the section whose `href` holds `youtube.com` or `youtu.be` makes that `href` the pending link and resets the title; a valueless `href` there raises TypeError. Any other start tag leaves link and title as they were, and start tags never touch the recorded links or the section flag |
| `BookmarkLinks.OnEndTag` | scripts/extract-youtube-links.py:37-51 | a `dl` in the section takes one off the depth, and the section is left exactly when that makes it 0. An `a` with a link pending appends exactly one `{url, title.strip()}` and clears the link and title; otherwise links, link and title are unchanged |
| `BookmarkLinks.OnData` | scripts/extract-youtube-links.py:53-63 | stripped text `CIS 110` outside the section enters it with depth 0 and changes nothing inside it; with a link pending the stripped text is appended to the title; links and link are never touched |
| `BookmarkLinks.Step` | scripts/extract-youtube-links.py:19-63 | dispatches one tokenizer event to its handler; only a start tag `a` inside the section can raise |
| `BookmarkLinks.Run` | scripts/extract-youtube-links.py:75-76 | feeds the events in order from a state, stopping at the first exception; a feed that raises holds an `a` start tag |
| `BookmarkLinks.LinksAppendOnly` | scripts/extract-youtube-links.py:46 | over any feed, the earlier list of recorded links is a prefix of the later one |
| `BookmarkLinks.RunKeepsWellformed` | scripts/extract-youtube-links.py:31-51 | over any feed from a well-formed state (as `__init__` leaves it): every pending or recorded URL holds `youtube.com` or `youtu.be`, every recorded title is stripped, and the depth is 0 outside the section |
| `BookmarkLinks.DataGrowsTitle` | scripts/extract-youtube-links.py:62-63 | inside the section, text events only append their stripped text to a pending title |
| `BookmarkLinks.AnchorRecordsTitle` | scripts/extract-youtube-links.py:31-51 | a YouTube anchor in the section, then text, then `</a>`: exactly one link is recorded, with that `href` and title `strip(concatenation of the stripped chunks)`, and nothing else changes |
| `BookmarkLinks.SectionEndsAtDepthZero` | scripts/extract-youtube-links.py:26-28 | in the section with positive depth, the depth follows the net `<dl>` nesting of the events, and the parser stays in the section exactly while that depth is not 0 |
| `BookmarkLinks.BookmarkParser.constructor` | scripts/extract-youtube-links.py:10-17 | the fields start as `False`, `0`, `[]`, `None`, `""` |
| `BookmarkLinks.BookmarkParser.HandleStartTag` | scripts/extract-youtube-links.py:19-35 | the fields change as `OnStartTag` says, or not at all when it raises; the invariant is kept |
| `BookmarkLinks.BookmarkParser.HandleEndTag` | scripts/extract-youtube-links.py:37-51 | the fields change as `OnEndTag` says; the invariant is kept |
| `BookmarkLinks.BookmarkParser.HandleData` | scripts/extract-youtube-links.py:53-63 | the fields change as `OnData` says; the invariant is kept |
| `BookmarkLinks.BookmarkParser.Dispatch` | scripts/extract-youtube-links.py:19-63 | calling the handler for one event changes the fields as `Step` says, or raises exactly when `Step` does; the invariant is kept |
| `BookmarkLinks.BookmarkParser.Feed` | scripts/extract-youtube-links.py:75-76 | dispatching events in order ends in the state `Run` gives, or reports the first exception |

## Left out

- `ExamPreprocess.ExtractVideoId`: does not model that the regex `$` at frontend/scripts/preprocess_exam.py:42 also matches before a trailing newline. Python returns the 12-character input `id + "\n"` unchanged; the model returns `None` for it.
- The transcript download through `YouTubeTranscriptApi` (frontend/scripts/preprocess_exam.py:67-70) is a foreign library call over the network. `FetchTarget` stops at the id it would fetch.
- File access is left out: `mkdir`, `open`, `json.dump` and the writes. A file is its list of lines. The split of the file text into lines that `readlines()` performs is modelled by `Text.SplitLines`, and the round-trip lemmas (`Text.SplitJoin`, the findings below) rely on it. Paths are sequences of components; pathlib's handling of absolute or multi-part components is not modelled.
- Python reads files with universal newlines; the model takes the lines as `readlines()` returns them, with `\n` as the only line terminator.
- All `main` functions are left out: argument parsing, printing, `sys.exit`, the hard-coded base directory, the existence checks and counters, and the order in which `main` walks the pairings dictionary.
- The regular expressions are left out. The video-id patterns are written as explicit marker and character-class checks. The pairings pattern (scripts/add-videos-to-questions.py:18) is taken as its list of matched (title, URL, path) triples, so the `https://` prefix it demands of the URL is not enforced.
- The HTML tokenizer is left out: events are given as an abstract list, with tag names already lower-cased. Character-reference decoding, the splitting of text into chunks, and self-closing tags are the tokenizer's business.
- `BookmarkLinks.SectionEndsAtDepthZero`: covers only states with positive depth. Right after the heading the depth is 0. A `</dl>` then makes it -1 and the parser stays in the section (leaving is tested only on a decrement to 0). The handlers model that as written; the lemma just does not speak about it.
- Python's whitespace set for `strip` is taken as the code points `str.isspace` accepts; characters are code points, with no encoding.

## Findings

| source | as written | input that shows it | evidently intended | confidence | as-written member | corrected member |
|---|---|---|---|---|---|---|
| scripts/add-videos-to-questions.py:46-69 | the new lines go right after the last kept line (line 52) or the anchor line (line 69), with no check that this line ends with `\n`; when it is the last line of a file saved without a final newline, the first added line is glued onto it | a question file whose whole text is `title: Loops`, with no `example_videos:` line and no final newline: the text written back is `title: Loopsexample_videos:` followed by the item line, which holds no `example_videos:` line, although the script reports the URL added | the line the new lines follow ends with `\n`, so the file reads back as the lines built, with the URL as the first item under `example_videos:` | medium: needs a file saved without a final newline; not executed | `QuestionVideos.UnterminatedLastLineLosesSection` (about `QuestionVideos.AddedLines`) | `QuestionVideos.TerminatedAddSurvivesReread` (about `QuestionVideos.AddedLinesTerminated`) |

`QuestionVideos.AddVideoToYaml` keeps the behaviour as written. `QuestionVideos.AddedLinesTerminated` is the corrected add, and `QuestionVideos.TerminatedAgreesOnTerminatedFiles` shows that it differs only on files whose last line lacks its `\n`.
