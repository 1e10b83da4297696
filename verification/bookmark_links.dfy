/** The state machine of the bookmark-export reader: it follows the events of
    an HTML tokenizer (start tags, end tags, text), notices the "CIS 110"
    folder heading, tracks how deep it is inside that folder's `<dl>` lists,
    and records every YouTube anchor there with the text of its title.

    The handlers are specified by pure transition functions on a state value
    (`OnStartTag`, `OnEndTag`, `OnData`); the class `BookmarkParser` holds the
    same five fields and updates them in place. */
module BookmarkLinks {
  import opened Wrappers
  import opened Text

  /** The folder heading that opens the section of interest. */
  const SectionHeading: string := "CIS 110"

  /** One attribute as the tokenizer reports it; a valueless attribute
      (`<a href>`) has no value. */
  datatype Attr = Attr(name: string, value: Option<string>)

  /** One tokenizer callback: `handle_starttag`, `handle_endtag` or
      `handle_data`. Tag names arrive lower-cased. */
  datatype Event = StartTag(tag: string, attrs: seq<Attr>) | EndTag(tag: string) | Data(text: string)

  /** One recorded bookmark: `{'url': ..., 'title': ...}`. */
  datatype Link = Link(url: string, title: string)

  /** The parser's fields `in_cis110`, `in_cis110_dl`, `youtube_links`,
      `current_link` and `current_title`. */
  datatype ParserState = ParserState(
    inCis110: bool,
    inCis110Dl: int,
    youtubeLinks: seq<Link>,
    currentLink: Option<string>,
    currentTitle: string)

  /** The state `__init__` sets up. */
  const Initial: ParserState := ParserState(false, 0, [], None, "")

  /** A handler either returns normally or raises. */
  datatype Outcome = Continue(state: ParserState) | Raised(error: string)

  /** What `dict(attrs).get(name)` finds: nothing, or the value of the LAST
      attribute of that name (possibly no value). */
  datatype Lookup = Missing | Found(value: Option<string>)

  function AttrLookup(attrs: seq<Attr>, name: string): (r: Lookup)
    ensures r.Found? ==> exists i :: 0 <= i < |attrs| && attrs[i].name == name && attrs[i].value == r.value
                                      && forall j :: i < j < |attrs| ==> attrs[j].name != name
    ensures r.Missing? <==> forall i :: 0 <= i < |attrs| ==> attrs[i].name != name
  {
    if attrs == [] then Missing
    else if attrs[|attrs| - 1].name == name then Found(attrs[|attrs| - 1].value)
    else
      var r := AttrLookup(attrs[..|attrs| - 1], name);
      assert forall i :: 0 <= i < |attrs| - 1 ==> attrs[..|attrs| - 1][i] == attrs[i];
      r
  }

  /** `'youtube.com' in href or 'youtu.be' in href`. */
  predicate IsYoutubeHref(href: string)
  {
    Contains(href, "youtube.com") || Contains(href, "youtu.be")
  }

  /** `self.current_link` as a condition: set and not empty. */
  predicate LinkPending(s: ParserState)
  {
    s.currentLink.Some? && s.currentLink.value != ""
  }

  /** An anchor in the section whose `href` names a YouTube video: the start
      tag that makes the link pending. */
  predicate YoutubeAnchor(s: ParserState, tag: string, attrs: seq<Attr>)
  {
    tag == "a" && s.inCis110
    && AttrLookup(attrs, "href").Found? && AttrLookup(attrs, "href").value.Some?
    && IsYoutubeHref(AttrLookup(attrs, "href").value.value)
  }

  /** `handle_starttag`. An anchor in the section whose `href` has no value
      raises: `'youtube.com' in None` is a TypeError. */
  function OnStartTag(s: ParserState, tag: string, attrs: seq<Attr>): (o: Outcome)
    ensures o.Raised? <==> tag == "a" && s.inCis110 && AttrLookup(attrs, "href") == Found(None)
    ensures o.Continue? ==> o.state.youtubeLinks == s.youtubeLinks && o.state.inCis110 == s.inCis110
    ensures o.Continue? ==> o.state.inCis110Dl == s.inCis110Dl + (if s.inCis110 && tag == "dl" then 1 else 0)
    ensures o.Continue? && o.state.currentLink != s.currentLink ==>
      tag == "a" && s.inCis110 && o.state.currentLink.Some?
      && AttrLookup(attrs, "href") == Found(o.state.currentLink)
      && IsYoutubeHref(o.state.currentLink.value)
    ensures tag == "h3" ==> o.Continue? && o.state.currentTitle == ""
    ensures o.Continue? ==>
      o.state.currentLink == if YoutubeAnchor(s, tag, attrs) then AttrLookup(attrs, "href").value else s.currentLink
    ensures o.Continue? ==>
      o.state.currentTitle == if tag == "h3" || YoutubeAnchor(s, tag, attrs) then "" else s.currentTitle
  {
    var s1 := if tag == "h3" then s.(currentTitle := "") else s;
    var s2 := if s1.inCis110 && tag == "dl" then s1.(inCis110Dl := s1.inCis110Dl + 1) else s1;
    if tag == "a" && s2.inCis110 then
      match AttrLookup(attrs, "href")
      case Missing => Continue(s2)
      case Found(None) => Raised("TypeError: argument of type 'NoneType' is not iterable")
      case Found(Some(href)) =>
        if IsYoutubeHref(href) then Continue(s2.(currentLink := Some(href), currentTitle := "")) else Continue(s2)
    else
      Continue(s2)
  }

  /** `handle_endtag`. */
  function OnEndTag(s: ParserState, tag: string): (t: ParserState)
    ensures t.inCis110 <==> s.inCis110 && !(tag == "dl" && s.inCis110Dl == 1)
    ensures t.inCis110Dl == s.inCis110Dl - (if s.inCis110 && tag == "dl" then 1 else 0)
    ensures tag == "a" && LinkPending(s) ==>
      t.youtubeLinks == s.youtubeLinks + [Link(s.currentLink.value, Strip(s.currentTitle))]
      && t.currentLink == None && t.currentTitle == ""
    ensures !(tag == "a" && LinkPending(s)) ==>
      t.youtubeLinks == s.youtubeLinks && t.currentLink == s.currentLink && t.currentTitle == s.currentTitle
  {
    var s1 :=
      if s.inCis110 && tag == "dl" then
        var depth := s.inCis110Dl - 1;
        if depth == 0 then s.(inCis110Dl := depth, inCis110 := false) else s.(inCis110Dl := depth)
      else s;
    if tag == "a" && LinkPending(s1) then
      s1.(youtubeLinks := s1.youtubeLinks + [Link(s1.currentLink.value, Strip(s1.currentTitle))],
          currentLink := None, currentTitle := "")
    else
      s1
  }

  /** `handle_data`: the text arrives stripped. */
  function OnData(s: ParserState, data: string): (t: ParserState)
    ensures t.youtubeLinks == s.youtubeLinks && t.currentLink == s.currentLink
    ensures t.inCis110 <==> s.inCis110 || Strip(data) == SectionHeading
    ensures t.inCis110Dl == if !s.inCis110 && Strip(data) == SectionHeading then 0 else s.inCis110Dl
    ensures t.currentTitle == if s.currentLink.Some? then s.currentTitle + Strip(data) else s.currentTitle
  {
    var text := Strip(data);
    var s1 := if text == SectionHeading && !s.inCis110 then s.(inCis110 := true, inCis110Dl := 0) else s;
    if s1.currentLink.Some? then s1.(currentTitle := s1.currentTitle + text) else s1
  }

  /** The handler the tokenizer calls for one event. */
  function Step(s: ParserState, e: Event): (o: Outcome)
    ensures o.Raised? ==> e.StartTag? && e.tag == "a" && s.inCis110
  {
    match e
    case StartTag(tag, attrs) => OnStartTag(s, tag, attrs)
    case EndTag(tag) => Continue(OnEndTag(s, tag))
    case Data(text) => Continue(OnData(s, text))
  }

  /** Feeding a sequence of events; the first exception stops the feed. */
  function Run(s: ParserState, events: seq<Event>): (o: Outcome)
    ensures o.Raised? ==> exists i :: 0 <= i < |events| && events[i].StartTag? && events[i].tag == "a"
    decreases |events|
  {
    if events == [] then Continue(s)
    else
      match Step(s, events[0])
      case Raised(error) => Raised(error)
      case Continue(t) => Run(t, events[1..])
  }

  /** Feeding the events from position `i` on: the event at `i`, then the
      rest unless it raised. */
  lemma RunFirst(s: ParserState, events: seq<Event>, i: nat)
    requires i < |events|
    ensures Run(s, events[i..])
         == match Step(s, events[i]) case Raised(error) => Raised(error) case Continue(t) => Run(t, events[i + 1..])
  {
    assert events[i..][1..] == events[i + 1..];
  }

  /** Feeding two runs of events one after the other is feeding their
      concatenation. */
  lemma {:induction false} RunAppend(s: ParserState, a: seq<Event>, b: seq<Event>)
    ensures Run(s, a + b) == match Run(s, a) case Raised(error) => Raised(error) case Continue(t) => Run(t, b)
    decreases |a|
  {
    if a == [] {
      assert a + b == b;
    } else {
      assert (a + b)[0] == a[0];
      assert (a + b)[1..] == a[1..] + b;
      match Step(s, a[0])
      case Raised(_) =>
      case Continue(t) => RunAppend(t, a[1..], b);
    }
  }

  /** The links recorded so far are never removed or reordered: the list
      after any feed extends the list before it. */
  lemma {:induction false} LinksAppendOnly(s: ParserState, events: seq<Event>)
    ensures Run(s, events).Continue? ==> s.youtubeLinks <= Run(s, events).state.youtubeLinks
    decreases |events|
  {
    if events != [] {
      match Step(s, events[0])
      case Raised(_) =>
      case Continue(t) =>
        LinksAppendOnly(t, events[1..]);
    }
  }

  /** The invariant the handlers keep: a pending link and every recorded URL
      is a YouTube address, every recorded title is already stripped, and
      outside the section the depth is zero. */
  predicate Wellformed(s: ParserState)
  {
    (LinkPending(s) || s.currentLink.None?)
    && (s.currentLink.Some? ==> IsYoutubeHref(s.currentLink.value))
    && (forall i :: 0 <= i < |s.youtubeLinks| ==>
          IsYoutubeHref(s.youtubeLinks[i].url) && Strip(s.youtubeLinks[i].title) == s.youtubeLinks[i].title)
    && (!s.inCis110 ==> s.inCis110Dl == 0)
  }

  /** A YouTube address is never empty. */
  lemma YoutubeHrefNotEmpty(href: string)
    requires IsYoutubeHref(href)
    ensures href != ""
  {
    ContainsIff(href, "youtube.com");
    ContainsIff(href, "youtu.be");
  }

  lemma StepKeepsWellformed(s: ParserState, e: Event)
    requires Wellformed(s)
    ensures Step(s, e).Continue? ==> Wellformed(Step(s, e).state)
  {
    match e
    case StartTag(tag, attrs) =>
      var o := OnStartTag(s, tag, attrs);
      if o.Continue? && o.state.currentLink != s.currentLink {
        YoutubeHrefNotEmpty(o.state.currentLink.value);
      }
    case EndTag(tag) =>
      var t := OnEndTag(s, tag);
      if tag == "a" && LinkPending(s) {
        StripIdempotent(s.currentTitle);
        assert t.youtubeLinks[|s.youtubeLinks|] == Link(s.currentLink.value, Strip(s.currentTitle));
      }
    case Data(text) =>
  }

  /** Every feed from a well-formed state ends in a well-formed state; in
      particular every link ever recorded from `__init__`'s state is a
      YouTube address with a stripped title. */
  lemma {:induction false} RunKeepsWellformed(s: ParserState, events: seq<Event>)
    requires Wellformed(s)
    ensures Run(s, events).Continue? ==> Wellformed(Run(s, events).state)
    decreases |events|
  {
    if events != [] {
      StepKeepsWellformed(s, events[0]);
      match Step(s, events[0])
      case Raised(_) =>
      case Continue(t) => RunKeepsWellformed(t, events[1..]);
    }
  }

  /** The text events for a list of chunks. */
  function DataEvents(chunks: seq<string>): seq<Event>
  {
    if chunks == [] then [] else [Data(chunks[0])] + DataEvents(chunks[1..])
  }

  /** The chunks, each stripped, concatenated. */
  function ConcatStripped(chunks: seq<string>): string
  {
    if chunks == [] then "" else Strip(chunks[0]) + ConcatStripped(chunks[1..])
  }

  /** One text event inside the section grows a pending title by its
      stripped text and changes nothing else. */
  lemma DataInSection(s: ParserState, text: string)
    requires s.inCis110
    ensures OnData(s, text)
         == if s.currentLink.Some? then s.(currentTitle := s.currentTitle + Strip(text)) else s
  {
  }

  /** A feed that starts with a text event goes on from that event's state. */
  lemma RunData(s: ParserState, text: string, rest: seq<Event>)
    ensures Run(s, [Data(text)] + rest) == Run(OnData(s, text), rest)
  {
    assert ([Data(text)] + rest)[1..] == rest;
  }

  /** Inside the section, text only grows the pending title. */
  lemma {:induction false} DataGrowsTitle(s: ParserState, chunks: seq<string>)
    requires s.inCis110
    ensures Run(s, DataEvents(chunks))
         == Continue(if s.currentLink.Some? then s.(currentTitle := s.currentTitle + ConcatStripped(chunks)) else s)
    decreases |chunks|
  {
    if chunks != [] {
      var head, tail := chunks[0], chunks[1..];
      var t := OnData(s, head);
      assert Run(s, DataEvents(chunks)) == Run(t, DataEvents(tail)) by {
        assert DataEvents(chunks) == [Data(head)] + DataEvents(tail);
        RunData(s, head, DataEvents(tail));
      }
      assert t == if s.currentLink.Some? then s.(currentTitle := s.currentTitle + Strip(head)) else s by {
        DataInSection(s, head);
      }
      DataGrowsTitle(t, tail);
      if s.currentLink.Some? {
        assert t.currentTitle + ConcatStripped(tail) == s.currentTitle + ConcatStripped(chunks) by {
          assert ConcatStripped(chunks) == Strip(head) + ConcatStripped(tail);
        }
      }
    }
  }

  /** An anchor in the section with a YouTube `href`, followed by text and
      closed, records exactly one link: that `href`, titled by the stripped
      text chunks concatenated and stripped again. The anchor is then no
      longer pending and nothing else changes. */
  lemma AnchorRecordsTitle(s: ParserState, attrs: seq<Attr>, href: string, chunks: seq<string>)
    requires s.inCis110
    requires AttrLookup(attrs, "href") == Found(Some(href)) && IsYoutubeHref(href)
    ensures Run(s, [StartTag("a", attrs)] + DataEvents(chunks) + [EndTag("a")])
         == Continue(s.(youtubeLinks := s.youtubeLinks + [Link(href, Strip(ConcatStripped(chunks)))],
                        currentLink := None, currentTitle := ""))
  {
    var open, close := [StartTag("a", attrs)], [EndTag("a")];
    var mid := DataEvents(chunks);
    var anchored := s.(currentLink := Some(href), currentTitle := "");
    var titled := anchored.(currentTitle := ConcatStripped(chunks));
    OpenAnchor(s, attrs, href);
    RunAppend(s, open, mid);
    DataGrowsTitle(anchored, chunks);
    assert "" + ConcatStripped(chunks) == ConcatStripped(chunks);
    assert Run(s, open + mid) == Continue(titled);
    RunAppend(s, open + mid, close);
    YoutubeHrefNotEmpty(href);
    CloseAnchor(titled);
  }

  /** Opening a YouTube anchor in the section makes its link pending. */
  lemma OpenAnchor(s: ParserState, attrs: seq<Attr>, href: string)
    requires s.inCis110
    requires AttrLookup(attrs, "href") == Found(Some(href)) && IsYoutubeHref(href)
    ensures Run(s, [StartTag("a", attrs)]) == Continue(s.(currentLink := Some(href), currentTitle := ""))
  {
    assert [StartTag("a", attrs)][1..] == [];
  }

  /** Closing an anchor records the pending link with its stripped title. */
  lemma CloseAnchor(s: ParserState)
    requires LinkPending(s)
    ensures Run(s, [EndTag("a")])
         == Continue(s.(youtubeLinks := s.youtubeLinks + [Link(s.currentLink.value, Strip(s.currentTitle))],
                        currentLink := None, currentTitle := ""))
  {
    assert [EndTag("a")][1..] == [];
  }

  /** Net change of the `<dl>` depth over some events. */
  function DlNet(events: seq<Event>): int
  {
    if events == [] then 0
    else
      (match events[0]
       case StartTag(tag, _) => if tag == "dl" then 1 else 0
       case EndTag(tag) => if tag == "dl" then -1 else 0
       case Data(_) => 0)
      + DlNet(events[1..])
  }

  /** Once in the section, the parser stays in it while the `<dl>` depth is
      positive and leaves it exactly when the depth comes back to zero: the
      depth after the events is the starting depth plus their net nesting. */
  lemma {:induction false} SectionEndsAtDepthZero(s: ParserState, events: seq<Event>)
    requires s.inCis110 && s.inCis110Dl > 0
    requires forall n :: 0 < n < |events| ==> s.inCis110Dl + DlNet(events[..n]) > 0
    ensures Run(s, events).Continue? ==>
      Run(s, events).state.inCis110Dl == s.inCis110Dl + DlNet(events)
      && (Run(s, events).state.inCis110 <==> s.inCis110Dl + DlNet(events) != 0)
    decreases |events|
  {
    if events != [] {
      var e := events[0];
      match Step(s, e)
      case Raised(_) =>
      case Continue(t) =>
        var rest := events[1..];
        assert t.inCis110Dl == s.inCis110Dl + DlNet([e]) by {
          assert [e][1..] == [];
        }
        if rest == [] {
          assert events == [e];
          assert Run(t, rest) == Continue(t);
        } else {
          assert events[..1] == [e];
          assert t.inCis110;
          forall n | 0 < n < |rest|
            ensures t.inCis110Dl + DlNet(rest[..n]) > 0
          {
            assert events[..n + 1][0] == e;
            assert events[..n + 1][1..] == rest[..n];
            assert s.inCis110Dl + DlNet(events[..n + 1]) > 0;
          }
          SectionEndsAtDepthZero(t, rest);
        }
    }
  }

  /** `BookmarkParser`: the five fields, updated in place by the handlers. */
  class BookmarkParser {
    var inCis110: bool
    var inCis110Dl: int
    var youtubeLinks: seq<Link>
    var currentLink: Option<string>
    var currentTitle: string

    /** The fields as a state value. */
    function State(): ParserState
      reads this
    {
      ParserState(inCis110, inCis110Dl, youtubeLinks, currentLink, currentTitle)
    }

    ghost predicate Valid()
      reads this
    {
      Wellformed(State())
    }

    constructor ()
      ensures State() == Initial && Valid()
    {
      inCis110 := false;
      inCis110Dl := 0;
      youtubeLinks := [];
      currentLink := None;
      currentTitle := "";
    }

    method HandleStartTag(tag: string, attrs: seq<Attr>) returns (raised: bool)
      requires Valid()
      modifies this
      ensures Valid()
      ensures raised <==> OnStartTag(old(State()), tag, attrs).Raised?
      ensures raised ==> State() == old(State())
      ensures !raised ==> State() == OnStartTag(old(State()), tag, attrs).state
    {
      StepKeepsWellformed(State(), StartTag(tag, attrs));
      raised := false;
      var href := AttrLookup(attrs, "href");
      if tag == "a" && inCis110 && href == Found(None) {
        return true;
      }
      if tag == "h3" {
        currentTitle := "";
      }
      if inCis110 && tag == "dl" {
        inCis110Dl := inCis110Dl + 1;
      }
      if tag == "a" && inCis110 && href.Found? {
        var value := href.value.value;
        if IsYoutubeHref(value) {
          currentLink := Some(value);
          currentTitle := "";
        }
      }
    }

    method HandleEndTag(tag: string)
      requires Valid()
      modifies this
      ensures Valid()
      ensures State() == OnEndTag(old(State()), tag)
    {
      StepKeepsWellformed(State(), EndTag(tag));
      if inCis110 && tag == "dl" {
        inCis110Dl := inCis110Dl - 1;
        if inCis110Dl == 0 {
          inCis110 := false;
        }
      }
      if tag == "a" && currentLink.Some? && currentLink.value != "" {
        youtubeLinks := youtubeLinks + [Link(currentLink.value, Strip(currentTitle))];
        currentLink := None;
        currentTitle := "";
      }
    }

    method HandleData(data: string)
      requires Valid()
      modifies this
      ensures Valid()
      ensures State() == OnData(old(State()), data)
    {
      StepKeepsWellformed(State(), Data(data));
      var text := Strip(data);
      if text == SectionHeading && !inCis110 {
        inCis110 := true;
        inCis110Dl := 0;
      }
      if currentLink.Some? {
        currentTitle := currentTitle + text;
      }
    }

    /** Dispatching the tokenizer's events to the handlers, in order, until
        one raises. */
    method Feed(events: seq<Event>) returns (raised: bool)
      requires Valid()
      modifies this
      ensures Valid()
      ensures raised <==> Run(old(State()), events).Raised?
      ensures !raised ==> State() == Run(old(State()), events).state
    {
      var i := 0;
      raised := false;
      while i < |events|
        invariant 0 <= i <= |events|
        invariant Valid()
        invariant Run(old(State()), events) == Run(State(), events[i..])
      {
        RunFirst(State(), events, i);
        raised := Dispatch(events[i]);
        if raised {
          return;
        }
        i := i + 1;
      }
    }

    /** Calling the handler for one event, as the tokenizer does. */
    method Dispatch(e: Event) returns (raised: bool)
      requires Valid()
      modifies this
      ensures Valid()
      ensures raised <==> Step(old(State()), e).Raised?
      ensures !raised ==> State() == Step(old(State()), e).state
    {
      raised := false;
      match e {
        case StartTag(tag, attrs) =>
          raised := HandleStartTag(tag, attrs);
        case EndTag(tag) =>
          HandleEndTag(tag);
        case Data(text) =>
          HandleData(text);
      }
    }
  }
}
