/**
 * The document parser of an older revision (src/markdown.rs): a pass over
 * the events that collects text into lines of a kind (paragraph, heading,
 * quote, code) and cuts slides at rules. It has its own element kinds,
 * lines and deck, kept local here.
 */
module Markdown {
  import opened Wrappers
  import E = Events

  /** The kind of a line, or a rule. */
  datatype Element = Paragraph | H1 | Quote | Code | Rule

  /** A line of a slide: its text and its kind. */
  datatype Line = Line(text: string, elem: Element)

  /** `match_tag_to_element`: every tag that is not a paragraph, heading, quote or rule counts as code. */
  function MatchTagToElement(tag: E.Tag): (el: Element)
    ensures el == Paragraph <==> tag == E.Paragraph
    ensures el == H1 <==> tag.Header?
    ensures el == Quote <==> tag == E.BlockQuote
    ensures el == Rule <==> tag == E.Rule
    ensures el == Code <==> !(tag == E.Paragraph || tag.Header? || tag == E.BlockQuote || tag == E.Rule)
  {
    match tag
    case Paragraph => Paragraph
    case Header(_) => H1
    case BlockQuote => Quote
    case CodeBlock(_) => Code
    case Rule => Rule
    case _ => Code
  }

  /** The parser's state: the element last opened, the text collected, the current slide and the deck. */
  datatype Parse = Parse(open: Option<Element>, content: string, slide: seq<Line>, deck: seq<seq<Line>>)

  const Start := Parse(None, "", [], [])

  /** One event of the loop in `parse_document`. */
  function Step(p: Parse, e: E.Event): Parse
  {
    if e.Start? then p.(open := Some(MatchTagToElement(e.tag)))
    else if e.Text? then p.(content := p.content + e.text)
    else if e.End? && p.open.Some? && MatchTagToElement(e.tag) == p.open.value then
      if p.open.value == Rule then p.(deck := p.deck + [p.slide], slide := [])
      else p.(slide := p.slide + [Line(p.content, p.open.value)], content := "")
    else p
  }

  function Steps(events: seq<E.Event>): Parse
    decreases |events|
  {
    if events == [] then Start else Step(Steps(events[..|events| - 1]), events[|events| - 1])
  }

  /** The element of the last start event, if any. */
  function LastStart(events: seq<E.Event>): Option<Element>
    decreases |events|
  {
    if events == [] then None
    else if events[|events| - 1].Start? then Some(MatchTagToElement(events[|events| - 1].tag))
    else LastStart(events[..|events| - 1])
  }

  /** How many rule ends close a rule start (no other start between them). */
  function RuleCloses(events: seq<E.Event>): nat
    decreases |events|
  {
    if events == [] then 0
    else
      var init := events[..|events| - 1];
      RuleCloses(init) + (if events[|events| - 1] == E.End(E.Rule) && LastStart(init) == Some(Rule) then 1 else 0)
  }

  /** All the text of the events, in order. */
  function AllText(events: seq<E.Event>): string
    decreases |events|
  {
    if events == [] then ""
    else AllText(events[..|events| - 1]) + EventText(events[|events| - 1])
  }

  /** The text of the lines, in order. */
  function LinesText(ls: seq<Line>): string
    decreases |ls|
  {
    if ls == [] then "" else LinesText(ls[..|ls| - 1]) + ls[|ls| - 1].text
  }

  /** The text of the slides, in order. */
  function SlidesText(ss: seq<seq<Line>>): string
    decreases |ss|
  {
    if ss == [] then "" else SlidesText(ss[..|ss| - 1]) + LinesText(ss[|ss| - 1])
  }

  /** Every start event overwrites the open element: it is always the element of the last start. */
  lemma {:induction false} OpenIsLastStart(events: seq<E.Event>)
    ensures Steps(events).open == LastStart(events)
    decreases |events|
  {
    if events != [] {
      OpenIsLastStart(events[..|events| - 1]);
    }
  }

  /** One slide is pushed per rule end that closes a rule start, and nothing else pushes one. */
  lemma {:induction false} DeckCountsRules(events: seq<E.Event>)
    ensures |Steps(events).deck| == RuleCloses(events)
    decreases |events|
  {
    if events != [] {
      var init := events[..|events| - 1];
      DeckCountsRules(init);
      OpenIsLastStart(init);
    }
  }

  /** The text an event carries. */
  function EventText(e: E.Event): string
  {
    if e.Text? then e.text else ""
  }

  /** The text of a parser state: its slides, its current slide, then its pending text. */
  function StateText(p: Parse): string
  {
    SlidesText(p.deck) + LinesText(p.slide) + p.content
  }

  /** One event adds its own text to the state's text, and nothing else. */
  lemma StepConserves(p: Parse, e: E.Event)
    ensures StateText(Step(p, e)) == StateText(p) + EventText(e)
  {
    if e.End? && p.open.Some? && MatchTagToElement(e.tag) == p.open.value {
      if p.open.value == Rule {
        assert (p.deck + [p.slide])[..|p.deck|] == p.deck;
      } else {
        var l := Line(p.content, p.open.value);
        assert (p.slide + [l])[..|p.slide|] == p.slide;
      }
    } else if e.Text? {
      assert StateText(p) + e.text == SlidesText(p.deck) + LinesText(p.slide) + (p.content + e.text);
    }
  }

  /**
   * No text is lost or duplicated: the lines of the deck and of the current
   * slide, followed by the text not yet in a line, are all the text of the
   * events. Where each piece of text goes is `ParsedLines`.
   */
  lemma {:induction false} TextConserved(events: seq<E.Event>)
    ensures StateText(Steps(events)) == AllText(events)
    decreases |events|
  {
    if events != [] {
      var init := events[..|events| - 1];
      TextConserved(init);
      StepConserves(Steps(init), events[|events| - 1]);
    }
  }

  /**
   * Whether an event closes a line after the events `before`: an end tag of
   * the same kind as the last start, which is not a rule.
   */
  predicate ClosesLine(before: seq<E.Event>, e: E.Event)
  {
    Closes(LastStart(before), e)
  }

  /** Whether an event is an end tag of the kind `open`, which is not a rule. */
  predicate Closes(open: Option<Element>, e: E.Event)
  {
    e.End? && open.Some? && open.value != Rule && MatchTagToElement(e.tag) == open.value
  }

  /** The position of the last event that closes a line, or -1 when none does. */
  function LastClose(events: seq<E.Event>): (k: int)
    ensures -1 <= k < |events|
    ensures k >= 0 ==> ClosesLine(events[..k], events[k])
    decreases |events|
  {
    if events == [] then -1
    else
      var init := events[..|events| - 1];
      if ClosesLine(init, events[|events| - 1]) then |events| - 1
      else
        var k := LastClose(init);
        assert k >= 0 ==> init[..k] == events[..k];
        k
  }

  /**
   * The lines the events make, defined on the events alone: each event that
   * closes a line makes one, holding all the text since the previous such
   * event (rules and unmatched ends in between included) and the kind of the
   * last start. No line is a rule.
   */
  function Lines(events: seq<E.Event>): (ls: seq<Line>)
    ensures |ls| <= |events|
    ensures forall l :: l in ls ==> l.elem != Rule
    decreases |events|
  {
    if events == [] then [] else Lines(events[..|events| - 1]) + NewLine(events[..|events| - 1], events[|events| - 1])
  }

  /** The line an event makes after the events `before`, if it closes one. */
  function NewLine(before: seq<E.Event>, e: E.Event): (ls: seq<Line>)
    ensures |ls| <= 1
    ensures forall l :: l in ls ==> l.elem != Rule
  {
    if ClosesLine(before, e) then [Line(Pending(before), LastStart(before).value)] else []
  }

  /** The text after the last event that closes a line: not yet in any line. */
  function Pending(events: seq<E.Event>): string
  {
    AllText(events[LastClose(events) + 1..])
  }

  /** The lines of a sequence of slides, in order. */
  function Flatten(ss: seq<seq<Line>>): seq<Line>
    decreases |ss|
  {
    if ss == [] then [] else Flatten(ss[..|ss| - 1]) + ss[|ss| - 1]
  }

  lemma AllTextSnoc(s: seq<E.Event>, e: E.Event)
    ensures AllText(s + [e]) == AllText(s) + EventText(e)
  {
    assert (s + [e])[..|s|] == s;
  }

  /** An event that closes a line leaves nothing pending; any other adds its text to what is pending. */
  lemma PendingSnoc(before: seq<E.Event>, e: E.Event)
    ensures Pending(before + [e]) == if ClosesLine(before, e) then "" else Pending(before) + EventText(e)
  {
    var events := before + [e];
    assert events[..|events| - 1] == before;
    if !ClosesLine(before, e) {
      var c := LastClose(before);
      assert events[c + 1..] == before[c + 1..] + [e];
      AllTextSnoc(before[c + 1..], e);
    }
  }

  /**
   * One parser step: an end closing the open element (not a rule) adds the
   * pending text as a line of that kind and clears it; any other event keeps
   * the lines and adds its text to what is pending.
   */
  lemma StepLines(p: Parse, e: E.Event)
    ensures var q := Step(p, e);
            && Flatten(q.deck) + q.slide == Flatten(p.deck) + p.slide + (if Closes(p.open, e) then [Line(p.content, p.open.value)] else [])
            && q.content == if Closes(p.open, e) then "" else p.content + EventText(e)
  {
    var matched := e.End? && p.open.Some? && MatchTagToElement(e.tag) == p.open.value;
    if matched && p.open.value == Rule {
      var d := p.deck + [p.slide];
      assert d[..|d| - 1] == p.deck;
    }
  }

  /**
   * What the parser holds after the events: the lines of its slides, in
   * order, are exactly `Lines`, and its pending text is exactly `Pending`.
   */
  lemma {:induction false} ParsedLines(events: seq<E.Event>)
    ensures Flatten(Steps(events).deck) + Steps(events).slide == Lines(events)
    ensures Steps(events).content == Pending(events)
    decreases |events|
  {
    if events != [] {
      var init := events[..|events| - 1];
      var e := events[|events| - 1];
      assert events == init + [e];
      ParsedLines(init);
      OpenIsLastStart(init);
      StepLines(Steps(init), e);
      PendingSnoc(init, e);
    }
  }

  /** The deck `parse_document` returns: the slides cut at rules, then the last slide. */
  function Document(events: seq<E.Event>): seq<seq<Line>>
  {
    var p := Steps(events);
    p.deck + [p.slide]
  }

  /**
   * The returned slides hold exactly the lines of `Lines`, and all the text
   * of the document except the text after the last event that closes a line.
   */
  lemma DocumentText(events: seq<E.Event>)
    ensures Flatten(Document(events)) == Lines(events)
    ensures SlidesText(Document(events)) + Pending(events) == AllText(events)
  {
    var p := Steps(events);
    TextConserved(events);
    ParsedLines(events);
    assert (p.deck + [p.slide])[..|p.deck|] == p.deck;
  }

  /** `parse_document`: always one slide more than the rules it closes; an empty document is one empty slide. */
  method ParseDocument(events: seq<E.Event>) returns (deck: seq<seq<Line>>)
    ensures deck == Document(events)
    ensures Flatten(deck) == Lines(events)
    ensures |deck| == RuleCloses(events) + 1
    ensures events == [] ==> deck == [[]]
  {
    var open: Option<Element> := None;
    var content := "";
    var slide: seq<Line> := [];
    deck := [];
    for i := 0 to |events|
      invariant Steps(events[..i]) == Parse(open, content, slide, deck)
    {
      assert events[..i + 1][..i] == events[..i];
      match events[i] {
        case Start(tag) => open := Some(MatchTagToElement(tag));
        case Text(t) => content := content + t;
        case End(tag) =>
          if open.Some? {
            var elem := open.value;
            if MatchTagToElement(tag) == elem {
              if elem == Rule {
                deck := deck + [slide];
                slide := [];
              } else {
                slide := slide + [Line(content, elem)];
                content := "";
              }
            }
          }
        case _ =>
      }
    }
    assert events[..|events|] == events;
    DeckCountsRules(events);
    DocumentText(events);
    deck := deck + [slide];
  }
}
