/**
 * The whole-document terminal renderer (src/term.rs): every event of the
 * document appends its text and style escapes to one output buffer, and
 * every rule end pushes the current slide onto a deck. The renderer never
 * adds elements to its slide, so every slide it pushes is empty.
 */
module Term {
  import opened Events
  import opened Terminal
  import Deck

  const LineFeed: Sym := Ch('\n')

  /** The buffer after `fresh_line`: a line feed is added unless the buffer is empty or already ends a line. */
  function FreshLined(buf: seq<Sym>): (r: seq<Sym>)
    ensures buf <= r && |r| <= |buf| + 1
    ensures r == [] || r[|r| - 1] == LineFeed
    ensures r == buf <==> (buf == [] || buf[|buf| - 1] == LineFeed)
  {
    if buf == [] || buf[|buf| - 1] == LineFeed then buf else buf + [LineFeed]
  }

  /** A second `fresh_line` changes nothing. */
  lemma FreshLineIdempotent(buf: seq<Sym>)
    ensures FreshLined(FreshLined(buf)) == FreshLined(buf)
  {
  }

  /** What a start tag writes after `buf` (the buffer after it). */
  function StartOut(buf: seq<Sym>, tag: Tag): (r: seq<Sym>)
    ensures buf <= r
  {
    if tag.Rule? then FreshLined(buf) + Chars("<hr />\n") else buf + Opening(tag)
  }

  /** What a start tag other than a rule writes, whatever the buffer holds. */
  function Opening(tag: Tag): seq<Sym>
  {
    match tag
    case Header(_) => [Esc(FgRed), Esc(Bold)]
    case BlockQuote => [Esc(Italic)]
    case CodeBlock(_) => [Esc(BgWhite), Esc(FgBlack)]
    case Emphasis => [Esc(Italic)]
    case Strong => [Esc(Bold)]
    case Code => [Esc(BgWhite), Esc(FgBlack)]
    case Link(_, title) => [Esc(Bold)] + Chars(title)
    case Image(_, title) => [Esc(Bold)] + Chars(title)
    case _ => []
  }

  /** What an end tag writes. */
  function EndOut(tag: Tag): seq<Sym>
  {
    match tag
    case Header(_) => [Esc(StyleReset), Esc(FgReset)]
    case BlockQuote => [Esc(StyleReset)]
    case CodeBlock(_) => [Esc(FgBlack), Esc(BgReset)]
    case Emphasis => [Esc(StyleReset)]
    case Strong => [Esc(StyleReset)]
    case Code => [Esc(FgReset), Esc(BgReset)]
    case Link(_, _) => [Esc(StyleReset)]
    case Image(_, _) => [Esc(StyleReset)]
    case _ => []
  }

  /**
   * The buffer after one event of `run`. An event other than a tag adds
   * exactly the text it prints and no escape.
   */
  function Emit(buf: seq<Sym>, e: Event): (r: seq<Sym>)
    ensures buf <= r
    ensures !e.Start? && !e.End? ==> r == buf + Chars(PrintedText(buf, e))
  {
    match e
    case Start(tag) => StartOut(buf, tag)
    case End(tag) => buf + EndOut(tag)
    case Text(t) => buf + Chars(t)
    case Html(h) => buf + Chars(h)
    case InlineHtml(h) => buf + Chars(h)
    case SoftBreak => buf + [LineFeed]
    case HardBreak => buf + [LineFeed, LineFeed, LineFeed]
    case FootnoteReference(_) => buf
  }

  /** The buffer after `run` over the events. */
  function Rendered(buf: seq<Sym>, events: seq<Event>): seq<Sym>
    decreases |events|
  {
    if events == [] then buf else Emit(Rendered(buf, events[..|events| - 1]), events[|events| - 1])
  }

  /** `run` only appends: the old buffer is a prefix of the new one. */
  lemma {:induction false} RenderedExtends(buf: seq<Sym>, events: seq<Event>)
    ensures buf <= Rendered(buf, events)
    decreases |events|
  {
    if events != [] {
      RenderedExtends(buf, events[..|events| - 1]);
    }
  }

  /** Rendering two runs of events one after the other is rendering them together. */
  lemma {:induction false} RenderedAppend(buf: seq<Sym>, a: seq<Event>, b: seq<Event>)
    ensures Rendered(buf, a + b) == Rendered(Rendered(buf, a), b)
    decreases |b|
  {
    if b == [] {
      assert a + b == a;
    } else {
      assert (a + b)[..|a + b| - 1] == a + b[..|b| - 1];
      RenderedAppend(buf, a, b[..|b| - 1]);
    }
  }

  /**
   * The text an event prints, independently of escapes: verbatim text and
   * HTML, one line feed for a soft break, three for a hard break, a link's
   * or an image's title, and for a rule the marker on a line of its own.
   */
  function PrintedText(buf: seq<Sym>, e: Event): string
  {
    match e
    case Start(tag) =>
      (match tag
       case Rule => (if buf == [] || buf[|buf| - 1] == LineFeed then "" else "\n") + "<hr />\n"
       case Link(_, title) => title
       case Image(_, title) => title
       case _ => "")
    case Text(t) => t
    case Html(h) => h
    case InlineHtml(h) => h
    case SoftBreak => "\n"
    case HardBreak => "\n\n\n"
    case _ => ""
  }

  /** Escapes and a printed title. */
  lemma TitlePrints(title: string)
    ensures Visible([Esc(Bold)] + Chars(title)) == title
  {
    VisibleAppend([Esc(Bold)], Chars(title));
    VisibleChars(title);
  }

  /**
   * The attributes each start tag is meant to set, from plain: a header is
   * bold red, a quote and emphasis italic, strong text, links and images
   * bold, code and code blocks black on white; the other tags set none.
   */
  function StartPen(tag: Tag): Pen
  {
    if tag.Header? then Plain.(bold := true, fg := Red)
    else if tag.BlockQuote? || tag.Emphasis? then Plain.(italic := true)
    else if tag.Strong? || tag.Link? || tag.Image? then Plain.(bold := true)
    else if tag.Code? || tag.CodeBlock? then Plain.(fg := Black, bg := White)
    else Plain
  }

  /**
   * The attributes after each end tag, from `p`: the reset of a header,
   * quote, emphasis, strong text, link or image clears them all, whatever
   * was set; the end of inline code resets both colours; the end of a code
   * block resets the background but sets the foreground to black; the other
   * tags change nothing.
   */
  function EndPen(p: Pen, tag: Tag): Pen
  {
    if tag.Header? || tag.BlockQuote? || tag.Emphasis? || tag.Strong? || tag.Link? || tag.Image? then Plain
    else if tag.Code? then p.(fg := DefaultInk, bg := DefaultPaper)
    else if tag.CodeBlock? then p.(fg := Black, bg := DefaultPaper)
    else p
  }

  /** The escapes a start tag writes set the attributes of `StartPen`. */
  lemma StartStyles(buf: seq<Sym>, tag: Tag)
    ensures Painted(Plain, StartOut(buf, tag)[|buf|..]) == StartPen(tag)
  {
    if tag.Rule? {
      RuleStyles(buf);
    } else {
      assert StartOut(buf, tag)[|buf|..] == Opening(tag);
      OpeningStyles(tag);
    }
  }

  lemma RuleStyles(buf: seq<Sym>)
    ensures Painted(Plain, StartOut(buf, Rule)[|buf|..]) == Plain
  {
    var f := FreshLined(buf);
    assert StartOut(buf, Rule)[|buf|..] == f[|buf|..] + Chars("<hr />\n");
    PaintedAppend(Plain, f[|buf|..], Chars("<hr />\n"));
    PaintedChars(Painted(Plain, f[|buf|..]), "<hr />\n");
    if f != buf {
      assert f[|buf|..] == [LineFeed];
    } else {
      assert f[|buf|..] == [];
    }
  }

  lemma OpeningStyles(tag: Tag)
    requires !tag.Rule?
    ensures Painted(Plain, Opening(tag)) == StartPen(tag)
  {
    if tag.Link? || tag.Image? {
      PaintedAppend(Plain, [Esc(Bold)], Chars(tag.title));
      PaintedPair(Plain, Esc(Bold), Esc(Bold));
      PaintedChars(Plain.(bold := true), tag.title);
    } else {
      var out := Opening(tag);
      if |out| == 2 {
        PaintedPair(Plain, out[0], out[1]);
        assert out == [out[0], out[1]];
      } else if |out| == 1 {
        PaintedPair(Plain, out[0], out[0]);
        assert out == [out[0]];
      }
    }
  }

  /** The escapes an end tag writes change the attributes as `EndPen` says. */
  lemma EndStyles(p: Pen, tag: Tag)
    ensures Painted(p, EndOut(tag)) == EndPen(p, tag)
  {
    var out := EndOut(tag);
    if |out| == 2 {
      PaintedPair(p, out[0], out[1]);
      assert out == [out[0], out[1]];
    } else if |out| == 1 {
      PaintedPair(p, out[0], out[0]);
      assert out == [out[0]];
    }
  }

  /**
   * A tag other than a code block, opened and closed from plain attributes,
   * leaves them plain; after a code block the foreground stays black.
   */
  lemma TagRestoresPen(buf: seq<Sym>, tag: Tag)
    ensures var p := Painted(Plain, StartOut(buf, tag)[|buf|..] + EndOut(tag));
            if tag.CodeBlock? then p == Plain.(fg := Black) else p == Plain
  {
    StartStyles(buf, tag);
    PaintedAppend(Plain, StartOut(buf, tag)[|buf|..], EndOut(tag));
    EndStyles(StartPen(tag), tag);
  }

  lemma StartPrints(buf: seq<Sym>, tag: Tag)
    ensures Visible(StartOut(buf, tag)[|buf|..]) == PrintedText(buf, Start(tag))
  {
    var r := StartOut(buf, tag);
    if tag == Rule {
      var f := FreshLined(buf);
      assert r[|buf|..] == f[|buf|..] + Chars("<hr />\n");
      VisibleAppend(f[|buf|..], Chars("<hr />\n"));
      VisibleChars("<hr />\n");
      if f != buf {
        assert f[|buf|..] == [LineFeed];
      } else {
        assert f[|buf|..] == [];
      }
    } else if tag.Link? || tag.Image? {
      assert r[|buf|..] == [Esc(Bold)] + Chars(tag.title);
      TitlePrints(tag.title);
    } else {
      var added := r[|buf|..];
      assert |added| <= 2 && forall k :: 0 <= k < |added| ==> added[k].Esc?;
      if |added| == 2 {
        assert added[1..][1..] == [];
      }
    }
  }

  lemma EndPrintsNothing(tag: Tag)
    ensures Visible(EndOut(tag)) == []
  {
    var out := EndOut(tag);
    assert |out| <= 2 && forall k :: 0 <= k < |out| ==> out[k].Esc?;
    if |out| == 2 {
      assert out[1..][1..] == [];
    }
  }

  /** An event other than a tag changes no attribute: text, HTML and breaks are printed as they are. */
  lemma PlainEventKeepsPen(p: Pen, buf: seq<Sym>, e: Event)
    requires !e.Start? && !e.End?
    ensures Painted(p, Emit(buf, e)[|buf|..]) == p
  {
    var r := Emit(buf, e);
    assert r[|buf|..] == Chars(PrintedText(buf, e));
    PaintedChars(p, PrintedText(buf, e));
  }

  /** The escapes an event writes print nothing: what it adds prints exactly its text. */
  lemma EmitPrints(buf: seq<Sym>, e: Event)
    ensures var r := Emit(buf, e); Visible(r[|buf|..]) == PrintedText(buf, e)
  {
    var r := Emit(buf, e);
    if e.Start? {
      StartPrints(buf, e.tag);
    } else {
      var added := r[|buf|..];
      assert r == buf + added;
      if e.Text? || e.Html? || e.InlineHtml? {
        var t := if e.Text? then e.text else e.html;
        assert added == Chars(t);
        VisibleChars(t);
      } else if e.End? {
        assert added == EndOut(e.tag);
        EndPrintsNothing(e.tag);
      } else if e.SoftBreak? {
        assert added == Chars("\n");
        VisibleChars("\n");
      } else if e.HardBreak? {
        assert added == Chars("\n\n\n");
        VisibleChars("\n\n\n");
      }
    }
  }

  /** How many rules the events end. */
  function RuleEnds(events: seq<Event>): (n: nat)
    ensures n <= |events|
    decreases |events|
  {
    if events == [] then 0
    else RuleEnds(events[..|events| - 1]) + (if events[|events| - 1] == End(Rule) then 1 else 0)
  }

  /** `n` empty slides. */
  function Empties(n: nat): (s: seq<seq<Deck.Element>>)
    ensures |s| == n && forall k :: 0 <= k < n ==> s[k] == []
  {
    seq(n, _ => [])
  }

  lemma EmptiesSnoc(n: nat)
    ensures Empties(n) + [[]] == Empties(n + 1)
  {
  }

  /**
   * The renderer's state: the caller's output buffer, the deck being built
   * and the slide being filled (which stays empty).
   */
  class Ctx {
    var buf: seq<Sym>
    const deck: Deck.Deck
    const slide: Deck.Slide

    ghost predicate Valid()
      reads this, deck, slide
    {
      deck.Valid() && slide.elems == []
    }

    constructor (buf: seq<Sym>, deck: Deck.Deck, slide: Deck.Slide)
      requires deck.Valid() && slide.elems == []
      ensures Valid() && this.buf == buf && this.deck == deck && this.slide == slide
    {
      this.buf := buf;
      this.deck := deck;
      this.slide := slide;
    }

    /** `fresh_line`. */
    method FreshLine()
      modifies this
      ensures buf == FreshLined(old(buf))
    {
      if !(buf == [] || buf[|buf| - 1] == LineFeed) {
        buf := buf + [LineFeed];
      }
    }

    /** `start_tag`. */
    method StartTag(tag: Tag)
      modifies this
      ensures buf == StartOut(old(buf), tag)
    {
      if tag.Rule? {
        FreshLine();
        buf := buf + Chars("<hr />\n");
      } else {
        match tag {
          case Header(_) => buf := buf + [Esc(FgRed), Esc(Bold)];
          case BlockQuote => buf := buf + [Esc(Italic)];
          case CodeBlock(_) => buf := buf + [Esc(BgWhite)] + [Esc(FgBlack)];
          case Emphasis => buf := buf + [Esc(Italic)];
          case Strong => buf := buf + [Esc(Bold)];
          case Code => buf := buf + [Esc(BgWhite)] + [Esc(FgBlack)];
          case Link(_, title) => buf := buf + [Esc(Bold)] + Chars(title);
          case Image(_, title) => buf := buf + [Esc(Bold)] + Chars(title);
          case _ =>
        }
        assert buf == old(buf) + Opening(tag);
      }
    }

    /** `end_tag`: a rule end pushes a copy of the slide onto the deck and clears the slide. */
    method EndTag(tag: Tag)
      requires Valid()
      modifies this, deck, slide
      ensures Valid() && buf == old(buf) + EndOut(tag) && deck.current == old(deck.current)
      ensures deck.slides == old(deck.slides) + (if tag == Rule then [[]] else [])
    {
      match tag {
        case Rule =>
          deck.Add(slide.elems);
          slide.Clear();
        case Header(_) => buf := buf + [Esc(StyleReset), Esc(FgReset)];
        case BlockQuote => buf := buf + [Esc(StyleReset)];
        case CodeBlock(_) => buf := buf + [Esc(FgBlack)] + [Esc(BgReset)];
        case Emphasis => buf := buf + [Esc(StyleReset)];
        case Strong => buf := buf + [Esc(StyleReset)];
        case Code => buf := buf + [Esc(FgReset)] + [Esc(BgReset)];
        case Link(_, _) => buf := buf + [Esc(StyleReset)];
        case Image(_, _) => buf := buf + [Esc(StyleReset)];
        case _ =>
      }
    }

    /** One event of `run`. */
    method Step(e: Event)
      requires Valid()
      modifies this, deck, slide
      ensures Valid() && buf == Emit(old(buf), e) && deck.current == old(deck.current)
      ensures deck.slides == old(deck.slides) + (if e == End(Rule) then [[]] else [])
    {
      match e {
        case Start(tag) => StartTag(tag);
        case End(tag) => EndTag(tag);
        case Text(t) => buf := buf + Chars(t);
        case Html(h) => buf := buf + Chars(h);
        case InlineHtml(h) => buf := buf + Chars(h);
        case SoftBreak => buf := buf + [LineFeed];
        case HardBreak => buf := buf + [LineFeed, LineFeed, LineFeed];
        case FootnoteReference(_) =>
      }
    }

    /** `run`: every event in order; one empty slide per rule end. */
    method Run(events: seq<Event>)
      requires Valid()
      modifies this, deck, slide
      ensures Valid() && buf == Rendered(old(buf), events) && deck.current == old(deck.current)
      ensures deck.slides == old(deck.slides) + Empties(RuleEnds(events))
    {
      for i := 0 to |events|
        invariant Valid() && buf == Rendered(old(buf), events[..i]) && deck.current == old(deck.current)
        invariant deck.slides == old(deck.slides) + Empties(RuleEnds(events[..i]))
      {
        assert events[..i + 1][..i] == events[..i];
        Step(events[i]);
        EmptiesSnoc(RuleEnds(events[..i]));
      }
      assert events[..|events|] == events;
    }
  }

  /**
   * `terminalize`: renders the events after the caller's buffer, and returns
   * the deck: one empty slide per rule end, and no slide after the last rule.
   */
  method Terminalize(buf: seq<Sym>, events: seq<Event>) returns (deck: Deck.Deck, out: seq<Sym>)
    ensures out == Rendered(buf, events) && buf <= out
    ensures deck.Valid() && deck.current == 0
    ensures |deck.slides| == RuleEnds(events) && forall k :: 0 <= k < |deck.slides| ==> deck.slides[k] == []
  {
    var d := new Deck.Deck();
    var s := new Deck.Slide();
    var ctx := new Ctx(buf, d, s);
    ctx.Run(events);
    RenderedExtends(buf, events);
    deck, out := ctx.deck, ctx.buf;
  }
}
