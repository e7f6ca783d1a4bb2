/**
 * Presenting markdown events on the view (src/present.rs): each event is
 * routed to the view operations it calls, and a slide feeds its events to
 * the view one after the other, stopping at the first fatal one.
 */
module Present {
  import opened Events
  import opened View
  import opened Terminal

  /** What presenting one event does: a sequence of view operations, or an abort (`unimplemented!`). */
  datatype Dispatch = Ops(ops: seq<Op>) | Unsupported

  /** The tags whose start and end the presenter passes over without calling the view. */
  predicate Passed(t: Tag)
  {
    t.Rule? || t.FootnoteDefinition? || t.Table? || t.TableHead? || t.TableRow? || t.TableCell? || t.Link? || t.Image?
  }

  /** The view operations one event calls. */
  function Route(e: Event): (d: Dispatch)
    ensures d.Unsupported? <==> e.Html? || e.InlineHtml? || e.FootnoteReference?
    ensures d.Ops? ==> forall i :: 0 <= i < |d.ops| ==> !d.ops[i].StartImage? && !d.ops[i].EndImage?
    ensures e.Text? ==> d == Ops([ShowText(e.text)])
    ensures e.SoftBreak? ==> d == Ops([Newline])
    ensures e.HardBreak? ==> d == Ops([Newline, Newline])
    ensures (e.Start? || e.End?) ==> d.Ops? && |d.ops| <= 1
    ensures e.Start? && e.tag.Emphasis? ==> d == Ops([StartItalic])
    ensures e.End? && e.tag.Emphasis? ==> d == Ops([EndItalic])
    ensures e.Start? && e.tag.Strong? ==> d == Ops([StartBold])
    ensures e.End? && e.tag.Strong? ==> d == Ops([EndBold])
    ensures e.Start? && e.tag.Code? ==> d == Ops([StartCode])
    ensures e.End? && e.tag.Code? ==> d == Ops([EndCode])
    ensures e.Start? && e.tag.Header? ==> d == Ops([StartHeader(e.tag.level)])
    ensures e.End? && e.tag.Header? ==> d == Ops([EndHeader(e.tag.level)])
    ensures e.Start? && e.tag.CodeBlock? ==> d == Ops([StartCodeBlock])
    ensures e.End? && e.tag.CodeBlock? ==> d == Ops([EndCodeBlock])
    ensures e.Start? && e.tag.Paragraph? ==> d == Ops([StartParagraph])
    ensures e.End? && e.tag.Paragraph? ==> d == Ops([EndParagraph])
    ensures e.Start? && e.tag.BlockQuote? ==> d == Ops([StartQuote])
    ensures e.End? && e.tag.BlockQuote? ==> d == Ops([EndQuote])
    ensures e.Start? && e.tag.List? ==> d == Ops([StartList])
    ensures e.End? && e.tag.List? ==> d == Ops([EndList])
    ensures e.Start? && e.tag.Item? ==> d == Ops([StartItem])
    ensures e.End? && e.tag.Item? ==> d == Ops([EndItem])
    ensures (e.Start? || e.End?) ==> (d == Ops([]) <==> Passed(e.tag))
  {
    match e
    case Start(Emphasis) => Ops([StartItalic])
    case End(Emphasis) => Ops([EndItalic])
    case Start(Strong) => Ops([StartBold])
    case End(Strong) => Ops([EndBold])
    case Start(Code) => Ops([StartCode])
    case End(Code) => Ops([EndCode])
    case SoftBreak => Ops([Newline])
    case Start(Header(level)) => Ops([StartHeader(level)])
    case End(Header(level)) => Ops([EndHeader(level)])
    case Start(CodeBlock(_)) => Ops([StartCodeBlock])
    case End(CodeBlock(_)) => Ops([EndCodeBlock])
    case Start(Paragraph) => Ops([StartParagraph])
    case End(Paragraph) => Ops([EndParagraph])
    case Start(BlockQuote) => Ops([StartQuote])
    case End(BlockQuote) => Ops([EndQuote])
    case Start(List(_)) => Ops([StartList])
    case End(List(_)) => Ops([EndList])
    case Start(Item) => Ops([StartItem])
    case End(Item) => Ops([EndItem])
    case Start(_) => Ops([])
    case End(_) => Ops([])
    case Text(text) => Ops([ShowText(text)])
    case Html(_) => Unsupported
    case InlineHtml(_) => Unsupported
    case FootnoteReference(_) => Unsupported
    case HardBreak => Ops([Newline, Newline])
  }

  /** Presenting one event from context `ctx`. */
  function PresentStep(ctx: Context, g: Layout, e: Event): Trace
  {
    match Route(e)
    case Unsupported => Trace(ctx, [], false)
    case Ops(ops) => Run(ctx, g, ops)
  }

  /** Presenting events in order; the first fatal event stops the presentation. */
  function PresentAll(ctx: Context, g: Layout, events: seq<Event>): Trace
    decreases |events|
  {
    if events == [] then Trace(ctx, [], true)
    else Then(PresentStep(ctx, g, events[0]), PresentAll(PresentStep(ctx, g, events[0]).ctx, g, events[1..]))
  }

  /** The view operations of a sequence of events, none of them unsupported. */
  function RoutedOps(events: seq<Event>): seq<Op>
    requires forall i :: 0 <= i < |events| ==> Route(events[i]).Ops?
  {
    if events == [] then [] else Route(events[0]).ops + RoutedOps(events[1..])
  }

  /**
   * When no event is unsupported, presenting the events is running the view
   * operations they route to, concatenated, from the same context.
   */
  lemma {:induction false} PresentAllIsRun(ctx: Context, g: Layout, events: seq<Event>)
    requires forall i :: 0 <= i < |events| ==> Route(events[i]).Ops?
    ensures PresentAll(ctx, g, events) == Run(ctx, g, RoutedOps(events))
    decreases |events|
  {
    if events != [] {
      var ops := Route(events[0]).ops;
      RunAppend(ctx, g, ops, RoutedOps(events[1..]));
      PresentAllIsRun(Run(ctx, g, ops).ctx, g, events[1..]);
    }
  }

  /** An unsupported event aborts the presentation: nothing after it is presented. */
  lemma UnsupportedStops(ctx: Context, g: Layout, before: seq<Event>, e: Event, after: seq<Event>)
    requires Route(e).Unsupported?
    ensures PresentAll(ctx, g, before + [e] + after) == Then(PresentAll(ctx, g, before), Trace(PresentAll(ctx, g, before).ctx, [], false))
  {
    PresentAllAppend(ctx, g, before, [e] + after);
    assert (before + [e] + after) == before + ([e] + after);
  }

  /** Presenting `a + b` is presenting `a`, then `b` from where it stopped, unless `a` was fatal. */
  lemma {:induction false} PresentAllAppend(ctx: Context, g: Layout, a: seq<Event>, b: seq<Event>)
    ensures PresentAll(ctx, g, a + b) == Then(PresentAll(ctx, g, a), PresentAll(PresentAll(ctx, g, a).ctx, g, b))
    decreases |a|
  {
    if a == [] {
      assert a + b == b;
    } else {
      assert (a + b)[0] == a[0];
      assert (a + b)[1..] == a[1..] + b;
      var first := PresentStep(ctx, g, a[0]);
      if first.completed {
        PresentAllAppend(first.ctx, g, a[1..], b);
        var ta := PresentAll(first.ctx, g, a[1..]);
        AfterAfter(first.emitted, ta.emitted, PresentAll(ta.ctx, g, b));
      }
    }
  }

  /** A run of operations none of which is an image operation never enters the image context. */
  lemma {:induction false} RunAvoidsImage(ctx: Context, g: Layout, ops: seq<Op>)
    requires !ctx.Image?
    requires forall i :: 0 <= i < |ops| ==> !ops[i].StartImage? && !ops[i].EndImage?
    ensures !Run(ctx, g, ops).ctx.Image?
    decreases |ops|
  {
    if ops != [] {
      match Apply(ctx, g, ops[0])
      case None => RunFatal(ctx, g, ops);
      case Some(r) =>
        ApplyOutcome(ctx, g, ops[0]);
        RunFirst(ctx, g, ops, r);
        RunAvoidsImage(r.ctx, g, ops[1..]);
    }
  }

  /** Since the dispatch never calls `start_image`, presenting events never reaches the image context. */
  lemma {:induction false} PresentAvoidsImage(ctx: Context, g: Layout, events: seq<Event>)
    requires !ctx.Image?
    ensures !PresentAll(ctx, g, events).ctx.Image?
    decreases |events|
  {
    if events != [] {
      var d := Route(events[0]);
      if d.Ops? {
        RunAvoidsImage(ctx, g, d.ops);
        PresentAvoidsImage(PresentStep(ctx, g, events[0]).ctx, g, events[1..]);
      }
    }
  }

  /** A hard break writes exactly two newlines and keeps the context. */
  lemma HardBreakTwoNewlines(ctx: Context, g: Layout)
    ensures PresentStep(ctx, g, HardBreak) == Trace(ctx, NewlineOut(g) + NewlineOut(g), true)
  {
    var ops := [Newline, Newline];
    RunFirst(ctx, g, ops, Render(ctx, NewlineOut(g)));
    RunFirst(ctx, g, ops[1..], Render(ctx, NewlineOut(g)));
    assert ops[1..][1..] == [];
  }

  /** Presenting one event with the view: the context and output the dispatch gives, or an abort. */
  method PresentEvent(view: View, e: Event) returns (ok: bool)
    requires view.Valid()
    modifies view
    ensures view.Kept()
    ensures var t := PresentStep(old(view.ctx), view.Frame(), e);
            ok == t.completed && view.ctx == t.ctx && view.out == old(view.out) + t.emitted
  {
    var ctx0, g := view.ctx, view.Frame();
    match e {
      case Start(tag) => ok := PresentStart(view, tag);
      case End(tag) => ok := PresentEnd(view, tag);
      case SoftBreak => view.Newline(); ok := true; Single(ctx0, g, Newline);
      case Text(text) => ok := view.ShowText(text); Single(ctx0, g, ShowText(text));
      case Html(_) => ok := false;
      case InlineHtml(_) => ok := false;
      case FootnoteReference(_) => ok := false;
      case HardBreak =>
        view.Newline();
        view.Newline();
        ok := true;
        HardBreakTwoNewlines(ctx0, g);
    }
  }

  /** The start-tag arm of the dispatch. */
  method PresentStart(view: View, tag: Tag) returns (ok: bool)
    requires view.Valid()
    modifies view
    ensures view.Kept()
    ensures var t := PresentStep(old(view.ctx), view.Frame(), Start(tag));
            ok == t.completed && view.ctx == t.ctx && view.out == old(view.out) + t.emitted
  {
    var ctx0, g := view.ctx, view.Frame();
    ok := true;
    match tag {
      case Emphasis => view.StartItalic(); Single(ctx0, g, StartItalic);
      case Strong => view.StartBold(); Single(ctx0, g, StartBold);
      case Code => view.StartCode(); Single(ctx0, g, StartCode);
      case Header(level) => view.StartHeader(level); Single(ctx0, g, StartHeader(level));
      case CodeBlock(_) => view.StartCodeBlock(); Single(ctx0, g, StartCodeBlock);
      case Paragraph => view.StartParagraph(); Single(ctx0, g, StartParagraph);
      case BlockQuote => view.StartQuote(); Single(ctx0, g, StartQuote);
      case List(_) => ok := view.StartList(); Single(ctx0, g, StartList);
      case Item => ok := view.StartItem(); Single(ctx0, g, StartItem);
      case _ =>
    }
  }

  /** The end-tag arm of the dispatch. */
  method PresentEnd(view: View, tag: Tag) returns (ok: bool)
    requires view.Valid()
    modifies view
    ensures view.Kept()
    ensures var t := PresentStep(old(view.ctx), view.Frame(), End(tag));
            ok == t.completed && view.ctx == t.ctx && view.out == old(view.out) + t.emitted
  {
    var ctx0, g := view.ctx, view.Frame();
    ok := true;
    match tag {
      case Emphasis => view.EndItalic(); Single(ctx0, g, EndItalic);
      case Strong => view.EndBold(); Single(ctx0, g, EndBold);
      case Code => view.EndCode(); Single(ctx0, g, EndCode);
      case Header(level) => view.EndHeader(level); Single(ctx0, g, EndHeader(level));
      case CodeBlock(_) => view.EndCodeBlock(); Single(ctx0, g, EndCodeBlock);
      case Paragraph => view.EndParagraph(); Single(ctx0, g, EndParagraph);
      case BlockQuote => view.EndQuote(); Single(ctx0, g, EndQuote);
      case List(_) => ok := view.EndList(); Single(ctx0, g, EndList);
      case Item => ok := view.EndItem(); Single(ctx0, g, EndItem);
      case _ =>
    }
  }

  /** A run of a single operation is that operation's transition. */
  lemma Single(ctx: Context, g: Layout, op: Op)
    ensures var r := Apply(ctx, g, op);
            Run(ctx, g, [op]) == if r.Some? then Trace(r.value.ctx, r.value.emitted, true) else Trace(ctx, [], false)
  {
    assert [op][1..] == [];
  }

  /** Presenting a slide: its events in order, stopping at the first fatal one. */
  method PresentSlide(view: View, events: seq<Event>) returns (ok: bool)
    requires view.Valid()
    modifies view
    ensures view.Kept()
    ensures var t := PresentAll(old(view.ctx), view.Frame(), events);
            ok == t.completed && view.ctx == t.ctx && view.out == old(view.out) + t.emitted
  {
    ghost var g := view.Frame();
    ghost var ctx0 := view.ctx;
    ghost var written: seq<Sym> := [];
    var i := 0;
    ok := true;
    while i < |events| && ok
      invariant i <= |events| && view.Kept() && view.Frame() == g
      invariant view.out == old(view.out) + written
      invariant PresentAll(ctx0, g, events[..i]) == Trace(view.ctx, written, ok)
    {
      ghost var before := view.out;
      ok := PresentNext(view, ctx0, events, i, written);
      written := written + view.out[|before|..];
      i := i + 1;
    }
    PresentStopped(ctx0, g, events, i);
  }

  /** A prefix that was fatal, or the whole sequence, has the outcome of the whole sequence. */
  lemma PresentStopped(ctx: Context, g: Layout, events: seq<Event>, i: nat)
    requires i <= |events|
    requires i == |events| || !PresentAll(ctx, g, events[..i]).completed
    ensures PresentAll(ctx, g, events) == PresentAll(ctx, g, events[..i])
  {
    PresentAllAppend(ctx, g, events[..i], events[i..]);
    assert events[..i] + events[i..] == events;
  }

  /** One round of the slide loop: the next event is presented, extending the presented prefix by one event. */
  method PresentNext(view: View, ghost ctx0: Context, events: seq<Event>, i: nat, ghost written: seq<Sym>) returns (ok: bool)
    requires view.Valid() && i < |events|
    requires PresentAll(ctx0, view.Frame(), events[..i]) == Trace(view.ctx, written, true)
    modifies view
    ensures view.Kept() && old(view.out) <= view.out
    ensures PresentAll(ctx0, view.Frame(), events[..i + 1]) == Trace(view.ctx, written + view.out[|old(view.out)|..], ok)
  {
    ghost var t := PresentStep(view.ctx, view.Frame(), events[i]);
    ok := PresentEvent(view, events[i]);
    PresentSnoc(ctx0, view.Frame(), events, i);
    assert view.out[|old(view.out)|..] == t.emitted;
  }

  lemma PresentSnoc(ctx: Context, g: Layout, events: seq<Event>, i: nat)
    requires i < |events|
    ensures PresentAll(ctx, g, events[..i + 1]) ==
            Then(PresentAll(ctx, g, events[..i]), PresentStep(PresentAll(ctx, g, events[..i]).ctx, g, events[i]))
  {
    var t := PresentAll(ctx, g, events[..i]);
    assert events[..i + 1] == events[..i] + [events[i]];
    PresentAllAppend(ctx, g, events[..i], [events[i]]);
    var s := PresentStep(t.ctx, g, events[i]);
    assert [events[i]][1..] == [];
    if s.completed {
      assert s.emitted + [] == s.emitted;
    }
  }
}
