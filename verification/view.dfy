/**
 * The terminal view (src/view.rs): layout geometry computed from the terminal
 * size, and a render context that decides how the text of the current markdown
 * construct is written. Every operation of the view is a transition of the
 * context plus the symbols it appends to the output; `Apply` states each
 * transition as a value and the class `View` performs it in place.
 *
 * A call that the source ends with a panic (`unreachable!`, `unimplemented!`,
 * or an arithmetic underflow) is a transition that yields `None`.
 */
module View {
  import opened Wrappers
  import opened Terminal

  datatype ListState = ParagraphFirst | ItemContinue | JustEnd

  datatype Context =
    | Default
    | Quote
    | Paragraph                 // declared by the source, never entered by any operation
    | CodeBlock(columns: nat)   // columns already written on the current code line
    | Image(loaded: bool)       // whether the image itself was shown
    | List(depth: nat, state: ListState)

  /** Cap on the content column, and the columns always kept free beside it. */
  const MaxWidth: nat := 80
  const SideColumns: nat := 4
  const TopMargin: nat := 2

  datatype Geometry = Geometry(width: nat, leftMargin: nat, rightMargin: nat, bottomMargin: nat)

  /** A geometry whose left margin leaves room for the cursor move after a newline. */
  type Layout = g: Geometry | 1 <= g.leftMargin witness Geometry(0, 1, 2, 0)

  /** The geometry `new` and `update` derive from the terminal size. */
  function ComputeLayout(termWidth: nat, termHeight: nat): (g: Layout)
    requires SideColumns <= termWidth
    ensures g.width <= MaxWidth && g.width + SideColumns <= termWidth
    ensures g.width == MaxWidth || g.width + SideColumns == termWidth
    ensures g.rightMargin == g.leftMargin + 1
    ensures g.leftMargin + g.width + g.rightMargin + 1 + (termWidth - g.width) % 2 == termWidth
    ensures g.bottomMargin * 10 <= termHeight < g.bottomMargin * 10 + 10
  {
    var width := if termWidth - SideColumns < MaxWidth then termWidth - SideColumns else MaxWidth;
    Geometry(width, (termWidth - width) / 2 - 1, (termWidth - width) / 2, termHeight / 10)
  }

  /** What `newline` writes: a line feed, then the cursor moved to the content column. */
  function NewlineOut(g: Layout): seq<Sym>
  {
    [Ch('\n'), Esc(CursorRight(g.leftMargin - 1))]
  }

  /** The one-column highlighted bar written before quoted text. */
  const QuoteBar: seq<Sym> := [Esc(BgLightWhite), Ch(' '), Esc(BgReset), Ch(' ')]

  /** Three columns per level of list indentation. */
  function Indent(levels: nat): string
  {
    Spaces(3 * levels)
  }

  predicate EndsInNewline(s: string)
  {
    |s| > 0 && s[|s| - 1] == '\n'
  }

  /** `s` with all its trailing line feeds removed. */
  function TrimNewlines(s: string): (r: string)
    ensures r <= s
    ensures !EndsInNewline(r)
    ensures forall i :: |r| <= i < |s| ==> s[i] == '\n'
  {
    if EndsInNewline(s) then TrimNewlines(s[..|s| - 1]) else s
  }

  /** The operations of the view that the event dispatch calls. */
  datatype Op =
    | ShowText(text: string)
    | Newline
    | StartCode | EndCode
    | StartCodeBlock | EndCodeBlock
    | StartItalic | EndItalic
    | StartBold | EndBold
    | StartParagraph | EndParagraph
    | StartQuote | EndQuote
    | StartList | EndList
    | StartItem | EndItem
    | StartHeader(level: int) | EndHeader(level: int)
    | StartImage(path: string, inlined: bool)
    | EndImage(path: string)

  datatype Render = Render(ctx: Context, emitted: seq<Sym>)

  /**
   * The transition of `show_text`. Column counts inside a code block are
   * UTF-8 byte counts, as `str::len` gives them.
   */
  function ShowTextStep(ctx: Context, g: Layout, text: string): (r: Option<Render>)
    ensures r.None? <==> ctx.CodeBlock? && EndsInNewline(text) && ctx.columns + ByteLen(TrimNewlines(text)) > g.width
    ensures ctx.CodeBlock? && !EndsInNewline(text) ==> r == Some(Render(CodeBlock(ctx.columns + ByteLen(text)), Chars(text)))
    ensures ctx.CodeBlock? && r.Some? && EndsInNewline(text) ==>
              var line := TrimNewlines(text);
              r.value == Render(CodeBlock(0), Chars(PadLine(ctx.columns, g.width, line)) + NewlineOut(g))
    ensures !ctx.CodeBlock? && !ctx.List? ==> r.Some? && r.value.ctx == ctx
    ensures ctx == Image(true) ==> r == Some(Render(ctx, []))
    ensures ctx.List? ==> r.Some? && r.value.ctx.List? && r.value.ctx.depth == ctx.depth
  {
    match ctx
    case Default => Some(Render(ctx, Chars(text)))
    case Paragraph => Some(Render(ctx, Chars(text)))
    case CodeBlock(i) =>
      if EndsInNewline(text) then
        var content := TrimNewlines(text);
        if i + ByteLen(content) <= g.width then
          Some(Render(CodeBlock(0), Chars(PadLine(i, g.width, content)) + NewlineOut(g)))
        else
          None
      else
        Some(Render(CodeBlock(i + ByteLen(text)), Chars(text)))
    case Quote => Some(Render(ctx, QuoteBar + Chars(text)))
    case List(depth, state) =>
      (match state
       case ParagraphFirst => Some(Render(List(depth, ItemContinue), Chars(text)))
       case ItemContinue => Some(Render(ctx, Chars(Indent(depth + 1)) + Chars(text)))
       case JustEnd => Some(Render(ctx, Chars(text))))
    case Image(loaded) => if loaded then Some(Render(ctx, [])) else Some(Render(ctx, Chars(text)))
  }

  /**
   * `show_text` outside a code block: plain contexts and an image not shown
   * write the text as is, a quote puts the bar before it, a loaded image
   * writes nothing. In a list the first text of an item is written as is and
   * moves the item on, later texts are indented one level past the item's
   * depth (aligned under the text after the bullet), and text after the item
   * ended is written as is.
   */
  lemma ShowTextOutsideCode(ctx: Context, g: Layout, text: string)
    ensures ctx == Default || ctx == Paragraph || ctx == Image(false) ==> ShowTextStep(ctx, g, text) == Some(Render(ctx, Chars(text)))
    ensures ctx == Image(true) ==> ShowTextStep(ctx, g, text) == Some(Render(ctx, []))
    ensures ctx == Quote ==> ShowTextStep(ctx, g, text) == Some(Render(Quote, QuoteBar + Chars(text)))
    ensures ctx.List? && ctx.state == ParagraphFirst ==>
              ShowTextStep(ctx, g, text) == Some(Render(List(ctx.depth, ItemContinue), Chars(text)))
    ensures ctx.List? && ctx.state == ItemContinue ==>
              ShowTextStep(ctx, g, text) == Some(Render(ctx, Chars(Indent(ctx.depth + 1) + text)))
    ensures ctx.List? && ctx.state == JustEnd ==> ShowTextStep(ctx, g, text) == Some(Render(ctx, Chars(text)))
  {
    if ctx.List? {
      CharsAppend(Indent(ctx.depth + 1), text);
    }
  }

  /** The transition of `start_paragraph`: never changes the context. */
  function StartParagraphStep(ctx: Context, g: Layout): (r: Render)
    ensures r.ctx == ctx
    ensures r.emitted == if ctx.List? && ctx.state == ParagraphFirst then [] else NewlineOut(g)
  {
    match ctx
    case List(_, ParagraphFirst) => Render(ctx, [])
    case _ => Render(ctx, NewlineOut(g))
  }

  /** The transition of `start_list`: one level deeper, fatal outside a list or the default context. */
  function StartListStep(ctx: Context, g: Layout): (r: Option<Render>)
    ensures r.Some? <==> ctx.Default? || ctx.List?
    ensures r.Some? ==> r.value.ctx == List(if ctx.List? then ctx.depth + 1 else 0, ParagraphFirst)
  {
    match ctx
    case Default => Some(Render(List(0, ParagraphFirst), NewlineOut(g)))
    case List(depth, _) => Some(Render(List(depth + 1, ParagraphFirst), NewlineOut(g)))
    case _ => None
  }

  /** The transition of `end_list`: one level up, back to the default context from the outermost list. */
  function EndListStep(ctx: Context, g: Layout): (r: Option<Render>)
    ensures r.Some? <==> ctx.List?
    ensures r.Some? && ctx.depth == 0 ==> r.value.ctx == Default
    ensures r.Some? && ctx.depth > 0 ==> r.value.ctx == List(ctx.depth - 1, ctx.state)
  {
    match ctx
    case List(depth, state) =>
      if depth == 0 then Some(Render(Default, NewlineOut(g)))
      else Some(Render(List(depth - 1, state), NewlineOut(g)))
    case _ => None
  }

  /** The transition of `start_item`: a bullet indented by the depth; fatal outside a list. */
  function StartItemStep(ctx: Context): (r: Option<Render>)
    ensures r.Some? <==> ctx.List?
    ensures r.Some? ==> r.value.ctx == List(ctx.depth, ParagraphFirst)
    ensures r.Some? ==> r.value.emitted == Chars(Indent(ctx.depth) + "+- ")
    ensures r.Some? ==> Visible(r.value.emitted) == Indent(ctx.depth) + "+- "
  {
    match ctx
    case List(depth, _) => VisibleChars(Indent(depth) + "+- "); Some(Render(List(depth, ParagraphFirst), Chars(Indent(depth) + "+- ")))
    case _ => None
  }

  /** The transition of `end_item`; fatal outside a list. */
  function EndItemStep(ctx: Context, g: Layout): (r: Option<Render>)
    ensures r.Some? <==> ctx.List?
    ensures r.Some? ==> r.value.ctx == List(ctx.depth, JustEnd)
    ensures r.Some? ==> r.value.emitted == if ctx.state == JustEnd then [] else NewlineOut(g)
  {
    match ctx
    case List(_, JustEnd) => Some(Render(ctx, []))
    case List(depth, _) => Some(Render(List(depth, JustEnd), NewlineOut(g)))
    case _ => None
  }

  /** One operation of the view. */
  function Apply(ctx: Context, g: Layout, op: Op): Option<Render>
  {
    match op
    case ShowText(text) => ShowTextStep(ctx, g, text)
    case Newline => Some(Render(ctx, NewlineOut(g)))
    case StartCode => Some(Render(ctx, [Esc(BgLightWhite), Esc(FgBlack)]))
    case EndCode => Some(Render(ctx, [Esc(FgReset), Esc(BgReset)]))
    case StartCodeBlock => Some(Render(CodeBlock(0), NewlineOut(g) + [Esc(BgLightWhite), Esc(FgBlack)]))
    case EndCodeBlock => Some(Render(Default, NewlineOut(g) + [Esc(FgReset), Esc(BgReset)]))
    case StartItalic => Some(Render(ctx, [Esc(Italic)]))
    case EndItalic => Some(Render(ctx, [Esc(NoItalic)]))
    case StartBold => Some(Render(ctx, [Esc(Bold)]))
    case EndBold => Some(Render(ctx, [Esc(StyleReset)]))
    case StartParagraph => Some(StartParagraphStep(ctx, g))
    case EndParagraph => Some(Render(ctx, NewlineOut(g)))
    case StartQuote => Some(Render(Quote, NewlineOut(g)))
    case EndQuote => Some(Render(Default, NewlineOut(g)))
    case StartList => StartListStep(ctx, g)
    case EndList => EndListStep(ctx, g)
    case StartItem => StartItemStep(ctx)
    case EndItem => EndItemStep(ctx, g)
    case StartHeader(_) => Some(Render(ctx, NewlineOut(g) + [Esc(FgLightCyan), Esc(Underline)]))
    case EndHeader(_) => Some(Render(ctx, [Esc(NoUnderline), Esc(FgReset)] + NewlineOut(g)))
    case StartImage(path, inlined) =>
      Some(Render(Image(inlined), (if inlined then [Esc(InlineImage(path)), Ch('\n')] else []) + NewlineOut(g)))
    case EndImage(_) => Some(Render(Default, []))
  }

  /**
   * The fatal cases of the view, and the context each structural operation
   * leaves behind.
   */
  lemma ApplyOutcome(ctx: Context, g: Layout, op: Op)
    ensures Apply(ctx, g, op).None? <==>
      || (op.ShowText? && ctx.CodeBlock? && EndsInNewline(op.text) && ctx.columns + ByteLen(TrimNewlines(op.text)) > g.width)
      || (op.StartList? && !ctx.Default? && !ctx.List?)
      || ((op.EndList? || op.StartItem? || op.EndItem?) && !ctx.List?)
    ensures Apply(ctx, g, op).Some? && !op.ShowText? && !op.StartList? && !op.EndList? && !op.StartItem? && !op.EndItem? ==>
      Apply(ctx, g, op).value.ctx == match op
        case StartCodeBlock => CodeBlock(0)
        case EndCodeBlock => Default
        case StartQuote => Quote
        case EndQuote => Default
        case StartImage(_, inlined) => Image(inlined)
        case EndImage(_) => Default
        case _ => ctx
  {
  }

  /** The result of a run of operations: the final context, what was written, and whether no operation was fatal. */
  datatype Trace = Trace(ctx: Context, emitted: seq<Sym>, completed: bool)

  /** Operations applied in order; a fatal one stops the run, keeping what was written before it. */
  function Run(ctx: Context, g: Layout, ops: seq<Op>): (t: Trace)
    decreases |ops|
  {
    if ops == [] then Trace(ctx, [], true)
    else match Apply(ctx, g, ops[0])
      case None => Trace(ctx, [], false)
      case Some(r) =>
        var rest := Run(r.ctx, g, ops[1..]);
        Trace(rest.ctx, r.emitted + rest.emitted, rest.completed)
  }

  function Repeat(op: Op, n: nat): (ops: seq<Op>)
    ensures |ops| == n && forall i :: 0 <= i < n ==> ops[i] == op
  {
    seq(n, _ => op)
  }

  function Concat(chunks: seq<string>): string
  {
    if chunks == [] then [] else chunks[0] + Concat(chunks[1..])
  }

  function TextOps(chunks: seq<string>): (ops: seq<Op>)
    ensures |ops| == |chunks| && forall i :: 0 <= i < |chunks| ==> ops[i] == ShowText(chunks[i])
  {
    seq(|chunks|, i requires 0 <= i < |chunks| => ShowText(chunks[i]))
  }

  /** Prefixes the output of a run with what was written before it. */
  function After(emitted: seq<Sym>, t: Trace): Trace
  {
    Trace(t.ctx, emitted + t.emitted, t.completed)
  }

  /** A run followed by another from where it stopped; a fatal first run stops there. */
  function Then(first: Trace, second: Trace): Trace
  {
    if first.completed then After(first.emitted, second) else first
  }

  lemma RunFirst(ctx: Context, g: Layout, ops: seq<Op>, r: Render)
    requires |ops| > 0 && Apply(ctx, g, ops[0]) == Some(r)
    ensures Run(ctx, g, ops) == After(r.emitted, Run(r.ctx, g, ops[1..]))
  {
  }

  lemma RunFatal(ctx: Context, g: Layout, ops: seq<Op>)
    requires |ops| > 0 && Apply(ctx, g, ops[0]).None?
    ensures Run(ctx, g, ops) == Trace(ctx, [], false)
  {
  }

  lemma AfterAfter(a: seq<Sym>, b: seq<Sym>, t: Trace)
    ensures After(a, After(b, t)) == After(a + b, t)
  {
    assert a + (b + t.emitted) == (a + b) + t.emitted;
  }

  /** Running `a + b` is running `a`, then `b` from the context `a` left, unless `a` was fatal. */
  lemma {:induction false} RunAppend(ctx: Context, g: Layout, a: seq<Op>, b: seq<Op>)
    ensures Run(ctx, g, a + b) == Then(Run(ctx, g, a), Run(Run(ctx, g, a).ctx, g, b))
    decreases |a|
  {
    if a == [] {
      assert a + b == b;
    } else {
      assert (a + b)[0] == a[0];
      assert (a + b)[1..] == a[1..] + b;
      var step := Apply(ctx, g, a[0]);
      if step.None? {
        RunFatal(ctx, g, a);
        RunFatal(ctx, g, a + b);
      } else {
        var r := step.value;
        RunFirst(ctx, g, a, r);
        RunFirst(ctx, g, a + b, r);
        RunAppend(r.ctx, g, a[1..], b);
        var ta := Run(r.ctx, g, a[1..]);
        AfterAfter(r.emitted, ta.emitted, Run(ta.ctx, g, b));
      }
    }
  }

  /** The chunk that ends a code line pads it to the content width. */
  lemma CodeLineEnd(i: nat, g: Layout, last: string)
    requires EndsInNewline(last)
    requires i + ByteLen(TrimNewlines(last)) <= g.width
    ensures var content := TrimNewlines(last);
            Run(CodeBlock(i), g, [ShowText(last)])
              == Trace(CodeBlock(0), Chars(PadLine(i, g.width, content)) + NewlineOut(g), true)
  {
    var content := TrimNewlines(last);
    var r := Render(CodeBlock(0), Chars(PadLine(i, g.width, content)) + NewlineOut(g));
    RunFirst(CodeBlock(i), g, [ShowText(last)], r);
    assert [ShowText(last)][1..] == [];
  }

  /**
   * A code line written in several chunks, the last one ending in a line
   * feed, fills exactly the content width in bytes: the chunks (line feeds
   * trimmed) followed by blanks up to `g.width`, then one newline; the
   * column count starts again at 0.
   */
  lemma {:induction false} CodeLineFillsWidth(i: nat, g: Layout, chunks: seq<string>, last: string)
    requires forall k :: 0 <= k < |chunks| ==> !EndsInNewline(chunks[k])
    requires EndsInNewline(last)
    requires i + ByteLen(Concat(chunks) + TrimNewlines(last)) <= g.width
    ensures Run(CodeBlock(i), g, TextOps(chunks + [last]))
              == Trace(CodeBlock(0), Chars(PadLine(i, g.width, Concat(chunks) + TrimNewlines(last))) + NewlineOut(g), true)
    decreases |chunks|
  {
    if chunks == [] {
      assert chunks + [last] == [last];
      assert Concat(chunks) + TrimNewlines(last) == TrimNewlines(last);
      CodeLineEnd(i, g, last);
    } else {
      var c := chunks[0];
      var tail := Concat(chunks[1..]) + TrimNewlines(last);
      assert Concat(chunks) + TrimNewlines(last) == c + tail;
      ByteLenAppend(c, tail);
      var more := TextOps(chunks[1..] + [last]);
      TextOpsFirst(chunks, last);
      var j := i + ByteLen(c);
      CodeChunk(i, j, g, c, more);
      CodeLineFillsWidth(j, g, chunks[1..], last);
      PadLineShift(i, j, g.width, c, tail);
      var rest := PadLine(j, g.width, tail);
      PrefixChars(c, rest, NewlineOut(g));
      calc {
        Run(CodeBlock(i), g, TextOps(chunks + [last]));
        After(Chars(c), Run(CodeBlock(j), g, more));
        After(Chars(c), Trace(CodeBlock(0), Chars(rest) + NewlineOut(g), true));
        Trace(CodeBlock(0), Chars(c + rest) + NewlineOut(g), true);
        Trace(CodeBlock(0), Chars(PadLine(i, g.width, c + tail)) + NewlineOut(g), true);
      }
    }
  }

  lemma TextOpsFirst(chunks: seq<string>, last: string)
    requires chunks != []
    ensures TextOps(chunks + [last]) == [ShowText(chunks[0])] + TextOps(chunks[1..] + [last])
  {
    assert (chunks + [last])[1..] == chunks[1..] + [last];
  }

  /** A code line padded with blanks from column `from` up to `width` bytes. */
  function PadLine(from: nat, width: nat, line: string): (r: string)
    requires from + ByteLen(line) <= width
    ensures from + ByteLen(r) == width
  {
    var fill := Spaces(width - from - ByteLen(line));
    ByteLenAppend(line, fill);
    ByteLenSpaces(width - from - ByteLen(line));
    line + fill
  }

  /** The padded line is the line followed by blanks only. */
  lemma PadLineBlanks(from: nat, width: nat, line: string)
    requires from + ByteLen(line) <= width
    ensures var r := PadLine(from, width, line);
            |line| <= |r| && r[..|line|] == line && forall j :: |line| <= j < |r| ==> r[j] == ' '
  {
    var fill := Spaces(width - from - ByteLen(line));
    assert (line + fill)[..|line|] == line;
  }

  /** Padding a line that starts with `c` pads the rest of it from the column after `c`. */
  lemma PadLineShift(from: nat, mid: nat, width: nat, c: string, tail: string)
    requires from + ByteLen(c + tail) <= width
    requires mid == from + ByteLen(c)
    ensures mid + ByteLen(tail) <= width
    ensures PadLine(from, width, c + tail) == c + PadLine(mid, width, tail)
  {
    ByteLenAppend(c, tail);
    var fill := Spaces(width - from - ByteLen(c + tail));
    assert c + tail + fill == c + (tail + fill);
  }

  /** A code-block text ending in a line feed that fits writes its line, then the blanks up to the width, then a newline. */
  lemma CodeLineWrites(i: nat, g: Layout, text: string)
    requires EndsInNewline(text) && i + ByteLen(TrimNewlines(text)) <= g.width
    ensures var content := TrimNewlines(text);
            ShowTextStep(CodeBlock(i), g, text)
              == Some(Render(CodeBlock(0), Chars(content) + Chars(Spaces(g.width - i - ByteLen(content))) + NewlineOut(g)))
  {
    var content := TrimNewlines(text);
    CharsAppend(content, Spaces(g.width - i - ByteLen(content)));
  }

  /** A chunk without a line feed is written as is and advances the column count by its bytes. */
  lemma CodeChunk(i: nat, j: nat, g: Layout, c: string, ops: seq<Op>)
    requires !EndsInNewline(c) && j == i + ByteLen(c)
    ensures Run(CodeBlock(i), g, [ShowText(c)] + ops) == After(Chars(c), Run(CodeBlock(j), g, ops))
  {
    var all := [ShowText(c)] + ops;
    assert all[1..] == ops;
    RunFirst(CodeBlock(i), g, all, Render(CodeBlock(j), Chars(c)));
  }

  lemma PrefixChars(c: string, s: string, tail: seq<Sym>)
    ensures Chars(c) + (Chars(s) + tail) == Chars(c + s) + tail
  {
    CharsAppend(c, s);
  }

  function Newlines(g: Layout, n: nat): seq<Sym>
  {
    if n == 0 then [] else NewlineOut(g) + Newlines(g, n - 1)
  }

  lemma {:induction false} NewlinesAdd(g: Layout, m: nat, n: nat)
    ensures Newlines(g, m) + Newlines(g, n) == Newlines(g, m + n)
    decreases m
  {
    if m > 0 {
      NewlinesAdd(g, m - 1, n);
      assert NewlineOut(g) + (Newlines(g, m - 1) + Newlines(g, n)) == (NewlineOut(g) + Newlines(g, m - 1)) + Newlines(g, n);
    }
  }

  /**
   * `n` nested `start_list` calls go `n` levels deeper than the list they
   * start in, or `n - 1` levels deep from the default context, writing one
   * newline each.
   */
  lemma {:induction false} StartListsDeepen(ctx: Context, g: Layout, n: nat)
    requires ctx.Default? || ctx.List?
    requires n > 0
    ensures var depth := if ctx.List? then ctx.depth + n else n - 1;
            Run(ctx, g, Repeat(StartList, n)) == Trace(List(depth, ParagraphFirst), Newlines(g, n), true)
    decreases n
  {
    var ops := Repeat(StartList, n);
    var next := List(if ctx.List? then ctx.depth + 1 else 0, ParagraphFirst);
    var r := Render(next, NewlineOut(g));
    assert Apply(ctx, g, ops[0]) == Some(r);
    RunFirst(ctx, g, ops, r);
    if n == 1 {
      assert ops[1..] == [];
    } else {
      assert ops[1..] == Repeat(StartList, n - 1);
      StartListsDeepen(next, g, n - 1);
    }
  }

  /** `n` `end_list` calls from depth `d + n` come back to depth `d`, keeping the item phase. */
  lemma {:induction false} EndListsRise(d: nat, s: ListState, g: Layout, n: nat)
    ensures Run(List(d + n, s), g, Repeat(EndList, n)) == Trace(List(d, s), Newlines(g, n), true)
    decreases n
  {
    var ops := Repeat(EndList, n);
    if n > 0 {
      var r := Render(List(d + n - 1, s), NewlineOut(g));
      assert Apply(List(d + n, s), g, ops[0]) == Some(r);
      RunFirst(List(d + n, s), g, ops, r);
      assert ops[1..] == Repeat(EndList, n - 1);
      EndListsRise(d, s, g, n - 1);
    }
  }

  /**
   * Nested lists are balanced: `n` list starts followed by `n` list ends
   * bring the default context back, with one newline written per call.
   */
  lemma NestedListsBalance(g: Layout, n: nat)
    requires n > 0
    ensures Run(Default, g, Repeat(StartList, n) + Repeat(EndList, n)) == Trace(Default, Newlines(g, 2 * n), true)
  {
    StartListsDeepen(Default, g, n);
    RunAppend(Default, g, Repeat(StartList, n), Repeat(EndList, n));
    EndListsToDefault(g, n);
    NewlinesAdd(g, n, n);
  }

  /** `n` `end_list` calls from depth `n - 1` leave the list, writing one newline each. */
  lemma EndListsToDefault(g: Layout, n: nat)
    requires n > 0
    ensures Run(List(n - 1, ParagraphFirst), g, Repeat(EndList, n)) == Trace(Default, Newlines(g, n), true)
  {
    var m := n - 1;
    EndListsRise(0, ParagraphFirst, g, m);
    var rise := Run(List(m, ParagraphFirst), g, Repeat(EndList, m));
    assert rise == Trace(List(0, ParagraphFirst), Newlines(g, m), true);
    var r := Render(Default, NewlineOut(g));
    RunFirst(List(0, ParagraphFirst), g, [EndList], r);
    assert [EndList][1..] == [];
    assert Newlines(g, 1) == NewlineOut(g);
    var last := Run(List(0, ParagraphFirst), g, [EndList]);
    assert last == Trace(Default, Newlines(g, 1), true);
    assert Repeat(EndList, n) == Repeat(EndList, m) + [EndList];
    RunAppend(List(m, ParagraphFirst), g, Repeat(EndList, m), [EndList]);
    NewlinesAdd(g, m, 1);
  }

  /** `end_item` is idempotent: a second call writes nothing and changes nothing. */
  lemma EndItemIdempotent(ctx: Context, g: Layout)
    requires ctx.List?
    ensures var r := Apply(ctx, g, EndItem);
            r.Some? && Apply(r.value.ctx, g, EndItem) == Some(Render(r.value.ctx, []))
  {
  }

  /**
   * The context is a single value, not a stack: a block quote inside a list
   * item resets it to `Default` on `end_quote`, so the `end_item` that follows
   * is fatal.
   */
  lemma QuoteInsideListItemIsFatal(ctx: Context, g: Layout)
    requires ctx.List?
    ensures var t := Run(ctx, g, [StartQuote, EndQuote, EndItem]); !t.completed && t.ctx == Default
  {
    var ops := [StartQuote, EndQuote, EndItem];
    assert ops[1..] == [EndQuote, EndItem];
    assert ops[2..] == [EndItem];
    assert Run(Default, g, ops[2..]) == Trace(Default, [], false);
    assert Run(Quote, g, ops[1..]).ctx == Default;
  }

  /**
   * A list item's second paragraph lines up with the text of its first: the
   * bullet and the indentation after it are equally wide, and the first
   * paragraph's text follows the bullet directly.
   */
  lemma ItemParagraphsAligned(d: nat, s: ListState, g: Layout, a: string, b: string)
    ensures |Indent(d) + "+- "| == |Indent(d + 1)|
    ensures Run(List(d, s), g, [StartItem, StartParagraph, ShowText(a), EndParagraph, StartParagraph, ShowText(b)])
              == Trace(List(d, ItemContinue),
                       Chars(Indent(d) + "+- ") + Chars(a) + NewlineOut(g) + NewlineOut(g) + Chars(Indent(d + 1) + b),
                       true)
  {
    var opening := [StartItem, StartParagraph, ShowText(a)];
    var later := [EndParagraph, StartParagraph, ShowText(b)];
    assert opening + later == [StartItem, StartParagraph, ShowText(a), EndParagraph, StartParagraph, ShowText(b)];
    FirstParagraph(d, s, g, a);
    LaterParagraph(d, g, b);
    RunAppend(List(d, s), g, opening, later);
    var bullet := Chars(Indent(d) + "+- ") + Chars(a);
    var rest := NewlineOut(g) + NewlineOut(g) + Chars(Indent(d + 1) + b);
    assert bullet + rest == Chars(Indent(d) + "+- ") + Chars(a) + NewlineOut(g) + NewlineOut(g) + Chars(Indent(d + 1) + b);
  }

  /** An item's first paragraph: the bullet, then the text right after it. */
  lemma FirstParagraph(d: nat, s: ListState, g: Layout, a: string)
    ensures Run(List(d, s), g, [StartItem, StartParagraph, ShowText(a)])
              == Trace(List(d, ItemContinue), Chars(Indent(d) + "+- ") + Chars(a), true)
  {
    var ops := [StartItem, StartParagraph, ShowText(a)];
    var first := List(d, ParagraphFirst);
    ShowTextOutsideCode(first, g, a);
    assert ops[2..][1..] == [];
    RunFirst(first, g, ops[2..], Render(List(d, ItemContinue), Chars(a)));
    assert ops[1..][1..] == ops[2..];
    RunFirst(first, g, ops[1..], Render(first, []));
    RunFirst(List(d, s), g, ops, Render(first, Chars(Indent(d) + "+- ")));
    assert Chars(Indent(d) + "+- ") + ([] + (Chars(a) + [])) == Chars(Indent(d) + "+- ") + Chars(a);
  }

  /** A later paragraph of a list item starts on a new line, indented past the bullet. */
  lemma LaterParagraph(d: nat, g: Layout, b: string)
    ensures Run(List(d, ItemContinue), g, [EndParagraph, StartParagraph, ShowText(b)])
              == Trace(List(d, ItemContinue), NewlineOut(g) + NewlineOut(g) + Chars(Indent(d + 1) + b), true)
  {
    var ops := [EndParagraph, StartParagraph, ShowText(b)];
    var next := List(d, ItemContinue);
    var nl := NewlineOut(g);
    ShowTextOutsideCode(next, g, b);
    assert ops[2..][1..] == [];
    RunFirst(next, g, ops[2..], Render(next, Chars(Indent(d + 1) + b)));
    assert ops[1..][1..] == ops[2..];
    RunFirst(next, g, ops[1..], Render(next, nl));
    RunFirst(next, g, ops, Render(next, nl));
    assert nl + (nl + (Chars(Indent(d + 1) + b) + [])) == nl + nl + Chars(Indent(d + 1) + b);
  }

  /**
   * The view: terminal size, derived geometry, render context, and the
   * symbols written so far (the model of its output stream).
   */
  class View {
    var termWidth: nat
    var termHeight: nat
    var width: nat
    var leftMargin: nat
    var rightMargin: nat
    var topMargin: nat
    var bottomMargin: nat
    var ctx: Context
    var out: seq<Sym>

    ghost predicate Valid()
      reads this
    {
      && SideColumns <= termWidth
      && Geometry(width, leftMargin, rightMargin, bottomMargin) == ComputeLayout(termWidth, termHeight)
    }

    function Frame(): (g: Layout)
      reads this
      requires Valid()
      ensures g == ComputeLayout(termWidth, termHeight)
    {
      Geometry(width, leftMargin, rightMargin, bottomMargin)
    }

    /** The terminal size and the geometry derived from it are unchanged. */
    twostate predicate Kept()
      reads this
    {
      && old(Valid()) && Valid()
      && termWidth == old(termWidth) && termHeight == old(termHeight) && topMargin == old(topMargin)
      && Frame() == old(Frame())
    }

    /** The view operation `op` was performed: same geometry, and the context and output `Apply` gives, or nothing changed if fatal. */
    twostate predicate Stepped(op: Op, ok: bool)
      reads this
    {
      && Kept()
      && var r := Apply(old(ctx), Frame(), op);
         && (ok <==> r.Some?)
         && if ok then ctx == r.value.ctx && out == old(out) + r.value.emitted
            else ctx == old(ctx) && out == old(out)
    }

    constructor (termWidth: nat, termHeight: nat)
      requires SideColumns <= termWidth
      ensures Valid() && Frame() == ComputeLayout(termWidth, termHeight)
      ensures this.termWidth == termWidth && this.termHeight == termHeight
      ensures topMargin == TopMargin && ctx == Default && out == []
    {
      var width := if termWidth - SideColumns < MaxWidth then termWidth - SideColumns else MaxWidth;
      this.termWidth := termWidth;
      this.termHeight := termHeight;
      this.width := width;
      leftMargin := (termWidth - width) / 2 - 1;
      rightMargin := (termWidth - width) / 2;
      topMargin := TopMargin;
      bottomMargin := termHeight / 10;
      ctx := Default;
      out := [];
    }

    /** Recomputes the geometry for a new terminal size; the top margin, context and output stay. */
    method Update(termWidth: nat, termHeight: nat)
      requires SideColumns <= termWidth
      modifies this
      ensures Valid() && Frame() == ComputeLayout(termWidth, termHeight)
      ensures this.termWidth == termWidth && this.termHeight == termHeight
      ensures topMargin == old(topMargin) && ctx == old(ctx) && out == old(out)
    {
      var width := if termWidth - SideColumns < MaxWidth then termWidth - SideColumns else MaxWidth;
      this.termWidth := termWidth;
      this.termHeight := termHeight;
      this.width := width;
      leftMargin := (termWidth - width) / 2 - 1;
      rightMargin := (termWidth - width) / 2;
      bottomMargin := termHeight / 10;
    }

    /** The bottom-right corner used for the status line; it lies right of the content column and inside the terminal. */
    method RightBottom() returns (right: nat, bottom: nat)
      requires Valid()
      ensures right == termWidth - rightMargin && bottom == termHeight - bottomMargin
      ensures leftMargin + width < right <= termWidth
      ensures bottom <= termHeight && termHeight * 9 <= bottom * 10
    {
      bottom := termHeight - bottomMargin;
      right := termWidth - rightMargin;
    }

    method Newline()
      requires Valid()
      modifies this
      ensures Stepped(Op.Newline, true)
    {
      out := out + NewlineOut(Frame());
    }

    method Write(syms: seq<Sym>)
      requires Valid()
      modifies this
      ensures Valid() && Frame() == old(Frame()) && termWidth == old(termWidth) && termHeight == old(termHeight)
      ensures topMargin == old(topMargin) && ctx == old(ctx) && out == old(out) + syms
    {
      out := out + syms;
    }

    /** Writes `levels` indentation steps of three blanks, one at a time. */
    method WriteIndent(levels: nat)
      requires Valid()
      modifies this
      ensures Valid() && Frame() == old(Frame()) && termWidth == old(termWidth) && termHeight == old(termHeight)
      ensures topMargin == old(topMargin) && ctx == old(ctx) && out == old(out) + Chars(Indent(levels))
    {
      var k := 0;
      while k < levels
        invariant k <= levels
        invariant Valid() && Frame() == old(Frame()) && termWidth == old(termWidth) && termHeight == old(termHeight)
        invariant topMargin == old(topMargin) && ctx == old(ctx)
        invariant out == old(out) + Chars(Indent(k))
      {
        SpacesAppend(3 * k, 3);
        CharsAppend(Indent(k), "   ");
        out := out + Chars("   ");
        k := k + 1;
      }
    }

    /** `show_text` inside a code block: the column count grows, and a line feed pads the line to the content width. */
    method ShowCodeText(i: nat, text: string) returns (ok: bool)
      requires Valid() && ctx == CodeBlock(i)
      modifies this
      ensures Stepped(Op.ShowText(text), ok)
    {
      if EndsInNewline(text) {
        ok := EndCodeLine(i, text);
      } else {
        Write(Chars(text));
        ctx := CodeBlock(i + ByteLen(text));
        ok := true;
      }
    }

    /** A code-block text ending in a line feed: the line is padded with blanks to the content width, or the view fails when it overflows. */
    method EndCodeLine(i: nat, text: string) returns (ok: bool)
      requires Valid() && ctx == CodeBlock(i) && EndsInNewline(text)
      modifies this
      ensures Stepped(Op.ShowText(text), ok)
    {
      var content := TrimNewlines(text);
      if i + ByteLen(content) > width {
        return false;
      }
      var fill := Spaces(width - i - ByteLen(content));
      ghost var g := Frame();
      ghost var emitted := Chars(content) + Chars(fill) + NewlineOut(g);
      CodeLineWrites(i, g, text);
      assert Apply(CodeBlock(i), g, Op.ShowText(text)) == Some(Render(CodeBlock(0), emitted));
      Write(Chars(content));
      Write(Chars(fill));
      Newline();
      ctx := CodeBlock(0);
      assert out == old(out) + emitted;
      ok := true;
    }

    /** `show_text` inside a list: the first text of an item is written as is, later texts are indented past the bullet. */
    method ShowListText(depth: nat, state: ListState, text: string)
      requires Valid() && ctx == List(depth, state)
      modifies this
      ensures Stepped(Op.ShowText(text), true)
    {
      match state {
        case ParagraphFirst => ctx := List(depth, ItemContinue);
        case ItemContinue =>
          WriteIndent(1);
          WriteIndent(depth);
          SpacesAppend(3, 3 * depth);
          CharsAppend(Indent(1), Indent(depth));
        case JustEnd =>
      }
      Write(Chars(text));
    }

    method ShowText(text: string) returns (ok: bool)
      requires Valid()
      modifies this
      ensures Stepped(Op.ShowText(text), ok)
    {
      ok := true;
      match ctx {
        case Default => Write(Chars(text));
        case Paragraph => Write(Chars(text));
        case CodeBlock(i) => ok := ShowCodeText(i, text);
        case Quote =>
          Write(QuoteBar);
          Write(Chars(text));
        case List(depth, state) => ShowListText(depth, state, text);
        case Image(loaded) =>
          if !loaded {
            Write(Chars(text));
          }
      }
    }

    method StartCode()
      requires Valid()
      modifies this
      ensures Stepped(Op.StartCode, true)
    {
      Write([Esc(BgLightWhite)]);
      Write([Esc(FgBlack)]);
    }

    method EndCode()
      requires Valid()
      modifies this
      ensures Stepped(Op.EndCode, true)
    {
      Write([Esc(FgReset)]);
      Write([Esc(BgReset)]);
    }

    method StartCodeBlock()
      requires Valid()
      modifies this
      ensures Stepped(Op.StartCodeBlock, true)
    {
      ctx := CodeBlock(0);
      Newline();
      Write([Esc(BgLightWhite)]);
      Write([Esc(FgBlack)]);
    }

    method EndCodeBlock()
      requires Valid()
      modifies this
      ensures Stepped(Op.EndCodeBlock, true)
    {
      ctx := Default;
      Newline();
      Write([Esc(FgReset)]);
      Write([Esc(BgReset)]);
    }

    method StartItalic()
      requires Valid()
      modifies this
      ensures Stepped(Op.StartItalic, true)
    {
      Write([Esc(Italic)]);
    }

    method EndItalic()
      requires Valid()
      modifies this
      ensures Stepped(Op.EndItalic, true)
    {
      Write([Esc(NoItalic)]);
    }

    method StartBold()
      requires Valid()
      modifies this
      ensures Stepped(Op.StartBold, true)
    {
      Write([Esc(Bold)]);
    }

    method EndBold()
      requires Valid()
      modifies this
      ensures Stepped(Op.EndBold, true)
    {
      Write([Esc(StyleReset)]);
    }

    method StartParagraph()
      requires Valid()
      modifies this
      ensures Stepped(Op.StartParagraph, true)
    {
      match ctx {
        case List(_, ParagraphFirst) =>
        case _ => Newline();
      }
    }

    method EndParagraph()
      requires Valid()
      modifies this
      ensures Stepped(Op.EndParagraph, true)
    {
      Newline();
    }

    method StartQuote()
      requires Valid()
      modifies this
      ensures Stepped(Op.StartQuote, true)
    {
      ctx := Quote;
      Newline();
    }

    method EndQuote()
      requires Valid()
      modifies this
      ensures Stepped(Op.EndQuote, true)
    {
      ctx := Default;
      Newline();
    }

    method StartList() returns (ok: bool)
      requires Valid()
      modifies this
      ensures Stepped(Op.StartList, ok)
    {
      match ctx {
        case Default => ctx := List(0, ParagraphFirst);
        case List(depth, _) => ctx := List(depth + 1, ParagraphFirst);
        case _ => return false;
      }
      Newline();
      ok := true;
    }

    method EndList() returns (ok: bool)
      requires Valid()
      modifies this
      ensures Stepped(Op.EndList, ok)
    {
      match ctx {
        case List(depth, state) =>
          if depth == 0 {
            ctx := Default;
          } else {
            ctx := List(depth - 1, state);
          }
        case _ => return false;
      }
      Newline();
      ok := true;
    }

    method StartItem() returns (ok: bool)
      requires Valid()
      modifies this
      ensures Stepped(Op.StartItem, ok)
    {
      match ctx {
        case List(depth, _) =>
          WriteIndent(depth);
          Write(Chars("+- "));
          CharsAppend(Indent(depth), "+- ");
          ctx := List(depth, ParagraphFirst);
          ok := true;
        case _ => ok := false;
      }
    }

    method EndItem() returns (ok: bool)
      requires Valid()
      modifies this
      ensures Stepped(Op.EndItem, ok)
    {
      match ctx {
        case List(_, JustEnd) => ok := true;
        case List(depth, _) =>
          ctx := List(depth, JustEnd);
          Newline();
          ok := true;
        case _ => ok := false;
      }
    }

    method StartHeader(level: int)
      requires Valid()
      modifies this
      ensures Stepped(Op.StartHeader(level), true)
    {
      Newline();
      Write([Esc(FgLightCyan), Esc(Underline)]);
    }

    method EndHeader(level: int)
      requires Valid()
      modifies this
      ensures Stepped(Op.EndHeader(level), true)
    {
      Write([Esc(NoUnderline), Esc(FgReset)]);
      Newline();
    }

    /**
     * `inlined` is the outcome of the inline-image protocol for `path`, which
     * depends on the file system and the terminal and is not modelled.
     */
    method StartImage(path: string, inlined: bool)
      requires Valid()
      modifies this
      ensures Stepped(Op.StartImage(path, inlined), true)
    {
      if inlined {
        Write([Esc(InlineImage(path)), Ch('\n')]);
        ctx := Image(true);
      } else {
        ctx := Image(false);
      }
      Newline();
    }

    method EndImage(path: string)
      requires Valid()
      modifies this
      ensures Stepped(Op.EndImage(path), true)
    {
      ctx := Default;
    }
  }
}
