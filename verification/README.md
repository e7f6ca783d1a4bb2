# mdp-rs: markdown slides in the terminal, modelled in Dafny

mdp-rs shows a markdown file as a deck of slides in a terminal. This project
models its core:

- **the splitter** (`src/split.rs`). It cuts the document text into slides at
  horizontal rules and fetches the images it meets: synchronously on the first
  slide and in the background afterwards.
- **the view** (`src/view.rs`). It holds the layout geometry derived from the
  terminal size. It also holds a render context (default, quote, code block,
  image, list with depth and item phase) that decides how each piece of text
  is written.
- **the event dispatch** (`src/present.rs`). It routes each markdown event to
  view operations. A slide is presented by feeding its events to the view in
  order, stopping at the first fatal one.
- **the deck** (`src/deck.rs`). It holds slides of elements and a cursor that
  `next` and `previous` move without leaving the deck. It also defines how a
  title element prints.
- **text filling** (`src/style.rs`). `text_fill_column` greedily breaks text
  into lines of words. `_code_fill_column` pads each code line to the column
  width.
- **the terminalizer** (`src/term.rs`). It renders events into a buffer of
  terminal output and pushes one slide per rule end onto a deck.
- **the document parser** (`src/markdown.rs`). It collects the text of the
  events into typed lines and cuts slides at rules.

The markdown tokenizer (pulldown-cmark) is outside the model. Its output is
a sequence of `Events.Event` values. For the splitter, each event is paired
with the offset the tokenizer reached after it. Terminal output is a
sequence of `Terminal.Sym`: printable characters plus opaque escape tokens
(colours, styles, cursor moves, inline images). `Terminal.Visible` keeps
the printable part.

A call that panics in the source is modelled as a failure outcome, not as a
precondition. Such panics are `unreachable!`, `unimplemented!`,
`process::exit`, an out-of-order slice or an unsigned underflow. The
failure outcome is `None` from a view transition, `ok == false` from a
view method, `Abort` from the splitter, or `None` from `CodeFillColumn`.
Two exceptions are listed under "Left out".

Stateful parts are classes:

- `View.View`: the fields of `struct View` plus the written output.
- `Split.Splitter`: the splitter's offsets and flag.
- `Deck.Deck` and `Deck.Slide`.
- `Term.Ctx`.

Each method is proved against a pure step function: `View.Apply`,
`Split.NextStep`, `Term.Emit`, `Style.Groups` or `Markdown.Document`. The
properties of those functions are lemmas.

## Model

| member | source | states |
|---|---|---|
| View.ComputeLayout | src/view.rs:46-79 | The content width is at most 80 and leaves at least 4 columns free; it is 80 or exactly the terminal width minus 4. The right margin is one column wider than the left. The margins, the width and the odd leftover column add up to the terminal width. The bottom margin is a tenth of the height, rounded down. |
| View.TrimNewlines | src/view.rs:128-138 | The result is a prefix of the text, does not end in a line feed, and everything cut off is line feeds. |
| View.ShowTextStep | src/view.rs:123-170 | Showing text is fatal exactly when a code line ending in a line feed would overflow the content width, counted in UTF-8 bytes as `str::len` counts. A code chunk without a line feed is written as is and advances the column count by its bytes. A chunk ending a line writes the line padded by `PadLine` up to the width, then a newline, and resets the column to 0. Outside lists and code blocks the context is kept. A loaded image suppresses its title. In a list the depth is kept. |
| View.ShowTextOutsideCode | src/view.rs:124-168 | Outside a code block: the default and paragraph contexts and an image not shown write the text unchanged; a quote writes the bar escape first; a loaded image writes nothing. In a list the first text of an item is written unchanged and moves the item to its continuation; later texts are indented by one level more than the depth; text after the item ended is written unchanged. |
| View.StartParagraphStep | src/view.rs:220-225 | The context is kept. Nothing is written for the first paragraph of a list item; otherwise exactly one newline. |
| View.StartListStep | src/view.rs:241-252 | Succeeds exactly in the default context or in a list. It enters a list one level deeper (level 0 from the default context) at the item's first paragraph. |
| View.EndListStep | src/view.rs:254-268 | Succeeds exactly inside a list. The outermost list returns to the default context; a nested one goes one level up and keeps the item phase. |
| View.StartItemStep | src/view.rs:270-280 | Succeeds exactly inside a list. It resets the phase to first paragraph and writes exactly the bullet `+- ` indented by three columns per level. |
| View.EndItemStep | src/view.rs:282-293 | Succeeds exactly inside a list. The phase becomes just-ended at the same depth. Nothing is written if the item had already ended; otherwise exactly one newline. |
| View.ApplyOutcome | src/view.rs:123-322 | Characterises exactly which view operations are fatal in which contexts. Gives the context every non-list operation leaves behind (code block at column 0, default, quote, image, or unchanged). |
| View.RunAppend | src/present.rs:21-25 | Running two sequences of view operations is running the first, then the second from where it stopped, unless the first was fatal. |
| View.CodeLineEnd | src/view.rs:128-139 | The chunk ending a code line writes the trimmed line padded with blanks to the content width, then a newline, and returns to column 0. |
| View.CodeChunk | src/view.rs:140-143 | A chunk without a line feed is written unchanged and advances the column count by its length in bytes. |
| View.CodeLineFillsWidth | src/view.rs:127-144 | A code line written in any number of chunks fills exactly the content width in bytes: the chunks (trailing line feeds removed) padded by `PadLine`, then one newline. The column count starts again at 0. |
| View.PadLine | src/view.rs:131-133 | The padded line, started at column `from`, ends exactly at the width in bytes (`cols - content.len() - i` blanks). |
| View.PadLineBlanks | src/view.rs:133-136 | The padded line starts with the line itself and every symbol after it is a blank. |
| View.PadLineShift | src/view.rs:127-144 | Padding a line that starts with a chunk `c` from column `i` is `c` followed by the rest padded from column `i` plus the bytes of `c`; this is what lets a line arrive in chunks. |
| View.CodeLineWrites | src/view.rs:128-138 | A fitting code text ending in a line feed writes the trimmed line, `width - i - bytes` blanks and a newline, and returns to column 0. |
| View.StartListsDeepen | src/view.rs:241-252 | `n` nested list starts go `n` levels deeper, writing one newline each. |
| View.EndListsRise | src/view.rs:254-268 | `n` list ends go `n` levels up, keeping the item phase and writing one newline each. |
| View.EndListsToDefault | src/view.rs:254-268 | `n` list ends from depth `n - 1` leave the list and return to the default context. |
| View.NestedListsBalance | src/view.rs:241-268 | `n` list starts followed by `n` list ends bring back the default context, with `2n` newlines written. |
| View.EndItemIdempotent | src/view.rs:282-293 | A second `end_item` writes nothing and changes nothing. |
| View.QuoteInsideListItemIsFatal | src/view.rs:231-293 | The context is a single value, not a stack. From any list context, a block quote loses the list, so the following `end_item` is fatal and the view is left in the default context. |
| View.ItemParagraphsAligned | src/view.rs:154-166 | The bullet `+- ` after the item's indentation is exactly as wide as one more level of indentation. An item with two paragraphs writes the bullet and the first text on one line, two newlines, then the second text indented one level past the item, so the two texts line up. |
| View.FirstParagraph | src/view.rs:154-158 | An item's first paragraph writes the bullet and then its text directly after it, moving the item to its continuation. |
| View.LaterParagraph | src/view.rs:159-162 | A later paragraph of an item writes two newlines (end and start of paragraph) and then its text indented one level past the item. |
| View.View.Frame | src/view.rs:9-21 | The geometry fields of the view are those derived from the terminal size. |
| View.View.constructor | src/view.rs:46-66 | A new view has the derived geometry, top margin 2, the default context and no output. |
| View.View.Update | src/view.rs:68-79 | The geometry is recomputed from the new terminal size; the context, the output and the top margin are kept. |
| View.View.RightBottom | src/view.rs:109-113 | The corner is exactly the terminal width minus the right margin and the terminal height minus the bottom margin. The right edge lies past the content column and within the terminal. The bottom edge lies within the terminal and at or below nine tenths of its height. |
| View.View.Newline | src/view.rs:105-107 | Writes a line feed and moves the cursor to the content column; the context is kept. |
| View.View.Write | src/view.rs:326-328 | Appends the symbols to the output and changes nothing else. |
| View.View.WriteIndent | src/view.rs:159-161 | Appends the list indentation for the given levels and changes nothing else. |
| View.View.ShowCodeText | src/view.rs:127-144 | Performs the code-block transition of `show_text`: a chunk without a line feed is written and the column advances by its bytes; a line end goes to `EndCodeLine`. |
| View.View.EndCodeLine | src/view.rs:128-139 | Writes the trimmed line, the blanks and a newline, returning to column 0, exactly as `ShowTextStep` gives; fails without writing when the line would overflow the width. |
| View.View.ShowListText | src/view.rs:154-166 | Performs the list transition of `show_text`. |
| View.View.ShowText | src/view.rs:123-170 | Performs exactly the transition `ShowTextStep` gives, keeping the geometry. On failure nothing changes. |
| View.View.StartCode | src/view.rs:180-183 | Inline code starts with background and foreground colours; the context is kept. |
| View.View.EndCode | src/view.rs:185-188 | Inline code ends by resetting the colours; the context is kept. |
| View.View.StartCodeBlock | src/view.rs:190-195 | A code block starts on a new line with code colours, at column 0. |
| View.View.EndCodeBlock | src/view.rs:197-202 | A code block ends with a newline and a colour reset, back in the default context. |
| View.View.StartItalic | src/view.rs:204-206 | Writes the italic escape; nothing else changes. |
| View.View.EndItalic | src/view.rs:208-210 | Writes the no-italic escape; nothing else changes. |
| View.View.StartBold | src/view.rs:212-214 | Writes the bold escape; nothing else changes. |
| View.View.EndBold | src/view.rs:216-218 | Writes the style reset; nothing else changes. |
| View.View.StartParagraph | src/view.rs:220-225 | Performs the `StartParagraphStep` transition. |
| View.View.EndParagraph | src/view.rs:227-229 | Writes a newline; the context is kept. |
| View.View.StartQuote | src/view.rs:231-234 | Enters the quote context after a newline. |
| View.View.EndQuote | src/view.rs:236-239 | Returns to the default context after a newline. |
| View.View.StartList | src/view.rs:241-252 | Performs `StartListStep`, or fails without change outside the default context and lists. |
| View.View.EndList | src/view.rs:254-268 | Performs `EndListStep`, or fails without change outside a list. |
| View.View.StartItem | src/view.rs:270-280 | Performs `StartItemStep`, or fails without change outside a list. |
| View.View.EndItem | src/view.rs:282-293 | Performs `EndItemStep`, or fails without change outside a list. |
| View.View.StartHeader | src/view.rs:295-298 | A header starts on a new line in cyan, underlined; the context is kept. |
| View.View.EndHeader | src/view.rs:300-308 | A header ends by resetting underline and colour, then a newline. |
| View.View.StartImage | src/view.rs:310-317 | Enters the image context. An inlined image is written, then a line feed, then a newline. |
| View.View.EndImage | src/view.rs:319-322 | Returns to the default context, writing nothing. |
| Present.Route | src/present.rs:29-62 | The dispatch table: emphasis, strong text, inline code, headers (with their level), code blocks, paragraphs, block quotes, lists and items start and end with their own view operation. Text shows the text, a soft break is one newline and a hard break two. Exactly rules, footnote definitions, tables and their parts, links and images map to no operation. Html, inline Html and footnote references are exactly the unsupported events. No event calls an image operation. |
| Present.PresentAllIsRun | src/present.rs:21-25 | With no unsupported event, presenting the events equals running the concatenation of their view operations. |
| Present.UnsupportedStops | src/present.rs:54-56 | An unsupported event aborts the presentation; nothing after it is presented. |
| Present.PresentAllAppend | src/present.rs:21-25 | Presenting `a + b` is presenting `a`, then `b` from where it stopped, unless `a` was fatal. |
| Present.RunAvoidsImage | src/view.rs:310-322 | A run of operations with no image operation never enters the image context. |
| Present.PresentAvoidsImage | src/present.rs:51-52 | Since the dispatch never calls `start_image`, presenting events never reaches the image context. |
| Present.HardBreakTwoNewlines | src/present.rs:57-60 | A hard break writes exactly two newlines and keeps the context. |
| Present.PresentEvent | src/present.rs:29-62 | Presenting one event on the view yields the context, output and outcome of the dispatch. |
| Present.PresentStart | src/present.rs:32-51 | The start-tag arm of the dispatch, as above. |
| Present.PresentEnd | src/present.rs:33-52 | The end-tag arm of the dispatch, as above. |
| Present.PresentSlide | src/present.rs:13-26 | Presenting a slide leaves the view with the context and output of presenting its events in order, stopping at the first fatal one. The outcome is ok exactly when none was fatal. |
| Present.PresentStopped | src/present.rs:21-25 | Once a prefix of the events is fatal, the rest of the events change nothing. |
| Present.PresentNext | src/present.rs:22-24 | One round of the slide loop extends the presented prefix by one event. |
| Split.EndStep | src/split.rs:25-35 | When the events run out, the pending slide start moves to the end of the document. A slide is yielded only if some text was still pending; a rule is never involved and nothing is fetched. |
| Split.RuleStep | src/split.rs:39-54 | At a rule start the splitter keeps its invariant and moves forward; nothing is fetched. When the next event ends the rule and the pending start is not past the content end, it yields exactly the text from the pending start to the content end, and the new state is: past both rule events, start at the tokenizer offset after the rule, first-slide flag cleared. Otherwise it aborts: an unmatched rule exits, and a start past the end panics in the slice (two adjacent rules). |
| Split.ImageFetch | src/split.rs:55-64 | Exactly an image start fetches, exactly one image: its path. The fetch is synchronous exactly on the first slide. |
| Split.NextStep | src/split.rs:21-69 | One `next` keeps the offsets inside the document and behind the tokenizer, and never goes back. A cut at a rule consumes at least the rule's two events. A cut that is not at a rule is the tail of the document. Its exact result is given by `RuleCutExact` and `NextStepSkips`. |
| Split.RuleCut | src/split.rs:39-48 | A slide cut at a rule follows a matched rule start; it is the document text from the pending start to the end offset recorded before the rule. The next slide starts where the tokenizer stands after the rule, and the first-slide flag is cleared. |
| Split.TailCut | src/split.rs:25-34 | When the events run out, the rest of the document is the last slide, or nothing is yielded when it is all consumed. |
| Split.FirstPageCleared | src/split.rs:47 | The first-slide flag is cleared exactly by a slide cut at a rule. |
| Split.NextStepFetches | src/split.rs:55-64 | Every image fetch a call makes is synchronous exactly when the call starts on the first slide. |
| Split.UnmatchedRuleAborts | src/split.rs:49-53 | A rule start not followed by its end event aborts the process. |
| Split.FirstRule | src/split.rs:38-39 | The first rule start at or after a position: no rule start lies before it, and it is a rule start unless it is the end of the events. |
| Split.ImagePaths | src/split.rs:55-56 | The paths of the image starts among the events, in order; none when no event starts an image. |
| Split.Fetches | src/split.rs:55-64 | Passing events fetches exactly the paths of their image starts, in order, each synchronous exactly on the first slide. |
| Split.Skipped | src/split.rs:65-67 | Passing events up to a position keeps the splitter's invariant, keeps the pending start and the first-slide flag, and moves the content end to the last passed event's offset. |
| Split.NextStepSkips | src/split.rs:21-69 | One `next` passes every event up to the first rule start, fetching their images in order, then does what the end of the events or the rule start does from there. |
| Split.RuleCutExact | src/split.rs:21-69 | With `h` the first rule start ahead and `end` the offset of the last event before it: `next` fetches exactly the images of the events before `h`, in order. It cuts at a rule exactly when `h` is a matched rule and the pending start is at most `end`. The slide is then the text from the pending start to `end`, and the state moves past the rule with the first-slide flag cleared. At an unmatched or misplaced rule it aborts. |
| Split.NoRuleStep | src/split.rs:21-69 | Without rules ahead, one call yields the rest of the document, or nothing when it is all consumed. |
| Split.NoRulesOneSlide | src/split.rs:72-80 | A document without rules is one slide holding the whole text, or no slide when the text is empty. |
| Split.CutInDocument | src/split.rs:30-31 | Every yielded slide is the document text at its offset, ending at or before the next pending start. |
| Split.SlidesOrdered | src/split.rs:18-69 | Iterating to the end yields slides that are pieces of the document, in document order, without overlap. |
| Split.BackToBackRulesAbort | src/split.rs:41 | Two rules with nothing between them (`"---\n---\n"`) abort: the second cut's start lies past its end. |
| Split.Prefixed | src/split.rs:22-68 | Fetches made earlier in a call are kept in front of those made later; the outcome is unchanged. |
| Split.Splitter.constructor | src/split.rs:72-80 | `split` starts with nothing consumed, both offsets at 0, on the first slide. |
| Split.Splitter.AtEnd | src/split.rs:25-35 | `next` when the events are exhausted performs `EndStep`. |
| Split.Splitter.AtRule | src/split.rs:39-54 | `next` at a rule start performs `RuleStep`. |
| Split.Splitter.Pass | src/split.rs:55-67 | One other event advances past it, fetches its image if it starts one, and moves the slide's end to the tokenizer's offset. |
| Split.Splitter.Next | src/split.rs:21-69 | `next` performs exactly `NextStep` on the splitter's state and records its fetches. |
| Deck.Display | src/deck.rs:88-101 | A title prints exactly its text, between red-bold and reset escapes. Every other element prints nothing. |
| Deck.Slide.constructor | src/deck.rs:67-71 | A new slide has no elements. |
| Deck.Slide.Add | src/deck.rs:104-106 | The element goes at the end. |
| Deck.Slide.Clear | src/deck.rs:108-110 | The slide is emptied. |
| Deck.NextIndex | src/deck.rs:38-42 | `next` moves one slide further exactly when not on the last slide, and stays within the deck. |
| Deck.PrevIndex | src/deck.rs:44-48 | `previous` moves one slide back exactly when not on the first. |
| Deck.NextsClamp | src/deck.rs:38-42 | `n` calls of `next` reach `n` slides further, or stop on the last slide. |
| Deck.NextPrevInverse | src/deck.rs:38-48 | `previous` undoes a `next` that moved, and `next` undoes a `previous` that moved. |
| Deck.Deck.constructor | src/deck.rs:12-16 | A new deck has no slides and is on slide 0. |
| Deck.Deck.Add | src/deck.rs:34-36 | The slide goes at the end; the cursor is kept. |
| Deck.Deck.Next | src/deck.rs:38-42 | The cursor moves as `NextIndex` says; the slides are kept; the cursor stays on a slide. |
| Deck.Deck.Previous | src/deck.rs:44-48 | The cursor moves as `PrevIndex` says; the slides are kept. |
| Deck.Deck.SlideAt | src/deck.rs:50-52 | Gives the slide under the cursor. There is none exactly when the deck is empty, where the source's index is out of bounds. |
| Deck.Deck.CurrentNum | src/deck.rs:54-56 | Gives the cursor. |
| Style.Words | src/style.rs:9 | Splitting at blanks always gives at least one piece. |
| Style.JoinWords | src/style.rs:9 | Joining the pieces with single blanks gives the text back. |
| Style.WordsJoin | src/style.rs:9 | Splitting the join of blank-free words gives the words back. |
| Style.Groups | src/style.rs:5-21 | There is always at least one line. |
| Style.GroupsCover | src/style.rs:9-18 | Every word of the text is on exactly one line, in order. |
| Style.GroupsGreedy | src/style.rs:10-17 | The word characters of every line fit the column width, except a later line holding a single over-long word. Every line except the last is full: the next line's first word would not have fit on it. |
| Style.TextFillConcat | src/style.rs:15-19 | The lines, one after another, are the text followed by one blank. |
| Style.TextFillColumn | src/style.rs:5-21 | The result is the rendering of the greedy groups: one line per group, each word followed by a blank. |
| Style.Lines | src/style.rs:28 | No line contains a line feed. |
| Style.LinesTerminated | src/style.rs:28 | Splitting lines that were each terminated by a line feed gives the lines back. |
| Style.PadLine | src/style.rs:29-33 | The line followed by exactly `remaining` blanks. |
| Style.CodeFillColumn | src/style.rs:25-38 | Succeeds exactly when no line is longer than the column width (otherwise `column_width - line.len()` underflows). Then each line is padded with blanks to exactly the column width. |
| Term.FreshLined | src/term.rs:17-21 | The buffer is extended by at most one line feed. The result is empty or ends a line. The buffer is unchanged exactly when it was empty or already ended a line. |
| Term.FreshLineIdempotent | src/term.rs:17-21 | A second `fresh_line` changes nothing. |
| Term.Emit | src/term.rs:23-37 | An event only appends to the buffer. Text, Html and inline Html add exactly their text; a soft break adds one line feed and a hard break three; a footnote reference adds nothing; none of them adds an escape. |
| Term.RenderedExtends | src/term.rs:23-37 | `run` only appends: the old buffer is a prefix of the new one. |
| Term.RenderedAppend | src/term.rs:23-37 | Rendering two runs of events one after the other is rendering them together. |
| Term.StartPrints | src/term.rs:39-73 | The printable part of what a start tag writes is its text: the rule marker after a fresh line, or a link's or image's title. |
| Term.EndPrintsNothing | src/term.rs:75-109 | An end tag writes escapes only. |
| Term.EmitPrints | src/term.rs:23-109 | The printable part of what any event adds is exactly the text that event prints. |
| Term.StartStyles | src/term.rs:39-73 | From plain attributes, the escapes a start tag writes give: a header bold red; a quote and emphasis italic; strong text, links and images bold; inline code and code blocks black on white; the other tags nothing. |
| Term.OpeningStyles | src/term.rs:46-69 | The same, for the escapes and titles of every tag but a rule. |
| Term.RuleStyles | src/term.rs:42-45 | The fresh line and the rule marker change no attribute. |
| Term.EndStyles | src/term.rs:75-109 | The reset that ends a header, quote, emphasis, strong text, link or image clears every attribute. The end of inline code resets both colours. The end of a code block sets the foreground to black and resets the background. The other tags change nothing. |
| Term.TagRestoresPen | src/term.rs:39-109 | Opening and closing any tag from plain attributes returns to plain, except a code block, which leaves the foreground black. |
| Term.PlainEventKeepsPen | src/term.rs:28-33 | Text, HTML, breaks and footnote references change no attribute. |
| Terminal.PaintedAppend | src/term.rs:23-37 | The attributes after two pieces of output are those after the second, starting from those after the first. |
| Terminal.PaintedChars | src/term.rs:28-32 | Printed text changes no attribute. |
| Term.Ctx.constructor | src/term.rs:139-145 | The context starts with the given buffer, deck and empty slide. |
| Term.Ctx.FreshLine | src/term.rs:17-21 | The buffer becomes `FreshLined` of the old one. |
| Term.Ctx.StartTag | src/term.rs:39-73 | Writes what the start tag writes. |
| Term.Ctx.EndTag | src/term.rs:75-109 | Writes what the end tag writes. A rule end pushes the (empty) slide onto the deck and clears it; the cursor is kept. |
| Term.Ctx.Step | src/term.rs:25-34 | One event: the buffer becomes `Emit` of the old one, and one empty slide is pushed exactly for a rule end. |
| Term.Ctx.Run | src/term.rs:23-37 | The buffer becomes the rendering of all the events. The deck gains one empty slide per rule end. |
| Term.Terminalize | src/term.rs:139-148 | The buffer is extended by the rendering of the events. The returned deck is on slide 0 and holds one empty slide per rule end. |
| Markdown.MatchTagToElement | src/markdown.rs:36-45 | Paragraph, heading, block quote and rule tags map to their own kinds; exactly the other tags map to code. |
| Markdown.OpenIsLastStart | src/markdown.rs:11 | The open element is always the element of the last start event. |
| Markdown.DeckCountsRules | src/markdown.rs:13-18 | One slide is pushed per rule end that closes a rule start, and nothing else pushes one. |
| Markdown.StepConserves | src/markdown.rs:10-29 | One event adds its own text to the parser's text, and nothing else. |
| Markdown.TextConserved | src/markdown.rs:9-31 | No text is lost or duplicated. The deck's lines, the current slide's lines, then the pending text are all the text of the events, in order. |
| Markdown.LastClose | src/markdown.rs:13-26 | The last event that closes a line, if any: an end tag matching the last start, which is not a rule. |
| Markdown.Lines | src/markdown.rs:13-26 | The lines the events make, defined on the events alone. Each end tag matching the last start (not a rule) makes one line, holding all the text since the previous such end, with the kind of that start. No line is a rule, and unmatched ends and rules make none. |
| Markdown.NewLine | src/markdown.rs:19-24 | The line one event adds: at most one, and never a rule. |
| Markdown.PendingSnoc | src/markdown.rs:12-24 | An event that closes a line leaves no text pending. Any other event (a rule end or an unmatched end included) adds its text to what is pending, so text before a rule goes into the next line. |
| Markdown.StepLines | src/markdown.rs:10-29 | One event on the parser state: an end closing the open element (not a rule) appends the pending text as a line of that kind and clears it. A rule end moves the slide to the deck and keeps the lines in order. Any other event keeps the lines and adds its text to the pending text. |
| Markdown.ParsedLines | src/markdown.rs:9-31 | After any events, the parser's lines (deck, then current slide) are exactly `Lines` of the events, and its pending text is exactly `Pending`. |
| Markdown.DocumentText | src/markdown.rs:4-34 | The returned slides, read in order, hold exactly the lines of `Lines`. Together with the text after the last event that closes a line (`Pending`), they hold all the document's text. |
| Markdown.ParseDocument | src/markdown.rs:4-34 | Returns the slides cut at rules followed by the last slide: always one more slide than the rules closed. An empty document is one empty slide. Read in order, the slides hold exactly the lines of `Lines`. |

## Left out

- Terminal size, the output stream and flushing: the size is a parameter of `View.View.constructor` and `View.View.Update`. The output is the field `out`. `clear`, `quit`, `reset`, `info`, `hide_cursor`, `show_cursor` and `width` write fixed escapes or read a field; they are not modelled.
- View.ComputeLayout: requires a terminal at least 4 columns wide. Below that, `term_width - 4` underflows in the source; here it is a precondition of the view instead of a modelled panic.
- View.ComputeLayout: the `u16` fields are unbounded naturals. The `u16` subtraction in `right_bottom` and the `usize` column count of a code block cannot overflow here.
- View.View.StartImage: whether the image could be shown inline is the parameter `inlined`. Reading and drawing the image (`src/image.rs`) is not part of this model.
- Present.Route: `unimplemented!` for Html and footnote references is modelled as a fatal outcome that stops the slide, not as a process abort.
- Present.PresentSlide: the first pass over the events only logs them and is left out.
- Split.Splitter.Next: the background image fetch (`thread::spawn`) and the synchronous one are recorded in a ghost log of `Fetch` values. Image retrieval itself, threads and their timing are not modelled.
- Split: the markdown tokenizer is an input sequence of events with offsets (`WellFormed`). That offsets stay in the document and never decrease is assumed of the tokenizer as a precondition; `pulldown-cmark` is not part of this model.
- Split: the document is a `string` of characters, so offsets, `|buf|` and slide bounds are character positions. The source's `buf.len()` and `get_offset()` are byte offsets, and it yields a byte offset with each slide. The two agree for ASCII documents (`Terminal.ByteLenAscii`). With non-ASCII text before a slide, the model's offset is smaller than the source's, and slicing inside a multi-byte character (a panic in the source) is not modelled.
- Split.BackToBackRulesAbort: the slice panic on two adjacent rules is modelled as `Abort`. No corrected splitter is given, since the intended behaviour (an empty slide, or none) is not evident from the source.
- Deck.Deck.Next: requires a non-empty deck. On an empty deck `self.slides.len() - 1` underflows in the source; this is a precondition instead of a modelled panic.
- Deck.Deck: `add` pushes a slide by value, so the deck holds sequences of elements rather than `Slide` objects. `Deck::from_path` (file reading) and the centring of titles in `Slide::present` (cursor arithmetic on `u16`) are not modelled.
- Term.Ctx: `write!` into a `String` cannot fail, so the `?` error paths and the final `unwrap` are not modelled. HTML events push their raw text, which is modelled; logging is left out.
- Term.Ctx.EndTag: the slide the context holds is never filled by `term.rs`, so the deck it builds holds only empty slides. The model keeps it so.
- Markdown: `src/markdown.rs` uses a `deck::Line`, an `Element::H1`/`Element::Rule` and `Deck::add_slide` that `src/deck.rs` no longer defines. Its element kinds, lines and deck are modelled locally in `Markdown`.
- Style: lengths are counted in characters; the source counts bytes (`len()`). They agree for ASCII text. The code-block column count of `View` does count UTF-8 bytes (`Terminal.ByteLen`).
- Term.EndStyles: the end of a code block writes a black foreground escape rather than a reset (`src/term.rs:93`); the model keeps this, so `Term.TagRestoresPen` states that the foreground stays black.
- Terminal: how a terminal renders the escapes is reduced to five attributes (bold, italic, underline, foreground, background); other attributes and the escapes' byte form are not modelled.
- Style.Lines: `str::lines` is modelled as splitting at line feeds and dropping one trailing carriage return per line, with no final empty line.
- Logging (`info!`, `trace!`, `error!`) is left out everywhere.
