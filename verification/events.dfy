/**
 * The event vocabulary of the markdown tokenizer (pulldown_cmark 0.1).
 * The tokenizer itself is an external library and is not modelled: every
 * component receives the events it would produce as a sequence.
 */
module Events {
  import opened Wrappers

  datatype Alignment = NoAlignment | Left | Center | Right

  datatype Tag =
    | Paragraph
    | Rule
    | Header(level: int)
    | BlockQuote
    | CodeBlock(info: string)
    | List(firstNumber: Option<nat>)
    | Item
    | FootnoteDefinition(name: string)
    | Table(alignments: seq<Alignment>)
    | TableHead
    | TableRow
    | TableCell
    | Emphasis
    | Strong
    | Code
    | Link(dest: string, title: string)
    | Image(dest: string, title: string)

  datatype Event =
    | Start(tag: Tag)
    | End(tag: Tag)
    | Text(text: string)
    | Html(html: string)
    | InlineHtml(html: string)
    | FootnoteReference(name: string)
    | SoftBreak
    | HardBreak
}
