/**
 * Terminal output. Escape sequences (termion colours, styles, cursor moves and
 * the inline-image escape) are opaque tokens; printable text is a sequence of
 * characters. Everything a component writes is a sequence of symbols.
 */
module Terminal {

  datatype Escape =
    | Italic | NoItalic
    | Bold | StyleReset
    | Underline | NoUnderline
    | FgRed | FgLightCyan | FgBlack | FgReset
    | BgWhite | BgLightWhite | BgReset
    | CursorRight(columns: nat)
    | InlineImage(path: string)

  datatype Sym = Ch(c: char) | Esc(e: Escape)

  /** The symbols that print the characters of `s`, in order. */
  function Chars(s: string): (r: seq<Sym>)
    ensures |r| == |s|
    ensures forall i :: 0 <= i < |s| ==> r[i] == Ch(s[i])
  {
    seq(|s|, i requires 0 <= i < |s| => Ch(s[i]))
  }

  lemma CharsAppend(a: string, b: string)
    ensures Chars(a + b) == Chars(a) + Chars(b)
  {
    assert Chars(a + b) == Chars(a) + Chars(b);
  }

  /** A run of `n` blanks. */
  function Spaces(n: nat): (s: string)
    ensures |s| == n
    ensures forall i :: 0 <= i < n ==> s[i] == ' '
  {
    seq(n, _ => ' ')
  }

  lemma SpacesAppend(m: nat, n: nat)
    ensures Spaces(m) + Spaces(n) == Spaces(m + n)
  {
    assert Spaces(m) + Spaces(n) == Spaces(m + n);
  }

  /** How many bytes UTF-8 uses for `c`: one for ASCII, up to four. */
  function Utf8Width(c: char): (n: nat)
    ensures 1 <= n <= 4
    ensures n == 1 <==> (c as int) < 0x80
  {
    if (c as int) < 0x80 then 1
    else if (c as int) < 0x800 then 2
    else if (c as int) < 0x1_0000 then 3
    else 4
  }

  /** The length of `s` in bytes, encoded as UTF-8: what Rust's `str::len` counts. */
  function ByteLen(s: string): nat
    decreases |s|
  {
    if s == [] then 0 else ByteLen(s[..|s| - 1]) + Utf8Width(s[|s| - 1])
  }

  /** The byte length of two strings one after the other. */
  lemma {:induction false} ByteLenAppend(a: string, b: string)
    ensures ByteLen(a + b) == ByteLen(a) + ByteLen(b)
    decreases |b|
  {
    if b == [] {
      assert a + b == a;
    } else {
      assert (a + b)[..|a + b| - 1] == a + b[..|b| - 1];
      ByteLenAppend(a, b[..|b| - 1]);
    }
  }

  /** An ASCII string has as many bytes as characters. */
  lemma {:induction false} ByteLenAscii(s: string)
    requires forall i :: 0 <= i < |s| ==> (s[i] as int) < 0x80
    ensures ByteLen(s) == |s|
    decreases |s|
  {
    if s != [] {
      ByteLenAscii(s[..|s| - 1]);
    }
  }

  /** Blanks are one byte each. */
  lemma ByteLenSpaces(n: nat)
    ensures ByteLen(Spaces(n)) == n
  {
    ByteLenAscii(Spaces(n));
  }

  /** The printable characters of an output, escapes dropped. */
  function Visible(out: seq<Sym>): (s: string)
    ensures |s| <= |out|
  {
    if out == [] then [] else Shown(out[0]) + Visible(out[1..])
  }

  /** What one symbol prints. */
  function Shown(x: Sym): (s: string)
    ensures |s| <= 1
  {
    match x
    case Ch(c) => [c]
    case Esc(_) => []
  }

  /** The printable characters of two outputs one after the other. */
  lemma {:induction false} VisibleAppend(a: seq<Sym>, b: seq<Sym>)
    ensures Visible(a + b) == Visible(a) + Visible(b)
    decreases |a|
  {
    if a == [] {
      assert a + b == b;
    } else {
      assert (a + b)[0] == a[0] && (a + b)[1..] == a[1..] + b;
      VisibleAppend(a[1..], b);
      calc {
        Visible(a + b);
        Shown(a[0]) + Visible(a[1..] + b);
        Shown(a[0]) + (Visible(a[1..]) + Visible(b));
        (Shown(a[0]) + Visible(a[1..])) + Visible(b);
      }
    }
  }

  lemma {:induction false} VisibleChars(s: string)
    ensures Visible(Chars(s)) == s
  {
    if s != [] {
      assert Chars(s)[1..] == Chars(s[1..]);
      VisibleChars(s[1..]);
    }
  }

  /** Foreground colours: the terminal's own and those the program sets. */
  datatype Ink = DefaultInk | Red | LightCyan | Black

  /** Background colours: the terminal's own and those the program sets. */
  datatype Paper = DefaultPaper | White | LightWhite

  /** The text attributes the escapes set: what the next printed character looks like. */
  datatype Pen = Pen(bold: bool, italic: bool, underline: bool, fg: Ink, bg: Paper)

  /** The terminal's attributes after a full reset. */
  const Plain := Pen(false, false, false, DefaultInk, DefaultPaper)

  /**
   * How one symbol changes the attributes. A printed character and the
   * cursor and image escapes change none; `StyleReset` (select graphic
   * rendition 0) resets all of them, colours included.
   */
  function Inked(p: Pen, x: Sym): Pen
  {
    if x.Ch? then p
    else
      match x.e
      case Italic => p.(italic := true)
      case NoItalic => p.(italic := false)
      case Bold => p.(bold := true)
      case StyleReset => Plain
      case Underline => p.(underline := true)
      case NoUnderline => p.(underline := false)
      case FgRed => p.(fg := Red)
      case FgLightCyan => p.(fg := LightCyan)
      case FgBlack => p.(fg := Black)
      case FgReset => p.(fg := DefaultInk)
      case BgWhite => p.(bg := White)
      case BgLightWhite => p.(bg := LightWhite)
      case BgReset => p.(bg := DefaultPaper)
      case CursorRight(_) => p
      case InlineImage(_) => p
  }

  /** The attributes after the symbols, in order, starting from `p`. */
  function Painted(p: Pen, out: seq<Sym>): Pen
    decreases |out|
  {
    if out == [] then p else Painted(Inked(p, out[0]), out[1..])
  }

  lemma {:induction false} PaintedAppend(p: Pen, a: seq<Sym>, b: seq<Sym>)
    ensures Painted(p, a + b) == Painted(Painted(p, a), b)
    decreases |a|
  {
    if a == [] {
      assert a + b == b;
    } else {
      assert (a + b)[1..] == a[1..] + b;
      PaintedAppend(Inked(p, a[0]), a[1..], b);
    }
  }

  /** Two symbols change the attributes one after the other. */
  lemma PaintedPair(p: Pen, x: Sym, y: Sym)
    ensures Painted(p, [x]) == Inked(p, x)
    ensures Painted(p, [x, y]) == Inked(Inked(p, x), y)
  {
    assert [x][1..] == [];
    assert [x, y][1..] == [y];
    assert [y][1..] == [];
    assert Painted(p, [x, y]) == Painted(Inked(p, x), [y]);
  }

  /** Printed text leaves the attributes as they are. */
  lemma {:induction false} PaintedChars(p: Pen, s: string)
    ensures Painted(p, Chars(s)) == p
    decreases |s|
  {
    if s != [] {
      assert Chars(s)[1..] == Chars(s[1..]);
      PaintedChars(p, s[1..]);
    }
  }
}
