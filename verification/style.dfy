/**
 * Column filling (src/style.rs): wrapping text into lines by a budget of
 * word characters per line, and padding code lines with blanks to a fixed
 * column width. Lengths are counted in characters.
 */
module Style {
  import opened Wrappers

  // ---------------------------------------------------------------------
  // Words: `str::split(' ')`
  // ---------------------------------------------------------------------

  /** The pieces of `s` between single blanks, as `split(' ')` gives them: empty pieces included, never none. */
  function Words(s: string): (ws: seq<string>)
    ensures |ws| >= 1
    decreases |s|
  {
    if s == [] then [[]]
    else
      var rest := Words(s[1..]);
      if s[0] == ' ' then [[]] + rest
      else [[s[0]] + rest[0]] + rest[1..]
  }

  predicate NoBlank(w: string)
  {
    forall i :: 0 <= i < |w| ==> w[i] != ' '
  }

  /** The words joined by single blanks. */
  function Join(ws: seq<string>): string
    requires |ws| >= 1
    decreases |ws|
  {
    if |ws| == 1 then ws[0] else ws[0] + " " + Join(ws[1..])
  }

  /** Joining the pieces gives the text back. */
  lemma {:induction false} JoinWords(s: string)
    ensures Join(Words(s)) == s
    decreases |s|
  {
    if s != [] {
      var rest := Words(s[1..]);
      JoinWords(s[1..]);
      if s[0] == ' ' {
        assert ([[]] + rest)[1..] == rest;
      } else if |rest| > 1 {
        var ws := [[s[0]] + rest[0]] + rest[1..];
        assert ws[1..] == rest[1..];
        calc {
          Join(ws);
          ([s[0]] + rest[0]) + " " + Join(rest[1..]);
          [s[0]] + (rest[0] + " " + Join(rest[1..]));
          [s[0]] + Join(rest);
          [s[0]] + s[1..];
        }
        assert [s[0]] + s[1..] == s;
      } else {
        assert [s[0]] + s[1..] == s;
      }
    }
  }

  /** A blank-free word is one piece. */
  lemma {:induction false} WordsOfWord(w: string)
    requires NoBlank(w)
    ensures Words(w) == [w]
    decreases |w|
  {
    if w != [] {
      WordsOfWord(w[1..]);
      assert [w[0]] + w[1..] == w;
    }
  }

  /** A blank-free word followed by a blank starts the pieces of what follows with itself. */
  lemma {:induction false} WordsAfterWord(w: string, t: string)
    requires NoBlank(w)
    ensures Words(w + " " + t) == [w] + Words(t)
    decreases |w|
  {
    if w == [] {
      assert ([] + " " + t)[1..] == t;
    } else {
      var s := w + " " + t;
      assert s[1..] == w[1..] + " " + t;
      WordsAfterWord(w[1..], t);
      assert [w[0]] + w[1..] == w;
    }
  }

  /** Splitting the join of blank-free words gives the words back. */
  lemma {:induction false} WordsJoin(ws: seq<string>)
    requires |ws| >= 1 && forall k :: 0 <= k < |ws| ==> NoBlank(ws[k])
    ensures Words(Join(ws)) == ws
    decreases |ws|
  {
    if |ws| == 1 {
      WordsOfWord(ws[0]);
    } else {
      WordsJoin(ws[1..]);
      WordsAfterWord(ws[0], Join(ws[1..]));
      assert [ws[0]] + ws[1..] == ws;
    }
  }

  // ---------------------------------------------------------------------
  // Spaced words, groups of words, and their lengths
  // ---------------------------------------------------------------------

  /** The words, each followed by one blank. */
  function Spaced(ws: seq<string>): string
    decreases |ws|
  {
    if ws == [] then [] else Spaced(ws[..|ws| - 1]) + ws[|ws| - 1] + " "
  }

  /** Total characters of the words, blanks not counted. */
  function TotalLen(ws: seq<string>): nat
    decreases |ws|
  {
    if ws == [] then 0 else TotalLen(ws[..|ws| - 1]) + |ws[|ws| - 1]|
  }

  /** The words of the groups, in order. */
  function Flatten(gs: seq<seq<string>>): seq<string>
    decreases |gs|
  {
    if gs == [] then [] else Flatten(gs[..|gs| - 1]) + gs[|gs| - 1]
  }

  /** The strings one after another. */
  function Concat(ss: seq<string>): string
    decreases |ss|
  {
    if ss == [] then [] else Concat(ss[..|ss| - 1]) + ss[|ss| - 1]
  }

  /** One spaced line per group. */
  function Rendered(gs: seq<seq<string>>): (lines: seq<string>)
    ensures |lines| == |gs| && forall k :: 0 <= k < |gs| ==> lines[k] == Spaced(gs[k])
  {
    seq(|gs|, k requires 0 <= k < |gs| => Spaced(gs[k]))
  }

  lemma RenderedSnoc(gs: seq<seq<string>>, g: seq<string>)
    ensures Rendered(gs + [g]) == Rendered(gs) + [Spaced(g)]
  {
  }

  lemma {:induction false} JoinSnoc(ws: seq<string>, w: string)
    requires |ws| >= 1
    ensures Join(ws + [w]) == Join(ws) + " " + w
    decreases |ws|
  {
    if |ws| > 1 {
      assert (ws + [w])[1..] == ws[1..] + [w];
      JoinSnoc(ws[1..], w);
    }
  }

  /** Spacing the words is joining them and adding one blank. */
  lemma {:induction false} SpacedJoin(ws: seq<string>)
    requires |ws| >= 1
    ensures Spaced(ws) == Join(ws) + " "
    decreases |ws|
  {
    if |ws| > 1 {
      var init := ws[..|ws| - 1];
      SpacedJoin(init);
      JoinSnoc(init, ws[|ws| - 1]);
      assert init + [ws[|ws| - 1]] == ws;
    } else {
      assert ws[..0] == [];
    }
  }

  lemma {:induction false} SpacedAppend(a: seq<string>, b: seq<string>)
    ensures Spaced(a + b) == Spaced(a) + Spaced(b)
    decreases |b|
  {
    if b == [] {
      assert a + b == a;
    } else {
      var init := b[..|b| - 1];
      assert (a + b)[..|a + b| - 1] == a + init;
      SpacedAppend(a, init);
    }
  }

  /** The rendered lines, one after another, are the flattened words spaced. */
  lemma {:induction false} ConcatRendered(gs: seq<seq<string>>)
    ensures Concat(Rendered(gs)) == Spaced(Flatten(gs))
    decreases |gs|
  {
    if gs != [] {
      var init := gs[..|gs| - 1];
      assert Rendered(gs)[..|gs| - 1] == Rendered(init);
      ConcatRendered(init);
      SpacedAppend(Flatten(init), gs[|gs| - 1]);
    }
  }

  // ---------------------------------------------------------------------
  // text_fill_column
  // ---------------------------------------------------------------------

  /** The fill state: the finished lines (as groups of words), the current line, and its word characters. */
  datatype Fill = Fill(done: seq<seq<string>>, line: seq<string>, width: nat)

  /** One word: when it does not fit the budget beside the current line, the current line is finished first. */
  function Feed(f: Fill, w: string, columnWidth: nat): Fill
  {
    if f.width + |w| > columnWidth then Fill(f.done + [f.line], [w], |w|)
    else Fill(f.done, f.line + [w], f.width + |w|)
  }

  function FeedAll(ws: seq<string>, columnWidth: nat): Fill
    decreases |ws|
  {
    if ws == [] then Fill([], [], 0)
    else Feed(FeedAll(ws[..|ws| - 1], columnWidth), ws[|ws| - 1], columnWidth)
  }

  /** The lines `text_fill_column` produces, as groups of words: the finished lines and the last one. */
  function Groups(text: string, columnWidth: nat): (gs: seq<seq<string>>)
    ensures |gs| >= 1
  {
    var f := FeedAll(Words(text), columnWidth);
    f.done + [f.line]
  }

  /**
   * A line fits the budget, or it is a single word too long for any line
   * (which never happens on the first line: a too-long first word leaves
   * the first line empty).
   */
  predicate Fits(gs: seq<seq<string>>, i: nat, columnWidth: nat)
    requires i < |gs|
  {
    TotalLen(gs[i]) <= columnWidth || (i > 0 && |gs[i]| == 1)
  }

  /** The line after line `i` starts with a word that would not have fit on line `i`. */
  predicate Full(gs: seq<seq<string>>, i: nat, columnWidth: nat)
    requires i + 1 < |gs|
  {
    gs[i + 1] != [] && TotalLen(gs[i]) + |gs[i + 1][0]| > columnWidth
  }

  predicate AllFit(gs: seq<seq<string>>, columnWidth: nat)
  {
    forall i :: 0 <= i < |gs| ==> Fits(gs, i, columnWidth)
  }

  predicate AllFull(gs: seq<seq<string>>, columnWidth: nat)
  {
    forall i :: 0 <= i < |gs| - 1 ==> Full(gs, i, columnWidth)
  }

  ghost predicate FillInv(f: Fill, ws: seq<string>, columnWidth: nat)
  {
    && Flatten(f.done) + f.line == ws
    && f.width == TotalLen(f.line)
    && AllFit(f.done + [f.line], columnWidth)
    && AllFull(f.done + [f.line], columnWidth)
  }

  /** A word that does not fit starts a line of its own after a full one. */
  lemma FeedBreak(gs: seq<seq<string>>, w: string, columnWidth: nat)
    requires |gs| >= 1 && AllFit(gs, columnWidth) && AllFull(gs, columnWidth)
    requires TotalLen(gs[|gs| - 1]) + |w| > columnWidth
    ensures AllFit(gs + [[w]], columnWidth) && AllFull(gs + [[w]], columnWidth)
  {
    var hs := gs + [[w]];
    assert [w][..0] == [];
    forall i | 0 <= i < |hs| ensures Fits(hs, i, columnWidth) {
      if i < |gs| {
        assert Fits(gs, i, columnWidth);
        assert hs[i] == gs[i];
      }
    }
    forall i | 0 <= i < |hs| - 1 ensures Full(hs, i, columnWidth) {
      assert hs[i] == gs[i];
      if i < |gs| - 1 {
        assert Full(gs, i, columnWidth);
        assert hs[i + 1] == gs[i + 1];
      }
    }
  }

  /** A word that fits goes on the last line. */
  lemma FeedJoin(done: seq<seq<string>>, line: seq<string>, w: string, columnWidth: nat)
    requires AllFit(done + [line], columnWidth) && AllFull(done + [line], columnWidth)
    requires TotalLen(line) + |w| <= columnWidth
    ensures AllFit(done + [line + [w]], columnWidth) && AllFull(done + [line + [w]], columnWidth)
  {
    var gs := done + [line];
    var hs := done + [line + [w]];
    assert (line + [w])[..|line|] == line;
    forall i | 0 <= i < |hs| ensures Fits(hs, i, columnWidth) {
      if i < |done| {
        assert Fits(gs, i, columnWidth);
        assert hs[i] == gs[i];
      }
    }
    forall i | 0 <= i < |hs| - 1 ensures Full(hs, i, columnWidth) {
      assert Full(gs, i, columnWidth);
      assert hs[i] == gs[i];
      if i + 1 < |done| {
        assert hs[i + 1] == gs[i + 1];
      } else {
        assert hs[i + 1] == line + [w] && gs[i + 1] == line;
        assert (line + [w])[0] == line[0];
      }
    }
  }

  lemma FeedKeeps(f: Fill, ws: seq<string>, w: string, columnWidth: nat)
    requires FillInv(f, ws, columnWidth)
    ensures FillInv(Feed(f, w, columnWidth), ws + [w], columnWidth)
  {
    assert [w][..0] == [];
    assert (f.line + [w])[..|f.line|] == f.line;
    if f.width + |w| > columnWidth {
      var gs := f.done + [f.line];
      assert gs[..|f.done|] == f.done;
      FeedBreak(gs, w, columnWidth);
    } else {
      FeedJoin(f.done, f.line, w, columnWidth);
    }
  }

  lemma {:induction false} FeedAllInv(ws: seq<string>, columnWidth: nat)
    ensures FillInv(FeedAll(ws, columnWidth), ws, columnWidth)
    decreases |ws|
  {
    if ws == [] {
      var f: Fill := FeedAll(ws, columnWidth);
      assert f.done + [f.line] == [[]];
    } else {
      var init, w := ws[..|ws| - 1], ws[|ws| - 1];
      assert init + [w] == ws;
      FeedAllInv(init, columnWidth);
      FeedKeeps(FeedAll(init, columnWidth), init, w, columnWidth);
    }
  }

  /** Every word of the text is on exactly one line, in order. */
  lemma GroupsCover(text: string, columnWidth: nat)
    ensures Flatten(Groups(text, columnWidth)) == Words(text)
  {
    var f := FeedAll(Words(text), columnWidth);
    FeedAllInv(Words(text), columnWidth);
    assert (f.done + [f.line])[..|f.done|] == f.done;
  }

  /**
   * The line-break rule: a word goes on the current line exactly when it
   * fits the budget beside the words already there; so every line fits or
   * is a single overlong word, and every line but the last is full.
   */
  lemma GroupsGreedy(text: string, columnWidth: nat)
    ensures var gs := Groups(text, columnWidth);
            && (forall i :: 0 <= i < |gs| ==> Fits(gs, i, columnWidth))
            && (forall i :: 0 <= i < |gs| - 1 ==> Full(gs, i, columnWidth))
  {
    FeedAllInv(Words(text), columnWidth);
  }

  /** The lines, one after another, are the text followed by one blank. */
  lemma TextFillConcat(text: string, columnWidth: nat)
    ensures Concat(Rendered(Groups(text, columnWidth))) == text + " "
  {
    GroupsCover(text, columnWidth);
    ConcatRendered(Groups(text, columnWidth));
    SpacedJoin(Words(text));
    JoinWords(text);
  }

  /** What one word does to the rendered lines and the rendered current line. */
  lemma FeedRendered(ws: seq<string>, i: nat, columnWidth: nat)
    requires i < |ws|
    ensures var f := FeedAll(ws[..i], columnWidth);
            var g := FeedAll(ws[..i + 1], columnWidth);
            && g.width == (if f.width + |ws[i]| > columnWidth then 0 else f.width) + |ws[i]|
            && Rendered(g.done) == (if f.width + |ws[i]| > columnWidth then Rendered(f.done) + [Spaced(f.line)] else Rendered(f.done))
            && Spaced(g.line) == (if f.width + |ws[i]| > columnWidth then "" else Spaced(f.line)) + ws[i] + " "
  {
    assert ws[..i + 1][..i] == ws[..i];
    var f := FeedAll(ws[..i], columnWidth);
    var w := ws[i];
    if f.width + |w| > columnWidth {
      assert [w][..0] == [];
      RenderedSnoc(f.done, f.line);
    } else {
      assert (f.line + [w])[..|f.line|] == f.line;
    }
  }

  /** `text_fill_column`: each line is a group of words, each word followed by a blank. */
  method TextFillColumn(text: string, columnWidth: nat) returns (result: seq<string>)
    ensures result == Rendered(Groups(text, columnWidth))
  {
    var words := Words(text);
    result := [];
    var line := "";
    var width := 0;
    for i := 0 to |words|
      invariant var f := FeedAll(words[..i], columnWidth);
                result == Rendered(f.done) && line == Spaced(f.line) && width == f.width
    {
      FeedRendered(words, i, columnWidth);
      var word := words[i];
      if width + |word| > columnWidth {
        width := 0;
        result := result + [line];
        line := "";
      }
      width := width + |word|;
      line := line + word + " ";
    }
    assert words[..|words|] == words;
    ghost var f := FeedAll(words, columnWidth);
    RenderedSnoc(f.done, f.line);
    result := result + [line];
  }

  // ---------------------------------------------------------------------
  // _code_fill_column
  // ---------------------------------------------------------------------

  /** Where the first line of `s` ends: the first line feed, or the end of `s`. */
  function LineEnd(s: string): (i: nat)
    ensures i <= |s| && (i < |s| ==> s[i] == '\n')
    ensures forall j :: 0 <= j < i ==> s[j] != '\n'
    decreases |s|
  {
    if s == [] || s[0] == '\n' then 0 else 1 + LineEnd(s[1..])
  }

  /** A line without its carriage return, if it has one. */
  function StripCr(l: string): (r: string)
    ensures r == l || (l == r + "\r")
  {
    if l != [] && l[|l| - 1] == '\r' then l[..|l| - 1] else l
  }

  /**
   * `str::lines`: the lines of `s`, each without its line feed and
   * carriage return; a final line feed does not start another line.
   */
  function Lines(s: string): (ls: seq<string>)
    ensures forall k :: 0 <= k < |ls| ==> '\n' !in ls[k]
    decreases |s|
  {
    if s == [] then []
    else
      var i := LineEnd(s);
      [StripCr(s[..i])] + (if i < |s| then Lines(s[i + 1..]) else [])
  }

  /** The lines, each followed by a line feed. */
  function Terminated(ls: seq<string>): string
    decreases |ls|
  {
    if ls == [] then [] else ls[0] + "\n" + Terminated(ls[1..])
  }

  /** A line that `str::lines` gives back unchanged: no line feed in it, no carriage return at its end. */
  predicate PlainLine(l: string)
  {
    '\n' !in l && (l == [] || l[|l| - 1] != '\r')
  }

  lemma {:induction false} LineEndAt(l: string, t: string)
    requires '\n' !in l
    ensures LineEnd(l + "\n" + t) == |l|
    decreases |l|
  {
    if l != [] {
      assert (l + "\n" + t)[1..] == l[1..] + "\n" + t;
      LineEndAt(l[1..], t);
    }
  }

  /** Splitting terminated plain lines gives the lines back. */
  lemma {:induction false} LinesTerminated(ls: seq<string>)
    requires forall k :: 0 <= k < |ls| ==> PlainLine(ls[k])
    ensures Lines(Terminated(ls)) == ls
    decreases |ls|
  {
    if ls != [] {
      var l, t := ls[0], Terminated(ls[1..]);
      assert PlainLine(ls[0]);
      LineEndAt(l, t);
      assert (l + "\n" + t)[..|l|] == l;
      assert (l + "\n" + t)[|l| + 1..] == t;
      LinesTerminated(ls[1..]);
      assert [l] + ls[1..] == ls;
    }
  }

  /** `r` is the line `l` padded with blanks to the column width. */
  predicate PaddedLine(l: string, r: string, columnWidth: nat)
  {
    && |r| == columnWidth && |l| <= columnWidth && r[..|l|] == l
    && (forall j :: |l| <= j < columnWidth ==> r[j] == ' ')
  }

  /** Each line padded with blanks to the column width. */
  predicate Padded(lines: seq<string>, result: seq<string>, columnWidth: nat)
  {
    |result| == |lines| && forall k :: 0 <= k < |lines| ==> PaddedLine(lines[k], result[k], columnWidth)
  }

  /** The inner loop of `_code_fill_column`: the line followed by `remaining` blanks. */
  method PadLine(line: string, remaining: nat) returns (filled: string)
    ensures |filled| == |line| + remaining && filled[..|line|] == line
    ensures forall m :: |line| <= m < |filled| ==> filled[m] == ' '
  {
    filled := line;
    for j := 0 to remaining
      invariant |filled| == |line| + j && filled[..|line|] == line
      invariant forall m :: |line| <= m < |filled| ==> filled[m] == ' '
    {
      filled := filled + " ";
    }
  }

  /**
   * `_code_fill_column`: one output line per line of the code, each padded
   * with blanks to exactly `columnWidth`. A line longer than `columnWidth`
   * makes the source's `column_width - line.len()` underflow; that is `None`.
   */
  method CodeFillColumn(code: string, columnWidth: nat) returns (r: Option<seq<string>>)
    ensures r.Some? <==> forall k :: 0 <= k < |Lines(code)| ==> |Lines(code)[k]| <= columnWidth
    ensures r.Some? ==> Padded(Lines(code), r.value, columnWidth)
  {
    var lines := Lines(code);
    var result: seq<string> := [];
    for k := 0 to |lines|
      invariant Padded(lines[..k], result, columnWidth)
      invariant forall m :: 0 <= m < k ==> |lines[m]| <= columnWidth
    {
      var line := lines[k];
      if |line| > columnWidth {
        assert |Lines(code)[k]| > columnWidth;
        return None;
      }
      var filled := PadLine(line, columnWidth - |line|);
      assert PaddedLine(line, filled, columnWidth);
      result := result + [filled];
    }
    assert lines[..|lines|] == lines;
    r := Some(result);
  }
}
