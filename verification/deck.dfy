/**
 * The slide deck (src/deck.rs): slides made of elements, and a deck of
 * slides with a cursor that `next` and `previous` move without leaving the
 * deck. A slide is pushed onto the deck by value, so the deck keeps the
 * slides' element lists rather than references to slide objects.
 */
module Deck {
  import opened Wrappers
  import opened Terminal

  datatype Element = Title(text: string) | Paragraph(text: string) | Quote(text: string) | Code(text: string)

  /** How an element prints: a title in bold red, every other element as nothing. */
  function Display(e: Element): (out: seq<Sym>)
    ensures e.Title? ==> Visible(out) == e.text
    ensures e.Title? ==> |out| == |e.text| + 4 && out[..2] == [Esc(FgRed), Esc(Bold)] && out[|out| - 2..] == [Esc(StyleReset), Esc(FgReset)]
    ensures !e.Title? ==> out == []
  {
    match e
    case Title(t) =>
      var pre, post := [Esc(FgRed), Esc(Bold)], [Esc(StyleReset), Esc(FgReset)];
      VisibleChars(t);
      VisibleAppend(pre, Chars(t));
      VisibleAppend(pre + Chars(t), post);
      assert Visible(pre) == [] && Visible(post) == [];
      pre + Chars(t) + post
    case _ => []
  }

  /** A slide: its elements, in order. */
  class Slide {
    var elems: seq<Element>

    /** `Slide::default`. */
    constructor ()
      ensures elems == []
    {
      elems := [];
    }

    /** `Slide::add`: the element goes at the end. */
    method Add(e: Element)
      modifies this
      ensures elems == old(elems) + [e]
    {
      elems := elems + [e];
    }

    /** `Slide::clear`. */
    method Clear()
      modifies this
      ensures elems == []
    {
      elems := [];
    }
  }

  /** The cursor after `next` on a deck of `len` slides: one further, unless already on the last slide. */
  function NextIndex(current: nat, len: nat): (r: nat)
    requires len > 0
    ensures current < len ==> r < len
    ensures r == current || r == current + 1
    ensures r == current + 1 <==> current + 1 < len
  {
    if current < len - 1 then current + 1 else current
  }

  /** The cursor after `previous`: one back, unless already on the first slide. */
  function PrevIndex(current: nat): (r: nat)
    ensures r <= current && (r == current <==> current == 0)
    ensures current > 0 ==> r + 1 == current
  {
    if current > 0 then current - 1 else current
  }

  /** The cursor after `n` calls of `next`. */
  function Nexts(current: nat, len: nat, n: nat): nat
    requires len > 0
    decreases n
  {
    if n == 0 then current else Nexts(NextIndex(current, len), len, n - 1)
  }

  function Min(a: int, b: int): int
  {
    if a <= b then a else b
  }

  /** `n` calls of `next` from a slide of the deck reach `n` slides further, or stop on the last one. */
  lemma {:induction false} NextsClamp(current: nat, len: nat, n: nat)
    requires current < len
    ensures Nexts(current, len, n) == Min(current + n, len - 1)
    decreases n
  {
    if n > 0 {
      NextsClamp(NextIndex(current, len), len, n - 1);
    }
  }

  /** `previous` undoes a `next` that moved, and `next` undoes a `previous` that moved. */
  lemma NextPrevInverse(current: nat, len: nat)
    requires current < len
    ensures current + 1 < len ==> PrevIndex(NextIndex(current, len)) == current
    ensures current > 0 ==> NextIndex(PrevIndex(current), len) == current
  {
  }

  /**
   * The deck: its slides and the index of the slide on show. The index is
   * always a slide of the deck, or 0 while the deck is empty.
   */
  class Deck {
    var slides: seq<seq<Element>>
    var current: nat

    ghost predicate Valid()
      reads this
    {
      current < |slides| || (slides == [] && current == 0)
    }

    /** `Deck::default`: no slides, on slide 0. */
    constructor ()
      ensures Valid() && slides == [] && current == 0
    {
      slides := [];
      current := 0;
    }

    /** `add`: the slide goes at the end; the cursor and the earlier slides stay. */
    method Add(slide: seq<Element>)
      requires Valid()
      modifies this
      ensures Valid() && slides == old(slides) + [slide] && current == old(current)
    {
      slides := slides + [slide];
    }

    /** `next`: one slide further unless on the last. The deck must not be empty (`len - 1` would underflow). */
    method Next()
      requires Valid() && |slides| > 0
      modifies this
      ensures Valid() && slides == old(slides) && current == NextIndex(old(current), |slides|)
    {
      if current < |slides| - 1 {
        current := current + 1;
      }
    }

    /** `previous`: one slide back unless on the first. */
    method Previous()
      requires Valid()
      modifies this
      ensures Valid() && slides == old(slides) && current == PrevIndex(old(current))
    {
      if current > 0 {
        current := current - 1;
      }
    }

    /** `slide`: the slide on show; `None` where the source's index would be out of bounds (an empty deck). */
    method SlideAt() returns (s: Option<seq<Element>>)
      requires Valid()
      ensures s.Some? <==> slides != []
      ensures s.Some? ==> current < |slides| && s.value == slides[current]
    {
      if current < |slides| {
        s := Some(slides[current]);
      } else {
        s := None;
      }
    }

    /** `current_num`. */
    method CurrentNum() returns (n: nat)
      ensures n == current
    {
      n := current;
    }
  }
}
