/**
 * Splitting a markdown document into slides at horizontal rules
 * (src/split.rs). The markdown tokenizer is not modelled: the splitter
 * receives the events it would produce, each paired with the offset into
 * the document the tokenizer has reached after that event.
 *
 * A call to `next` pulls events until it can cut a slide: a rule cuts the
 * slide before it, and when the events run out the rest of the document is
 * the last slide. Image start events record a fetch of the image, which is
 * synchronous on the first slide and in the background afterwards.
 */
module Split {
  import opened Events

  /** An event with the offset the tokenizer has reached after it. */
  datatype Parsed = Parsed(event: Event, offset: nat)

  /** What the tokenizer guarantees: offsets stay inside the document and never go back. */
  ghost predicate WellFormed(buf: string, events: seq<Parsed>)
  {
    && (forall i :: 0 <= i < |events| ==> events[i].offset <= |buf|)
    && (forall i, j :: 0 <= i <= j < |events| ==> events[i].offset <= events[j].offset)
  }

  /** A slide: its offset in the document, and its text. */
  datatype Slice = Slice(offset: nat, content: string)

  /** The outcome of one `next` call: a slide, the end of the iteration, or a process abort. */
  datatype Yield = Cut(slice: Slice) | Done | Abort

  /** An image fetch, synchronous (first slide) or spawned in the background. */
  datatype Fetch = Sync(path: string) | Async(path: string)

  /** The splitter's state: events consumed, start of the pending slide, end of its content, first-slide flag. */
  datatype State = State(pos: nat, start: nat, end: nat, firstPage: bool)

  /** Start of the splitter (`split`): nothing consumed, both offsets at 0, on the first slide. */
  const Initial := State(0, 0, 0, true)

  /** The state invariant: the offsets are inside the document and at or before every offset still to come. */
  ghost predicate Consistent(buf: string, events: seq<Parsed>, st: State)
  {
    && st.pos <= |events| && st.start <= |buf| && st.end <= |buf|
    && forall i :: st.pos <= i < |events| ==> st.start <= events[i].offset && st.end <= events[i].offset
  }

  /** Whether a rule (a start event immediately followed by its end event) begins at `i`. */
  predicate RuleAt(events: seq<Parsed>, i: nat)
  {
    i + 1 < |events| && events[i].event == Start(Rule) && events[i + 1].event == End(Rule)
  }

  /** The result of one `next` call, with the fetches it made and whether it cut the slide at a rule. */
  datatype Step = Step(y: Yield, st: State, fetched: seq<Fetch>, byRule: bool)

  /** `next` once the events have run out: the rest of the document, unless it is all consumed. */
  function EndStep(buf: string, st: State): (r: Step)
    requires st.start <= |buf|
    ensures !r.byRule && r.st.start == |buf| && r.fetched == []
    ensures r.y.Cut? ==> st.start < |buf|
  {
    if st.start == |buf| then Step(Done, st, [], false)
    else Step(Cut(Slice(st.start, buf[st.start..])), st.(start := |buf|), [], false)
  }

  /** `next` at a rule start: the start and the event after it (if any) are consumed. */
  ghost function RuleStep(buf: string, events: seq<Parsed>, st: State): (r: Step)
    requires WellFormed(buf, events) && Consistent(buf, events, st)
    requires st.pos < |events| && events[st.pos].event == Start(Rule)
    ensures Consistent(buf, events, r.st) && st.pos < r.st.pos && r.fetched == []
    ensures r.y.Cut? == r.byRule && (r.byRule ==> st.pos + 2 <= r.st.pos)
    ensures RuleAt(events, st.pos) && st.start <= st.end ==>
              && r.byRule
              && r.y == Cut(Slice(st.start, buf[st.start..st.end]))
              && r.st == State(st.pos + 2, events[st.pos + 1].offset, st.end, false)
    ensures !(RuleAt(events, st.pos) && st.start <= st.end) ==> r.y == Abort
  {
    var consumed := st.(pos := if st.pos + 1 < |events| then st.pos + 2 else |events|);
    if RuleAt(events, st.pos) then
      if st.start <= st.end then
        Step(Cut(Slice(st.start, buf[st.start..st.end])),
             consumed.(start := events[st.pos + 1].offset, firstPage := false), [], true)
      else
        Step(Abort, consumed, [], false)      // the slice `start..end` is out of order
    else
      Step(Abort, consumed, [], false)        // a rule start not followed by its end
  }

  /** The fetch an event starts: one for an image, synchronous on the first slide; none otherwise. */
  function ImageFetch(e: Event, firstPage: bool): (fs: seq<Fetch>)
    ensures |fs| <= 1 && (fs != [] <==> e.Start? && e.tag.Image?)
    ensures forall k :: 0 <= k < |fs| ==> fs[k].path == e.tag.dest && fs[k].Sync? == firstPage
  {
    if e.Start? && e.tag.Image? then [if firstPage then Sync(e.tag.dest) else Async(e.tag.dest)] else []
  }

  /** One call of `next`. */
  ghost function NextStep(buf: string, events: seq<Parsed>, st: State): (r: Step)
    requires WellFormed(buf, events) && Consistent(buf, events, st)
    ensures Consistent(buf, events, r.st) && st.pos <= r.st.pos
    ensures r.byRule ==> r.y.Cut? && st.pos + 2 <= r.st.pos
    ensures r.y.Cut? && !r.byRule ==> st.start < |buf| && r.st.start == |buf|
    decreases |events| - st.pos
  {
    if st.pos == |events| then EndStep(buf, st)
    else
      var e := events[st.pos];
      if e.event == Start(Rule) then RuleStep(buf, events, st)
      else
        Prefixed(ImageFetch(e.event, st.firstPage), NextStep(buf, events, st.(pos := st.pos + 1, end := e.offset)))
  }

  /**
   * A slide cut at a rule runs from the pending start to the end of the last
   * event before the rule; the start moves past the rule and the first-slide
   * flag is cleared.
   */
  ghost predicate RuleCutFrom(buf: string, events: seq<Parsed>, start: nat, r: Step)
  {
    r.byRule ==>
      && 2 <= r.st.pos <= |events|
      && start <= r.st.end <= events[r.st.pos - 1].offset <= |buf|
      && r.y == Cut(Slice(start, buf[start..r.st.end]))
      && RuleAt(events, r.st.pos - 2)
      && r.st.start == events[r.st.pos - 1].offset
      && !r.st.firstPage
  }

  lemma RuleStepCut(buf: string, events: seq<Parsed>, st: State)
    requires WellFormed(buf, events) && Consistent(buf, events, st)
    requires st.pos < |events| && events[st.pos].event == Start(Rule)
    ensures RuleCutFrom(buf, events, st.start, RuleStep(buf, events, st))
  {
  }

  lemma {:induction false} RuleCut(buf: string, events: seq<Parsed>, st: State)
    requires WellFormed(buf, events) && Consistent(buf, events, st)
    ensures RuleCutFrom(buf, events, st.start, NextStep(buf, events, st))
    decreases |events| - st.pos
  {
    if st.pos < |events| {
      if events[st.pos].event == Start(Rule) {
        RuleStepCut(buf, events, st);
      } else {
        RuleCut(buf, events, st.(pos := st.pos + 1, end := events[st.pos].offset));
      }
    }
  }

  /** When the events run out, the rest of the document is the last slide, or nothing when it is all consumed. */
  lemma {:induction false} TailCut(buf: string, events: seq<Parsed>, st: State)
    requires WellFormed(buf, events) && Consistent(buf, events, st)
    ensures var r := NextStep(buf, events, st);
            && (r.y.Cut? && !r.byRule ==>
                  r.y.slice == Slice(st.start, buf[st.start..]) && r.st.pos == |events| && r.st.firstPage == st.firstPage)
            && (r.y.Done? ==> r.st.pos == |events| && st.start == |buf| && r.st.start == |buf|)
    decreases |events| - st.pos
  {
    if st.pos < |events| && events[st.pos].event != Start(Rule) {
      TailCut(buf, events, st.(pos := st.pos + 1, end := events[st.pos].offset));
    }
  }

  /** The first-slide flag is cleared exactly by a slide cut at a rule. */
  lemma {:induction false} FirstPageCleared(buf: string, events: seq<Parsed>, st: State)
    requires WellFormed(buf, events) && Consistent(buf, events, st)
    ensures var r := NextStep(buf, events, st);
            r.st.firstPage == (st.firstPage && !r.byRule)
    decreases |events| - st.pos
  {
    if st.pos < |events| && events[st.pos].event != Start(Rule) {
      FirstPageCleared(buf, events, st.(pos := st.pos + 1, end := events[st.pos].offset));
    }
  }

  /** Every fetch in `fetched` is synchronous exactly when `sync` holds. */
  predicate AllFetches(fetched: seq<Fetch>, sync: bool)
  {
    forall k :: 0 <= k < |fetched| ==> fetched[k].Sync? == sync
  }

  /** Fetches are synchronous exactly while on the first slide. */
  lemma {:induction false} NextStepFetches(buf: string, events: seq<Parsed>, st: State)
    requires WellFormed(buf, events) && Consistent(buf, events, st)
    ensures AllFetches(NextStep(buf, events, st).fetched, st.firstPage)
    decreases |events| - st.pos
  {
    if st.pos < |events| && events[st.pos].event != Start(Rule) {
      var next := st.(pos := st.pos + 1, end := events[st.pos].offset);
      NextStepFetches(buf, events, next);
      var f := ImageFetch(events[st.pos].event, st.firstPage);
      assert NextStep(buf, events, st).fetched == f + NextStep(buf, events, next).fetched;
    }
  }

  /** A rule start not followed by its end aborts. */
  lemma UnmatchedRuleAborts(buf: string, events: seq<Parsed>, st: State)
    requires WellFormed(buf, events) && Consistent(buf, events, st)
    requires st.pos < |events| && events[st.pos].event == Start(Rule)
    requires st.pos + 1 == |events| || events[st.pos + 1].event != End(Rule)
    ensures NextStep(buf, events, st).y == Abort
  {
  }

  /** The position of the first rule start at or after `from`, or the end of the events when there is none. */
  function FirstRule(events: seq<Parsed>, from: nat): (h: nat)
    requires from <= |events|
    ensures from <= h <= |events|
    ensures forall i :: from <= i < h ==> events[i].event != Start(Rule)
    ensures h < |events| ==> events[h].event == Start(Rule)
    decreases |events| - from
  {
    if from == |events| || events[from].event == Start(Rule) then from else FirstRule(events, from + 1)
  }

  /** The image paths a run of events starts, in order. */
  function ImagePaths(es: seq<Parsed>): (paths: seq<string>)
    ensures |paths| <= |es|
    ensures (forall i :: 0 <= i < |es| ==> !(es[i].event.Start? && es[i].event.tag.Image?)) ==> paths == []
  {
    if es == [] then []
    else
      var e := es[0].event;
      (if e.Start? && e.tag.Image? then [e.tag.dest] else []) + ImagePaths(es[1..])
  }

  /** The fetches a run of events makes: one per image start, all synchronous or all in the background. */
  function Fetches(es: seq<Parsed>, firstPage: bool): (fs: seq<Fetch>)
    ensures |fs| == |ImagePaths(es)|
    ensures forall k :: 0 <= k < |fs| ==> fs[k].path == ImagePaths(es)[k] && fs[k].Sync? == firstPage
  {
    if es == [] then [] else ImageFetch(es[0].event, firstPage) + Fetches(es[1..], firstPage)
  }

  /** The state after passing every event from `st.pos` up to `h`: the content ends where the last of them ends. */
  ghost function Skipped(buf: string, events: seq<Parsed>, st: State, h: nat): (r: State)
    requires WellFormed(buf, events) && Consistent(buf, events, st) && st.pos <= h <= |events|
    ensures Consistent(buf, events, r) && r.pos == h && r.start == st.start && r.firstPage == st.firstPage
  {
    st.(pos := h, end := if h > st.pos then events[h - 1].offset else st.end)
  }

  /**
   * One call of `next` passes every event up to the first rule start (or the
   * end of the events), fetching their images in order, and then cuts there.
   */
  lemma {:induction false} NextStepSkips(buf: string, events: seq<Parsed>, st: State)
    requires WellFormed(buf, events) && Consistent(buf, events, st)
    ensures var h := FirstRule(events, st.pos);
            var passed := Skipped(buf, events, st, h);
            NextStep(buf, events, st)
              == Prefixed(Fetches(events[st.pos..h], st.firstPage),
                          if h == |events| then EndStep(buf, passed) else RuleStep(buf, events, passed))
    decreases |events| - st.pos
  {
    var h := FirstRule(events, st.pos);
    if st.pos == |events| || events[st.pos].event == Start(Rule) {
      assert events[st.pos..h] == [];
      assert Skipped(buf, events, st, h) == st;
    } else {
      var next := st.(pos := st.pos + 1, end := events[st.pos].offset);
      NextStepSkips(buf, events, next);
      assert FirstRule(events, next.pos) == h;
      assert Skipped(buf, events, next, h) == Skipped(buf, events, st, h);
      var first := ImageFetch(events[st.pos].event, st.firstPage);
      var rest := Fetches(events[st.pos + 1..h], st.firstPage);
      assert events[st.pos..h][1..] == events[st.pos + 1..h];
      assert Fetches(events[st.pos..h], st.firstPage) == first + rest;
      var passed := Skipped(buf, events, st, h);
      PrefixedTwice(first, rest, if h == |events| then EndStep(buf, passed) else RuleStep(buf, events, passed));
    }
  }

  /**
   * Where `next` cuts at a rule: it cuts exactly when the first rule start
   * ahead is matched by its end and the pending start is not past the end
   * of the last event before it. The slide then runs from the pending start
   * to that end, and the start moves to the end of the rule. Either way the
   * fetches are those of the image starts passed, in order.
   */
  lemma RuleCutExact(buf: string, events: seq<Parsed>, st: State)
    requires WellFormed(buf, events) && Consistent(buf, events, st)
    ensures var r := NextStep(buf, events, st);
            var h := FirstRule(events, st.pos);
            var end := if h > st.pos then events[h - 1].offset else st.end;
            && r.fetched == Fetches(events[st.pos..h], st.firstPage)
            && (r.byRule <==> RuleAt(events, h) && st.start <= end)
            && (r.byRule ==> r.y == Cut(Slice(st.start, buf[st.start..end])) && r.st == State(h + 2, events[h + 1].offset, end, false))
            && (h < |events| && !r.byRule ==> r.y == Abort)
  {
    NextStepSkips(buf, events, st);
    var h := FirstRule(events, st.pos);
    var passed := Skipped(buf, events, st, h);
    var end := if h > st.pos then events[h - 1].offset else st.end;
    assert passed == State(h, st.start, end, st.firstPage);
    if h < |events| {
      assert NextStep(buf, events, st) == Prefixed(Fetches(events[st.pos..h], st.firstPage), RuleStep(buf, events, passed));
    } else {
      assert NextStep(buf, events, st) == Prefixed(Fetches(events[st.pos..h], st.firstPage), EndStep(buf, passed));
    }
  }

  /** What iterating the splitter to its end gives: the slides in order, and whether it ended in an abort. */
  datatype Outcome = Outcome(slides: seq<Slice>, aborted: bool)

  ghost function Drain(buf: string, events: seq<Parsed>, st: State): (o: Outcome)
    requires WellFormed(buf, events) && Consistent(buf, events, st)
    decreases |events| - st.pos, if st.start == |buf| then 0 else 1
  {
    var r := NextStep(buf, events, st);
    match r.y
    case Done => Outcome([], false)
    case Abort => Outcome([], true)
    case Cut(s) =>
      var rest := Drain(buf, events, r.st);
      Outcome([s] + rest.slides, rest.aborted)
  }

  /** No rule starts at or after position `pos`. */
  predicate NoRuleFrom(events: seq<Parsed>, pos: nat)
  {
    forall i :: pos <= i < |events| ==> events[i].event != Start(Rule)
  }

  /** Without rules ahead, one call yields the rest of the document (or nothing, when it is all consumed). */
  lemma {:induction false} NoRuleStep(buf: string, events: seq<Parsed>, st: State)
    requires WellFormed(buf, events) && Consistent(buf, events, st) && NoRuleFrom(events, st.pos)
    ensures var r := NextStep(buf, events, st);
            && r.st.pos == |events|
            && r.y == (if st.start == |buf| then Done else Cut(Slice(st.start, buf[st.start..])))
            && r.st.start == |buf|
    decreases |events| - st.pos
  {
    if st.pos < |events| {
      NoRuleStep(buf, events, st.(pos := st.pos + 1, end := events[st.pos].offset));
    }
  }

  /**
   * A document without rules is one slide, the whole document, at offset 0;
   * an empty document without rules gives no slide.
   */
  lemma NoRulesOneSlide(buf: string, events: seq<Parsed>)
    requires WellFormed(buf, events) && NoRuleFrom(events, 0)
    ensures Drain(buf, events, Initial) == Outcome(if buf == [] then [] else [Slice(0, buf)], false)
  {
    NoRuleStep(buf, events, Initial);
    var r := NextStep(buf, events, Initial);
    if buf != [] {
      assert buf[0..] == buf;
      NoRuleStep(buf, events, r.st);
    }
  }

  /** A slide is the piece of the document at its offset. */
  ghost predicate InDocument(buf: string, s: Slice)
  {
    s.offset + |s.content| <= |buf| && s.content == buf[s.offset..s.offset + |s.content|]
  }

  /** The slide one call yields is a piece of the document at the pending start, ending at or before the next start. */
  lemma CutInDocument(buf: string, events: seq<Parsed>, st: State)
    requires WellFormed(buf, events) && Consistent(buf, events, st)
    ensures var r := NextStep(buf, events, st);
            r.y.Cut? ==> InDocument(buf, r.y.slice) && r.y.slice.offset == st.start &&
                         r.y.slice.offset + |r.y.slice.content| <= r.st.start
  {
    RuleCut(buf, events, st);
    TailCut(buf, events, st);
  }

  /** The slides are pieces of the document, at or after `from`, in document order and without overlap. */
  ghost predicate Ordered(buf: string, slides: seq<Slice>, from: nat)
  {
    && (forall k :: 0 <= k < |slides| ==> InDocument(buf, slides[k]) && from <= slides[k].offset)
    && (forall k :: 0 <= k < |slides| - 1 ==> slides[k].offset + |slides[k].content| <= slides[k + 1].offset)
  }

  /** A slide ending at or before `next` followed by slides ordered from `next`. */
  lemma OrderedCons(buf: string, s: Slice, rest: seq<Slice>, next: nat)
    requires InDocument(buf, s) && s.offset + |s.content| <= next && Ordered(buf, rest, next)
    ensures Ordered(buf, [s] + rest, s.offset)
  {
    var all := [s] + rest;
    forall k | 0 <= k < |all| - 1
      ensures all[k].offset + |all[k].content| <= all[k + 1].offset
    {
      if k > 0 {
        assert all[k] == rest[k - 1] && all[k + 1] == rest[k];
      }
    }
  }

  /** The slides iteration yields are pieces of the document, in document order and without overlap, all at or after the pending start. */
  lemma {:induction false} SlidesOrdered(buf: string, events: seq<Parsed>, st: State)
    requires WellFormed(buf, events) && Consistent(buf, events, st)
    ensures Ordered(buf, Drain(buf, events, st).slides, st.start)
    decreases |events| - st.pos, if st.start == |buf| then 0 else 1
  {
    var r := NextStep(buf, events, st);
    if r.y.Cut? {
      CutInDocument(buf, events, st);
      SlidesOrdered(buf, events, r.st);
      OrderedCons(buf, r.y.slice, Drain(buf, events, r.st).slides, r.st.start);
    }
  }

  /**
   * Two rules in a row abort: the first cuts a slide and moves the start
   * past itself, and the second asks for the slice from that start back to
   * the end of the last event before the first rule.
   */
  lemma BackToBackRulesAbort()
    ensures var buf := "---\n---\n";
            var events := [Parsed(Start(Rule), 3), Parsed(End(Rule), 4), Parsed(Start(Rule), 7), Parsed(End(Rule), 8)];
            WellFormed(buf, events) && Drain(buf, events, Initial) == Outcome([Slice(0, "")], true)
  {
    var buf := "---\n---\n";
    var events := [Parsed(Start(Rule), 3), Parsed(End(Rule), 4), Parsed(Start(Rule), 7), Parsed(End(Rule), 8)];
    var r := NextStep(buf, events, Initial);
    assert r.st == State(2, 4, 0, false);
    assert NextStep(buf, events, r.st).y == Abort;
  }

  /** A step with fetches made before it. */
  function Prefixed(fetched: seq<Fetch>, r: Step): (p: Step)
    ensures p.y == r.y && p.st == r.st && p.byRule == r.byRule && p.fetched == fetched + r.fetched
  {
    r.(fetched := fetched + r.fetched)
  }

  lemma PrefixedTwice(a: seq<Fetch>, b: seq<Fetch>, r: Step)
    ensures Prefixed(a, Prefixed(b, r)) == Prefixed(a + b, r)
  {
    assert a + (b + r.fetched) == (a + b) + r.fetched;
  }

  /**
   * The splitter over one document: the document, the tokenizer's events for
   * it, how many of them were consumed, and the two offsets and the flag of
   * the source. `fetches` logs the image fetches, in order.
   */
  class Splitter {
    const buf: string
    const events: seq<Parsed>
    var pos: nat
    var startOffset: nat
    var endOffset: nat
    var firstPage: bool
    ghost var fetches: seq<Fetch>

    function Current(): State
      reads this
    {
      State(pos, startOffset, endOffset, firstPage)
    }

    ghost predicate Valid()
      reads this
    {
      WellFormed(buf, events) && Consistent(buf, events, Current())
    }

    /** `split`: a splitter at the start of the document. */
    constructor (buf: string, events: seq<Parsed>)
      requires WellFormed(buf, events)
      ensures Valid() && this.buf == buf && this.events == events
      ensures Current() == Initial && fetches == []
    {
      this.buf := buf;
      this.events := events;
      pos := 0;
      startOffset := 0;
      endOffset := 0;
      firstPage := true;
      fetches := [];
    }

    /** `next` when the tokenizer has no more events. */
    method AtEnd() returns (y: Yield)
      requires Valid() && pos == |events|
      modifies this
      ensures Valid() && fetches == old(fetches)
      ensures var r := EndStep(buf, old(Current())); y == r.y && Current() == r.st
    {
      if startOffset == |buf| {
        return Done;
      }
      y := Cut(Slice(startOffset, buf[startOffset..]));
      startOffset := |buf|;
    }

    /** `next` at a rule start: the following event must end the rule, else the process exits. */
    method AtRule() returns (y: Yield)
      requires Valid() && pos < |events| && events[pos].event == Start(Rule)
      modifies this
      ensures Valid() && fetches == old(fetches)
      ensures var r := RuleStep(buf, events, old(Current())); y == r.y && Current() == r.st
    {
      pos := pos + 1;
      if pos < |events| {
        var after := events[pos];
        pos := pos + 1;
        if after.event == End(Rule) {
          if startOffset > endOffset {
            return Abort;
          }
          y := Cut(Slice(startOffset, buf[startOffset..endOffset]));
          startOffset := after.offset;
          firstPage := false;
          return;
        }
      }
      return Abort;
    }

    /** One event that neither starts a rule nor ends the events: an image start fetches the image, and the end of the slide content moves to the tokenizer's offset. */
    method Pass()
      requires Valid() && pos < |events| && events[pos].event != Start(Rule)
      modifies this
      ensures Valid()
      ensures Current() == old(Current()).(pos := old(pos) + 1, end := old(events[pos].offset))
      ensures fetches == old(fetches) + ImageFetch(old(events[pos].event), old(firstPage))
    {
      var e := events[pos];
      pos := pos + 1;
      if e.event.Start? && e.event.tag.Image? {
        var path := e.event.tag.dest;
        if firstPage {
          fetches := fetches + [Sync(path)];
        } else {
          fetches := fetches + [Async(path)];
        }
      }
      endOffset := e.offset;
    }

    /** `next`: pulls events until a slide is cut or the events run out. */
    method Next() returns (y: Yield)
      requires Valid()
      modifies this
      ensures Valid()
      ensures var r := NextStep(buf, events, old(Current()));
              y == r.y && Current() == r.st && fetches == old(fetches) + r.fetched
    {
      ghost var r0 := NextStep(buf, events, Current());
      ghost var fetched: seq<Fetch> := [];
      while true
        invariant Valid()
        invariant fetches == old(fetches) + fetched
        invariant r0 == Prefixed(fetched, NextStep(buf, events, Current()))
        decreases |events| - pos
      {
        if pos == |events| {
          y := AtEnd();
          return;
        }
        var e := events[pos];
        if e.event == Start(Rule) {
          y := AtRule();
          return;
        }
        ghost var before := Current();
        Pass();
        PrefixedTwice(fetched, ImageFetch(e.event, before.firstPage), NextStep(buf, events, Current()));
        fetched := fetched + ImageFetch(e.event, before.firstPage);
      }
    }
  }
}
