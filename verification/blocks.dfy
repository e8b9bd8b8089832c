/**
 * The building blocks both renderers print, read back through the outline:
 * an element's block, a side's three wrappers around its elements, a card's
 * three wrappers around its sides, and the sides a card lays out. Each lemma
 * says what a block adds to the outline and that it keeps the markup
 * balanced, whatever the classes and texts the renderer fills in.
 */
module Blocks {
  import opened Values
  import opened ElementOrder
  import opened Markup
  import opened Outline

  // ---------------------------------------------------------------------------
  // Element blocks.

  /** A wrapper div of an element's block is recognised as that element and nothing else. */
  lemma ElementDivMarks(e: Element)
    ensures ElementMark(Div(ElementClass(e))) == Some(e)
    ensures SideMark(Div(ElementClass(e))).None? && CardMark(Div(ElementClass(e))).None?
  {
  }

  /** `fs` is one balanced block of element `e` and holds no other block, side or card. */
  predicate OneBlock(fs: seq<Frag>, e: Element) {
    ElementMarks(fs) == [e] && SideMarks(fs) == [] && CardMarks(fs) == [] && Balanced(fs)
  }

  /**
   * An element's block: its wrapper opened, a balanced body that opens
   * nothing the outline records, and the wrapper closed. It prints nothing
   * raw when neither the wrapper nor the body does.
   */
  lemma ElementBlock(e: Element, open: Frag, body: seq<Frag>)
    requires open.Open? && ElementMark(open) == Some(e) && SideMark(open).None? && CardMark(open).None?
    requires Balanced(body) && Unmarked(body)
    ensures OneBlock([open] + body + [Close(open.tag)], e)
    ensures FragEscaped(open) && AllEscaped(body) ==> AllEscaped([open] + body + [Close(open.tag)])
  {
    var close := [Close(open.tag)];
    UnmarkedPlain(close);
    MarksConcat([open], body);
    MarksConcat([open] + body, close);
    BalancedWrap(open, body, Close(open.tag));
    if FragEscaped(open) && AllEscaped(body) {
      var fs := [open] + body + close;
      forall i | 0 <= i < |fs| ensures FragEscaped(fs[i]) {
        if 0 < i < |fs| - 1 {
          assert fs[i] == body[i - 1];
        }
      }
    }
  }

  /** A single text run, void tag or icon makes a plain, balanced body. */
  lemma LeafBody(f: Frag)
    requires f.Void? || f.Text? || f.Glyph?
    ensures Balanced([f]) && Unmarked([f])
  {
    BalancedLeaf(f);
    UnmarkedPlain([f]);
  }

  /** `<tag>text</tag>` inside a block: plain and balanced. */
  lemma WrappedTextBody(open: Frag, text: Frag)
    requires open.Open? && (OpenClass(open).None? || ClassPlain(OpenClass(open).value))
    requires text.Text?
    ensures Balanced([open, text, Close(open.tag)]) && Unmarked([open, text, Close(open.tag)])
  {
    LeafBody(text);
    UnmarkedPlain([open, text, Close(open.tag)]);
    assert [open, text, Close(open.tag)] == [open] + [text] + [Close(open.tag)];
    BalancedWrap(open, [text], Close(open.tag));
  }

  /** A fragment list that opens no side or card and is balanced. */
  predicate SideContent(fs: seq<Frag>) {
    SideMarks(fs) == [] && CardMarks(fs) == [] && Balanced(fs)
  }

  /** Element output appended to element output: the outlines follow each other. */
  lemma ContentConcat(a: seq<Frag>, b: seq<Frag>)
    requires SideContent(a) && SideContent(b)
    ensures SideContent(a + b) && ElementMarks(a + b) == ElementMarks(a) + ElementMarks(b)
  {
    MarksConcat(a, b);
    BalancedConcat(a, b);
  }

  // ---------------------------------------------------------------------------
  // Side and card wrappers.

  /** Three nested wrappers around a balanced body make a balanced whole. */
  lemma BalancedThree(a: Frag, b: Frag, c: Frag, body: seq<Frag>)
    requires a.Open? && a.tag == Lit("div") && b.Open? && b.tag == Lit("div") && c.Open? && c.tag == Lit("div")
    requires Balanced(body)
    ensures Balanced([a, b, c] + body + [EndDiv, EndDiv, EndDiv])
  {
    BalancedWrap(c, body, EndDiv);
    BalancedWrap(b, [c] + body + [EndDiv], EndDiv);
    BalancedWrap(a, [b] + ([c] + body + [EndDiv]) + [EndDiv], EndDiv);
    assert [a, b, c] + body + [EndDiv, EndDiv, EndDiv] ==
           [a] + ([b] + ([c] + body + [EndDiv]) + [EndDiv]) + [EndDiv];
  }

  /** The inner wrappers of cards and sides carry classes the outline does not record. */
  lemma PlainWrappers()
    ensures OpenClass(Div("ufae-flipbox-inner")).value == [Lit("ufae-flipbox-inner")]
    ensures ClassPlain([Lit("ufae-flipbox-inner")]) && ClassPlain([Lit("ufae-flipbox-inner-overlay")])
    ensures ClassPlain([Lit("ufae-flipbox-content")]) && ClassPlain([Lit("ufae-flipbox-content-overlay")])
  {
  }

  /** The side wrapper's opening tag with class `cls`. */
  function SideOpen(cls: Markup): Frag {
    Open(Lit("div"), [Attr("class", cls)])
  }

  /** A side wrapper class the outline reads as `side` with extra class `wrp`, and as nothing else. */
  predicate SideClass(cls: Markup, side: Side, wrp: string) {
    SideMark(SideOpen(cls)) == Some((side, wrp)) && ElementMark(SideOpen(cls)).None? && CardMark(SideOpen(cls)).None?
  }

  /** The three opening wrappers of a side. */
  function SideHead(cls: Markup): seq<Frag> {
    [SideOpen(cls), Div("ufae-flipbox-content-overlay"), Div("ufae-flipbox-content")]
  }

  /** A side: its three wrappers around the elements. */
  function SideWrapped(cls: Markup, body: seq<Frag>): seq<Frag> {
    SideHead(cls) + body + [EndDiv, EndDiv, EndDiv]
  }

  lemma SideHeadMarks(cls: Markup, side: Side, wrp: string)
    requires SideClass(cls, side, wrp)
    ensures SideMarks(SideHead(cls)) == [(side, wrp)]
    ensures ElementMarks(SideHead(cls)) == [] && CardMarks(SideHead(cls)) == []
  {
    var plain := [Div("ufae-flipbox-content-overlay"), Div("ufae-flipbox-content")];
    PlainWrappers();
    UnmarkedPlain(plain);
    MarksConcat([SideOpen(cls)], plain);
    assert SideHead(cls) == [SideOpen(cls)] + plain;
  }

  /** The side wrapper adds exactly its own side to the outline and keeps the markup balanced. */
  lemma SideWrappedMarks(cls: Markup, side: Side, wrp: string, body: seq<Frag>)
    requires SideClass(cls, side, wrp) && SideContent(body)
    ensures SideMarks(SideWrapped(cls, body)) == [(side, wrp)]
    ensures ElementMarks(SideWrapped(cls, body)) == ElementMarks(body)
    ensures CardMarks(SideWrapped(cls, body)) == []
    ensures Balanced(SideWrapped(cls, body))
  {
    var tail := [EndDiv, EndDiv, EndDiv];
    var heads := SideHead(cls);
    SideHeadMarks(cls, side, wrp);
    UnmarkedPlain(tail);
    MarksConcat(heads, body);
    MarksConcat(heads + body, tail);
    BalancedThree(heads[0], heads[1], heads[2], body);
  }

  /** A side prints nothing raw when its class and its elements do not. */
  lemma SideWrappedEscaped(cls: Markup, body: seq<Frag>)
    requires FragEscaped(SideOpen(cls)) && AllEscaped(body)
    ensures AllEscaped(SideWrapped(cls, body))
  {
    EscapedConcat(SideHead(cls), body);
    EscapedConcat(SideHead(cls) + body, [EndDiv, EndDiv, EndDiv]);
  }

  /** A card wrapper's opening tag the outline reads as the card `id`, and as nothing else. */
  predicate CardOpening(open: Frag, id: string) {
    open.Open? && open.tag == Lit("div") && CardMark(open) == Some(id) && ElementMark(open).None? && SideMark(open).None?
  }

  /** The three opening wrappers of a card. */
  function CardHead(open: Frag): seq<Frag> {
    [open, Div("ufae-flipbox-inner"), Div("ufae-flipbox-inner-overlay")]
  }

  /** A card: its three wrappers around the sides. */
  function CardWrapped(open: Frag, body: seq<Frag>): seq<Frag> {
    CardHead(open) + body + [EndDiv, EndDiv, EndDiv]
  }

  lemma CardHeadMarks(open: Frag, id: string)
    requires CardOpening(open, id)
    ensures CardMarks(CardHead(open)) == [id]
    ensures ElementMarks(CardHead(open)) == [] && SideMarks(CardHead(open)) == []
  {
    var plain := [Div("ufae-flipbox-inner"), Div("ufae-flipbox-inner-overlay")];
    PlainWrappers();
    UnmarkedPlain(plain);
    MarksConcat([open], plain);
    assert CardHead(open) == [open] + plain;
  }

  /** The card wrapper adds exactly its own card to the outline and keeps the markup balanced. */
  lemma CardWrappedMarks(open: Frag, id: string, body: seq<Frag>)
    requires CardOpening(open, id) && CardMarks(body) == [] && Balanced(body)
    ensures CardMarks(CardWrapped(open, body)) == [id]
    ensures SideMarks(CardWrapped(open, body)) == SideMarks(body)
    ensures ElementMarks(CardWrapped(open, body)) == ElementMarks(body)
    ensures Balanced(CardWrapped(open, body))
  {
    var tail := [EndDiv, EndDiv, EndDiv];
    var heads := CardHead(open);
    CardHeadMarks(open, id);
    UnmarkedPlain(tail);
    MarksConcat(heads, body);
    MarksConcat(heads + body, tail);
    BalancedThree(heads[0], heads[1], heads[2], body);
  }

  /** A card prints nothing raw when its wrapper and its sides do not. */
  lemma CardWrappedEscaped(open: Frag, body: seq<Frag>)
    requires FragEscaped(open) && AllEscaped(body)
    ensures AllEscaped(CardWrapped(open, body))
  {
    EscapedConcat(CardHead(open), body);
    EscapedConcat(CardHead(open) + body, [EndDiv, EndDiv, EndDiv]);
  }

  /** The card wrapper and its two inner wrappers around a balanced body: one top-level element. */
  lemma CardWrappedLevel(open: Frag, body: seq<Frag>)
    requires open.Open? && open.tag == Lit("div") && Balanced(body)
    ensures Level(CardWrapped(open, body), [], 0) == [open]
  {
    var m := [Div("ufae-flipbox-inner-overlay")] + body + [EndDiv];
    Wrapped(Div("ufae-flipbox-inner-overlay"), body);
    var m2 := [Div("ufae-flipbox-inner")] + m + [EndDiv];
    Wrapped(Div("ufae-flipbox-inner"), m);
    Wrapped(open, m2);
    assert CardWrapped(open, body) == [open] + m2 + [EndDiv];
  }

  // ---------------------------------------------------------------------------
  // The sides of a card.

  /** The widget lays its cards out as a horizontal slider: the layout setting is exactly 'horizontal'. */
  predicate Horizontal(settings: Bag) {
    IsText(Get(settings, "ufae_layout_option"), "horizontal")
  }

  /** The item shows a back side: its back switch is exactly 'yes'. */
  predicate BackEnabled(item: Bag) {
    IsText(Get(item, "ufae_back_enable"), "yes")
  }

  const DuplicateClass: string := " ufae-front_duplicate"
  const DuplicateOverlayClass: string := " ufae-front-duplicate_overlay"

  /** The sides a card renders, with their extra wrapper classes, in order. */
  function CardPlan(curtain: bool, back: bool): seq<(Side, string)> {
    [(Front, "")] +
    (if curtain && back then [(Front, DuplicateClass), (Front, DuplicateOverlayClass)] else []) +
    (if back then [(Back, "")] else [])
  }

  /** A card renders one, two or four sides. */
  lemma CardPlanSize(curtain: bool, back: bool)
    ensures |CardPlan(curtain, back)| == if !back then 1 else if curtain then 4 else 2
  {
  }

  /** The sides a card renders, laid out as `CardPlan` says. */
  function PlanSides<T>(curtain: bool, back: bool, front: seq<T>, dup1: seq<T>, dup2: seq<T>, backSide: seq<T>): seq<T> {
    front + (if curtain && back then dup1 + dup2 else []) + (if back then backSide else [])
  }

  /** Output that grows by the front, then the two duplicates when both apply, then the back when enabled, grows by `PlanSides`. */
  lemma PlanSidesAppended<T>(start: seq<T>, afterFront: seq<T>, afterCurtain: seq<T>, end: seq<T>,
                             curtain: bool, back: bool, front: seq<T>, dup1: seq<T>, dup2: seq<T>, backSide: seq<T>)
    requires afterFront == start + front
    requires afterCurtain == if curtain && back then afterFront + dup1 + dup2 else afterFront
    requires end == if back then afterCurtain + backSide else afterCurtain
    ensures end == start + PlanSides(curtain, back, front, dup1, dup2, backSide)
  {
  }

  /** `fs` is one balanced side wrapper for `side` with extra class `wrp`, showing `shown`. */
  predicate SideOutline(fs: seq<Frag>, side: Side, wrp: string, shown: seq<Element>) {
    SideMarks(fs) == [(side, wrp)] && ElementMarks(fs) == shown && CardMarks(fs) == [] && Balanced(fs)
  }

  /** Two sides in a row keep their outlines in a row. */
  lemma SidesConcat(a: seq<Frag>, b: seq<Frag>)
    requires CardMarks(a) == [] && Balanced(a)
    requires CardMarks(b) == [] && Balanced(b)
    ensures CardMarks(a + b) == [] && Balanced(a + b)
    ensures SideMarks(a + b) == SideMarks(a) + SideMarks(b) && ElementMarks(a + b) == ElementMarks(a) + ElementMarks(b)
  {
    MarksConcat(a, b);
    BalancedConcat(a, b);
  }

  /** Sides laid out by `CardPlan` give the plan's outline: the sides in order, each with its elements. */
  lemma PlanOutline(curtain: bool, back: bool, front: seq<Frag>, dup1: seq<Frag>, dup2: seq<Frag>, backSide: seq<Frag>,
                    frontShown: seq<Element>, backShown: seq<Element>)
    requires SideOutline(front, Front, "", frontShown)
    requires SideOutline(dup1, Front, DuplicateClass, frontShown)
    requires SideOutline(dup2, Front, DuplicateOverlayClass, frontShown)
    requires SideOutline(backSide, Back, "", backShown)
    ensures var fs := PlanSides(curtain, back, front, dup1, dup2, backSide);
      SideMarks(fs) == CardPlan(curtain, back) &&
      ElementMarks(fs) == PlanSides(curtain, back, frontShown, frontShown, frontShown, backShown) &&
      CardMarks(fs) == [] && Balanced(fs)
  {
    var dups := if curtain && back then dup1 + dup2 else [];
    var last := if back then backSide else [];
    SidesConcat(dup1, dup2);
    SidesConcat(front, dups);
    SidesConcat(front + dups, last);
  }

  /** Sides laid out by `CardPlan` print nothing raw when none of them does. */
  lemma PlanEscaped(curtain: bool, back: bool, front: seq<Frag>, dup1: seq<Frag>, dup2: seq<Frag>, backSide: seq<Frag>)
    requires AllEscaped(front) && AllEscaped(dup1) && AllEscaped(dup2) && AllEscaped(backSide)
    ensures AllEscaped(PlanSides(curtain, back, front, dup1, dup2, backSide))
  {
    var dups := if curtain && back then dup1 + dup2 else [];
    var last := if back then backSide else [];
    EscapedConcat(dup1, dup2);
    EscapedConcat(front, dups);
    EscapedConcat(front + dups, last);
  }
}
