/**
 * The outline of rendered markup: which element blocks, side wrappers and
 * cards it contains, in order, recognised by the class names both renderers
 * give them.
 */
module Outline {
  import opened Values
  import opened ElementOrder
  import opened Markup

  /** The wrapper class an element's block opens with. */
  function ElementClass(e: Element): string {
    match e
    case Icon => "ufae-icon-wrapper"
    case Title => "ufae-title"
    case Desc => "ufae-desc"
    case Button => "ufae-btn-wrapper"
  }

  const SidePrefix: string := "ufae-flipbox-"
  const CardPrefix: string := "ufae-flipbox-item elementor-repeater-item-"

  /** The value of the first `class` attribute. */
  function ClassOf(attrs: seq<Attr>): Option<Markup> {
    if attrs == [] then None
    else if attrs[0].Attr? && attrs[0].name == "class" then Some(attrs[0].value)
    else ClassOf(attrs[1..])
  }

  function OpenClass(f: Frag): Option<Markup> {
    if f.Open? then ClassOf(f.attrs) else None
  }

  function ClassElement(m: Markup): Option<Element> {
    if m == [Lit(ElementClass(Icon))] then Some(Icon)
    else if m == [Lit(ElementClass(Title))] then Some(Title)
    else if m == [Lit(ElementClass(Desc))] then Some(Desc)
    else if m == [Lit(ElementClass(Button))] then Some(Button)
    else None
  }

  /** The element whose block `f` opens, if any. */
  function ElementMark(f: Frag): Option<Element> {
    match OpenClass(f)
    case None => None
    case Some(m) => ClassElement(m)
  }

  /** The side, and the last piece of its class (the extra wrapper class), of a side wrapper `f` opens. */
  function SideMark(f: Frag): Option<(Side, string)> {
    match OpenClass(f)
    case None => None
    case Some(m) =>
      if |m| >= 2 && m[0] == Lit(SidePrefix) && m[1].Val? && m[1].text == "front" then Some((Front, m[|m| - 1].text))
      else if |m| >= 2 && m[0] == Lit(SidePrefix) && m[1].Val? && m[1].text == "back" then Some((Back, m[|m| - 1].text))
      else None
  }

  /** The repeater id of the card whose wrapper `f` opens. */
  function CardMark(f: Frag): Option<string> {
    match OpenClass(f)
    case None => None
    case Some(m) => if |m| >= 2 && m[0] == Lit(CardPrefix) then Some(m[1].text) else None
  }

  /** What `mark` recognises in `fs`, in order. */
  function Collect<T>(fs: seq<Frag>, mark: Frag -> Option<T>): seq<T> {
    if fs == [] then []
    else (match mark(fs[0]) case Some(x) => [x] case None => []) + Collect(fs[1..], mark)
  }

  lemma {:induction false} CollectConcat<T>(a: seq<Frag>, b: seq<Frag>, mark: Frag -> Option<T>)
    ensures Collect(a + b, mark) == Collect(a, mark) + Collect(b, mark)
  {
    if a == [] {
      assert a + b == b;
    } else {
      assert (a + b)[0] == a[0];
      assert (a + b)[1..] == a[1..] + b;
      CollectConcat(a[1..], b, mark);
    }
  }

  function ElementMarks(fs: seq<Frag>): seq<Element> {
    Collect(fs, ElementMark)
  }

  function SideMarks(fs: seq<Frag>): seq<(Side, string)> {
    Collect(fs, SideMark)
  }

  function CardMarks(fs: seq<Frag>): seq<string> {
    Collect(fs, CardMark)
  }

  /** The marks of every kind agree with concatenation. */
  lemma MarksConcat(a: seq<Frag>, b: seq<Frag>)
    ensures ElementMarks(a + b) == ElementMarks(a) + ElementMarks(b)
    ensures SideMarks(a + b) == SideMarks(a) + SideMarks(b)
    ensures CardMarks(a + b) == CardMarks(a) + CardMarks(b)
  {
    CollectConcat(a, b, ElementMark);
    CollectConcat(a, b, SideMark);
    CollectConcat(a, b, CardMark);
  }

  /** A fragment list that opens no element block, side wrapper or card. */
  predicate Unmarked(fs: seq<Frag>) {
    ElementMarks(fs) == [] && SideMarks(fs) == [] && CardMarks(fs) == []
  }

  /** Plain wrappers, closes, text and the like open nothing the outline records. */
  lemma UnmarkedPlain(fs: seq<Frag>)
    requires forall i :: 0 <= i < |fs| ==> OpenClass(fs[i]).None? || ClassPlain(OpenClass(fs[i]).value)
    ensures Unmarked(fs)
  {
    if fs != [] {
      UnmarkedPlain(fs[1..]);
    }
  }

  /** A class none of the outline's recognisers accepts. */
  predicate ClassPlain(m: Markup) {
    ClassElement(m).None? && (|m| < 2 || (m[0] != Lit(SidePrefix) && m[0] != Lit(CardPrefix)))
  }
}
