/**
 * What the server-side card renderer produces, read back from its markup:
 * which element blocks, side wrappers and cards a card holds and in which
 * order, that every tag it opens is closed, and that every value it prints
 * goes through an escaper.
 */
module FrontendOutline {
  import opened Strings
  import opened Values
  import opened ElementOrder
  import opened Markup
  import opened Outline
  import opened Blocks
  import opened FrontendLoop

  // ---------------------------------------------------------------------------
  // Single elements.

  /** An icon or image block: the wrapper around one icon or one image. */
  lemma IconLeafOutline(item: Bag, side: Side, leaf: Frag)
    requires FrontIcon(item, side) == [Div(ElementClass(Icon)), leaf, EndDiv]
    requires (leaf.Glyph? || leaf.Void?) && FragEscaped(leaf)
    ensures OneBlock(FrontIcon(item, side), Icon) && AllEscaped(FrontIcon(item, side))
  {
    var open := Div(ElementClass(Icon));
    ElementDivMarks(Icon);
    LeafBody(leaf);
    assert FrontIcon(item, side) == [open] + [leaf] + [Close(open.tag)];
    ElementBlock(Icon, open, [leaf]);
  }

  /** A text icon block. */
  lemma IconTextOutline(item: Bag, side: Side)
    requires IconPresent(item, side) && !IsText(IconType(item, side), "icon") && !IsText(IconType(item, side), "image")
    ensures OneBlock(FrontIcon(item, side), Icon) && AllEscaped(FrontIcon(item, side))
  {
    var fs := FrontIcon(item, side);
    var open := Div(ElementClass(Icon));
    ElementDivMarks(Icon);
    var span := [fs[1], fs[2], fs[3]];
    WrappedTextBody(fs[1], fs[2]);
    assert fs == [open] + span + [Close(open.tag)];
    ElementBlock(Icon, open, span);
  }

  /** `render_icon` prints one icon block when the type is known (and an image has a URL), else nothing. */
  lemma FrontIconOutline(item: Bag, side: Side)
    ensures FrontIcon(item, side) == [] <==> !IconPresent(item, side)
    ensures IconPresent(item, side) ==> OneBlock(FrontIcon(item, side), Icon)
    ensures AllEscaped(FrontIcon(item, side))
  {
    if IconPresent(item, side) {
      if IsText(IconType(item, side), "icon") || IsText(IconType(item, side), "image") {
        var fs := FrontIcon(item, side);
        IconLeafOutline(item, side, fs[1]);
      } else {
        IconTextOutline(item, side);
      }
    }
  }

  /** `render_title` prints one heading block when the title is non-empty, else nothing. */
  lemma FrontTitleOutline(settings: Bag, item: Bag, side: Side)
    ensures FrontTitle(settings, item, side) == [] <==> !PhpFilled(Get(item, SideKey(side, "title")))
    ensures PhpFilled(Get(item, SideKey(side, "title"))) ==> OneBlock(FrontTitle(settings, item, side), Title)
    ensures AllEscaped(FrontTitle(settings, item, side))
  {
    var fs := FrontTitle(settings, item, side);
    if fs != [] {
      LeafBody(fs[1]);
      assert fs == [fs[0]] + [fs[1]] + [Close(fs[0].tag)];
      ElementBlock(Title, fs[0], [fs[1]]);
    }
  }

  /** `render_desc` prints one paragraph block when the description is non-empty, else nothing. */
  lemma FrontDescOutline(item: Bag, side: Side)
    ensures FrontDesc(item, side) == [] <==> !PhpFilled(Get(item, SideKey(side, "description")))
    ensures PhpFilled(Get(item, SideKey(side, "description"))) ==> OneBlock(FrontDesc(item, side), Desc)
    ensures AllEscaped(FrontDesc(item, side))
  {
    var fs := FrontDesc(item, side);
    if fs != [] {
      LeafBody(fs[1]);
      assert fs == [fs[0]] + [fs[1]] + [Close(fs[0].tag)];
      ElementBlock(Desc, fs[0], [fs[1]]);
    }
  }

  /** The anchor carries the plain `ufae-button` class first and prints every value escaped. */
  lemma AnchorAttrsPlain(setting: Option<Value>, url: Option<Value>)
    ensures ClassOf(AnchorAttrs(setting, url)) == Some([Lit("ufae-button")])
    ensures forall i :: 0 <= i < |AnchorAttrs(setting, url)| ==> AttrEscaped(AnchorAttrs(setting, url)[i])
  {
    var a := AnchorAttrs(setting, url);
    assert a[1..][0] == a[1];
  }

  /** The link or button inside the button block, with its wrapper around it. */
  lemma ButtonInner(item: Bag, side: Side)
    requires ButtonPresent(item, side)
    ensures |FrontButton(item, side)| == 5
    ensures var fs := FrontButton(item, side);
      fs == [Div(ElementClass(Button))] + [fs[1], fs[2], fs[3]] + [EndDiv] &&
      Balanced([fs[1], fs[2], fs[3]]) && Unmarked([fs[1], fs[2], fs[3]]) && AllEscaped([fs[1], fs[2], fs[3]])
  {
    var fs := FrontButton(item, side);
    var setting := ButtonUrlSetting(item, side);
    var url := Member(setting, "url");
    if PhpFilled(url) {
      AnchorAttrsPlain(setting, url);
    }
    WrappedTextBody(fs[1], fs[2]);
  }

  /** `render_button` prints one button block when the button is switched on and has text, else nothing. */
  lemma FrontButtonOutline(item: Bag, side: Side)
    ensures FrontButton(item, side) == [] <==> !ButtonPresent(item, side)
    ensures ButtonPresent(item, side) ==> OneBlock(FrontButton(item, side), Button)
    ensures AllEscaped(FrontButton(item, side))
  {
    if ButtonPresent(item, side) {
      var fs := FrontButton(item, side);
      ButtonInner(item, side);
      ElementDivMarks(Button);
      ElementBlock(Button, Div(ElementClass(Button)), [fs[1], fs[2], fs[3]]);
    }
  }

  lemma FrontElementOutline(settings: Bag, item: Bag, side: Side, e: Element)
    ensures FrontElement(settings, item, side, e) == [] <==> !FrontPresent(item, side, e)
    ensures FrontPresent(item, side, e) ==> OneBlock(FrontElement(settings, item, side, e), e)
    ensures AllEscaped(FrontElement(settings, item, side, e))
  {
    match e
    case Icon => FrontIconOutline(item, side);
    case Title => FrontTitleOutline(settings, item, side);
    case Desc => FrontDescOutline(item, side);
    case Button => FrontButtonOutline(item, side);
  }

  // ---------------------------------------------------------------------------
  // Sides.

  /**
   * The elements loop of `render_sides_content` prints exactly the blocks of
   * the elements that are switched on and have content, in the side's order,
   * balanced and escaped.
   */
  lemma {:induction false} FrontElementsOutline(settings: Bag, item: Bag, side: Side, order: seq<Element>)
    ensures ElementMarks(FrontElements(settings, item, side, order)) == FrontShown(settings, item, side, order)
    ensures SideContent(FrontElements(settings, item, side, order))
    ensures AllEscaped(FrontElements(settings, item, side, order))
  {
    if order != [] {
      var init := order[..|order| - 1];
      var e := order[|order| - 1];
      var head := FrontElements(settings, item, side, init);
      var last := if FrontEnabled(settings, side, e) then FrontElement(settings, item, side, e) else [];
      FrontElementsOutline(settings, item, side, init);
      FrontElementOutline(settings, item, side, e);
      assert ElementMarks(last) == if FrontEnabled(settings, side, e) && FrontPresent(item, side, e) then [e] else [];
      assert SideContent(last);
      ContentConcat(head, last);
      EscapedConcat(head, last);
    }
  }

  /** The side wrapper's class is recognised as that side with its extra class, and is escaped. */
  lemma SideOpenMarks(side: Side, wrp: string)
    ensures SideClass(FrontSideClass(side, wrp), side, wrp) && FragEscaped(SideOpen(FrontSideClass(side, wrp)))
  {
  }

  /**
   * `render_sides_content` prints one side wrapper, recognised as that side
   * with its extra class, holding the shown elements in order.
   */
  lemma FrontSideOutline(settings: Bag, item: Bag, side: Side, order: seq<Element>, wrp: string)
    ensures SideOutline(FrontSide(settings, item, side, order, wrp), side, wrp, FrontShown(settings, item, side, order))
    ensures AllEscaped(FrontSide(settings, item, side, order, wrp))
  {
    var body := FrontElements(settings, item, side, order);
    FrontElementsOutline(settings, item, side, order);
    SideOpenMarks(side, wrp);
    SideWrappedMarks(FrontSideClass(side, wrp), side, wrp, body);
    SideWrappedEscaped(FrontSideClass(side, wrp), body);
  }

  /** A side lists each element at most once, since its order does. */
  lemma {:induction false} FrontShownDistinct(settings: Bag, item: Bag, side: Side, order: seq<Element>)
    requires Distinct(order)
    ensures Distinct(FrontShown(settings, item, side, order))
  {
    if order != [] {
      var init := order[..|order| - 1];
      var e := order[|order| - 1];
      assert Distinct(init) by {
        forall i, j | 0 <= i < j < |init| ensures init[i] != init[j] {
          assert init[i] == order[i] && init[j] == order[j];
        }
      }
      FrontShownDistinct(settings, item, side, init);
      assert e !in init by {
        forall i | 0 <= i < |init| ensures init[i] != e {
          assert init[i] == order[i];
        }
      }
    }
  }

  // ---------------------------------------------------------------------------
  // Cards.

  /** The card wrapper's opening tag is recognised as that card, and is escaped. */
  lemma CardOpenMarks(settings: Bag, item: Bag)
    ensures CardOpening(CardOpen(settings, item), PhpText(Get(item, "_id"))) && FragEscaped(CardOpen(settings, item))
  {
  }

  /** The elements a card shows, side by side, in the order of `CardPlan`. */
  function CardElements(settings: Bag, item: Bag, frontOrder: seq<Element>, backOrder: seq<Element>): seq<Element> {
    var front := FrontShown(settings, item, Front, frontOrder);
    PlanSides(FrontAnimation(settings) == Str("curtain"), BackEnabled(item),
              front, front, front, FrontShown(settings, item, Back, backOrder))
  }

  /** The sides inside a card follow `CardPlan`, each holding its shown elements. */
  lemma FrontCardSidesOutline(settings: Bag, item: Bag, frontOrder: seq<Element>, backOrder: seq<Element>)
    ensures SideMarks(FrontCardSides(settings, item, frontOrder, backOrder)) ==
            CardPlan(FrontAnimation(settings) == Str("curtain"), BackEnabled(item))
    ensures ElementMarks(FrontCardSides(settings, item, frontOrder, backOrder)) ==
            CardElements(settings, item, frontOrder, backOrder)
    ensures CardMarks(FrontCardSides(settings, item, frontOrder, backOrder)) == []
    ensures Balanced(FrontCardSides(settings, item, frontOrder, backOrder))
    ensures AllEscaped(FrontCardSides(settings, item, frontOrder, backOrder))
  {
    var front := FrontSide(settings, item, Front, frontOrder, "");
    var dup1 := FrontSide(settings, item, Front, frontOrder, DuplicateClass);
    var dup2 := FrontSide(settings, item, Front, frontOrder, DuplicateOverlayClass);
    var back := FrontSide(settings, item, Back, backOrder, "");
    FrontSideOutline(settings, item, Front, frontOrder, "");
    FrontSideOutline(settings, item, Front, frontOrder, DuplicateClass);
    FrontSideOutline(settings, item, Front, frontOrder, DuplicateOverlayClass);
    FrontSideOutline(settings, item, Back, backOrder, "");
    var curtain := FrontAnimation(settings) == Str("curtain");
    PlanOutline(curtain, BackEnabled(item), front, dup1, dup2, back,
                FrontShown(settings, item, Front, frontOrder), FrontShown(settings, item, Back, backOrder));
    PlanEscaped(curtain, BackEnabled(item), front, dup1, dup2, back);
  }

  /**
   * `flipbox_items` prints one card wrapper carrying the item's repeater id,
   * holding the sides of `CardPlan` with their shown elements; the markup is
   * balanced and every printed value is escaped.
   */
  lemma FrontCardOutline(settings: Bag, item: Bag, frontOrder: seq<Element>, backOrder: seq<Element>)
    ensures CardMarks(FrontCard(settings, item, frontOrder, backOrder)) == [PhpText(Get(item, "_id"))]
    ensures SideMarks(FrontCard(settings, item, frontOrder, backOrder)) ==
            CardPlan(FrontAnimation(settings) == Str("curtain"), BackEnabled(item))
    ensures ElementMarks(FrontCard(settings, item, frontOrder, backOrder)) ==
            CardElements(settings, item, frontOrder, backOrder)
    ensures Balanced(FrontCard(settings, item, frontOrder, backOrder))
    ensures AllEscaped(FrontCard(settings, item, frontOrder, backOrder))
  {
    var body := FrontCardSides(settings, item, frontOrder, backOrder);
    FrontCardSidesOutline(settings, item, frontOrder, backOrder);
    CardOpenMarks(settings, item);
    CardWrappedMarks(CardOpen(settings, item), PhpText(Get(item, "_id")), body);
    CardWrappedEscaped(CardOpen(settings, item), body);
  }

  /** A card is one top-level element: its wrapper. */
  lemma FrontCardLevel(settings: Bag, item: Bag, frontOrder: seq<Element>, backOrder: seq<Element>)
    ensures Level(FrontCard(settings, item, frontOrder, backOrder), [], 0) == [CardOpen(settings, item)]
    ensures Balanced(FrontCard(settings, item, frontOrder, backOrder))
  {
    var body := FrontCardSides(settings, item, frontOrder, backOrder);
    FrontCardSidesOutline(settings, item, frontOrder, backOrder);
    CardWrappedLevel(CardOpen(settings, item), body);
    BalancedThree(CardOpen(settings, item), Div("ufae-flipbox-inner"), Div("ufae-flipbox-inner-overlay"), body);
  }

  /**
   * With the orders the constructor resolves, every side of a card shows
   * each element at most once, and only elements that are switched on and
   * have content.
   */
  lemma ResolvedCardSides(settings: Bag, item: Bag, side: Side)
    ensures Distinct(FrontShown(settings, item, side, FrontendOrder(settings, side)))
    ensures forall e :: e in FrontShown(settings, item, side, FrontendOrder(settings, side)) <==>
                        FrontEnabled(settings, side, e) && FrontPresent(item, side, e)
  {
    FrontendOrderResolves(settings, side);
    PermutationDistinct(FrontendOrder(settings, side));
    FrontShownDistinct(settings, item, side, FrontendOrder(settings, side));
  }
}
