/**
 * What the editor's card template produces, read back from its markup:
 * which element blocks, side wrappers and cards a card holds and in which
 * order, that every tag it opens is closed, and which values it
 * interpolates raw.
 */
module EditorOutline {
  import opened Values
  import opened ElementOrder
  import opened Markup
  import opened Outline
  import opened Blocks
  import opened EditorLoop

  // ---------------------------------------------------------------------------
  // Raw values of short fragment lists.

  lemma RawValuesOne(a: Frag)
    ensures RawValues([a]) == RawOf(a)
  {
    assert [a][1..] == [];
  }

  lemma RawValuesThree(a: Frag, b: Frag, c: Frag)
    ensures RawValues([a, b, c]) == RawOf(a) + RawOf(b) + RawOf(c)
  {
    RawValuesOne(a);
    RawValuesOne(b);
    RawValuesOne(c);
    RawValuesConcat([a], [b]);
    RawValuesConcat([a, b], [c]);
    assert [a] + [b] == [a, b] && [a, b] + [c] == [a, b, c];
  }

  lemma RawInPiecesOne(p: Piece)
    ensures RawInPieces([p]) == if p.Val? && p.esc == Raw then [p.text] else []
  {
    assert [p][..0] == [];
  }

  lemma RawInAttrsTwo(n1: string, p1: Piece, n2: string, p2: Piece)
    ensures RawInAttrs([Attr(n1, [p1]), Attr(n2, [p2])]) == RawInPieces([p1]) + RawInPieces([p2])
  {
    var a1 := [Attr(n1, [p1])];
    var attrs := [Attr(n1, [p1]), Attr(n2, [p2])];
    assert attrs[..|attrs| - 1] == a1;
    assert RawInAttrs(a1) == RawInPieces([p1]) by {
      assert a1[..|a1| - 1] == [];
    }
  }

  /** A wrapper with literal tag and class around one fragment interpolates what that fragment does. */
  lemma RawOfWrapped(cls: string, f: Frag)
    ensures RawValues([Div(cls), f, EndDiv]) == RawOf(f)
  {
    RawValuesThree(Div(cls), f, EndDiv);
    DivPlain(cls);
  }

  /** A wrapper with a literal class interpolates nothing. */
  lemma DivPlain(cls: string)
    ensures RawOf(Div(cls)) == [] && RawOf(EndDiv) == []
  {
    RawOfEmpty(Div(cls));
    RawOfEmpty(EndDiv);
  }

  /** `<div class><span>text</span></div>` interpolates what the text does. */
  lemma RawOfSpan(cls: string, text: Piece)
    ensures RawValues([Div(cls), Open(Lit("span"), []), Text(text), Close(Lit("span")), EndDiv]) == RawInPieces([text])
  {
    var span := [Open(Lit("span"), []), Text(text), Close(Lit("span"))];
    assert [Div(cls), Open(Lit("span"), []), Text(text), Close(Lit("span")), EndDiv] == [Div(cls)] + span + [EndDiv];
    RawOfDivAround(cls, span);
    RawOfSpanOnly(text);
  }

  lemma RawOfSpanOnly(text: Piece)
    ensures RawValues([Open(Lit("span"), []), Text(text), Close(Lit("span"))]) == RawInPieces([text])
  {
    RawValuesThree(Open(Lit("span"), []), Text(text), Close(Lit("span")));
    RawInPiecesOne(Lit("span"));
  }

  /** A wrapper with a literal class around any fragments interpolates what they do. */
  lemma RawOfDivAround(cls: string, inner: seq<Frag>)
    ensures RawValues([Div(cls)] + inner + [EndDiv]) == RawValues(inner)
  {
    DivPlain(cls);
    RawValuesOne(Div(cls));
    RawValuesOne(EndDiv);
    RawValuesConcat([Div(cls)], inner);
    RawValuesConcat([Div(cls)] + inner, [EndDiv]);
  }

  // ---------------------------------------------------------------------------
  // Single elements.

  /** An icon or image block: the wrapper around one icon or one image. */
  lemma EditorIconLeaf(item: Bag, side: Side, leaf: Frag)
    requires EditorIcon(item, side) == [Div(ElementClass(Icon)), leaf, EndDiv]
    requires leaf.Glyph? || leaf.Void?
    ensures OneBlock(EditorIcon(item, side), Icon)
  {
    var open := Div(ElementClass(Icon));
    ElementDivMarks(Icon);
    LeafBody(leaf);
    assert EditorIcon(item, side) == [open] + [leaf] + [Close(open.tag)];
    ElementBlock(Icon, open, [leaf]);
  }

  /**
   * `render_icon`'s template writes one icon block when the type is known
   * (and an image passes the image check), else nothing.
   */
  lemma EditorIconOutline(item: Bag, side: Side)
    ensures EditorIcon(item, side) == [] <==> !EditorIconPresent(item, side)
    ensures EditorIconPresent(item, side) ==> OneBlock(EditorIcon(item, side), Icon)
  {
    var t := Get(item, SideKey(side, "icon_type"));
    if EditorIconPresent(item, side) {
      var fs := EditorIcon(item, side);
      if IsText(t, "icon") || IsText(t, "image") {
        EditorIconLeaf(item, side, fs[1]);
      } else {
        var open := Div(ElementClass(Icon));
        ElementDivMarks(Icon);
        var span := [fs[1], fs[2], fs[3]];
        WrappedTextBody(fs[1], fs[2]);
        assert fs == [open] + span + [Close(open.tag)];
        ElementBlock(Icon, open, span);
      }
    }
  }

  /** The image block interpolates raw the image URL and the title as alternative text. */
  lemma EditorImageRaw(item: Bag, side: Side)
    requires var t := Get(item, SideKey(side, "icon_type"));
      JsTruthy(t) && IsText(t, "image") && EditorImageShown(item, side)
    ensures RawValues(EditorIcon(item, side)) ==
            [JsText(Member(Get(item, SideKey(side, "icon_image")), "url")), JsText(Get(item, SideKey(side, "title")))]
  {
    var fs := EditorIcon(item, side);
    var attrs := fs[1].attrs;
    RawOfWrapped(ElementClass(Icon), fs[1]);
    RawInAttrsTwo(attrs[0].name, attrs[0].value[0], attrs[1].name, attrs[1].value[0]);
    RawInPiecesOne(attrs[0].value[0]);
    RawInPiecesOne(attrs[1].value[0]);
  }

  /** The text icon block interpolates the icon text raw. */
  lemma EditorIconTextRaw(item: Bag, side: Side)
    requires var t := Get(item, SideKey(side, "icon_type"));
      JsTruthy(t) && IsText(t, "text")
    ensures RawValues(EditorIcon(item, side)) == [JsText(Get(item, SideKey(side, "icon_text")))]
  {
    var fs := EditorIcon(item, side);
    RawOfSpan(ElementClass(Icon), fs[2].text);
    RawInPiecesOne(fs[2].text);
  }

  /**
   * The icon template interpolates raw the image URL and alternative text,
   * or the icon text; an icon from the icon library goes through the icon
   * renderer.
   */
  lemma EditorIconRaw(item: Bag, side: Side)
    ensures var t := Get(item, SideKey(side, "icon_type"));
      RawValues(EditorIcon(item, side)) ==
        if !EditorIconPresent(item, side) || IsText(t, "icon") then []
        else if IsText(t, "image") then
          [JsText(Member(Get(item, SideKey(side, "icon_image")), "url")), JsText(Get(item, SideKey(side, "title")))]
        else [JsText(Get(item, SideKey(side, "icon_text")))]
  {
    var t := Get(item, SideKey(side, "icon_type"));
    if EditorIconPresent(item, side) {
      if IsText(t, "icon") {
        RawOfWrapped(ElementClass(Icon), EditorIcon(item, side)[1]);
      } else if IsText(t, "image") {
        EditorImageRaw(item, side);
      } else {
        EditorIconTextRaw(item, side);
      }
    }
  }

  /** `render_title`'s template writes one heading block when the title is truthy, else nothing. */
  lemma EditorTitleOutline(settings: Bag, item: Bag, side: Side)
    ensures EditorTitle(settings, item, side) == [] <==> !JsTruthy(Get(item, SideKey(side, "title")))
    ensures JsTruthy(Get(item, SideKey(side, "title"))) ==> OneBlock(EditorTitle(settings, item, side), Title)
  {
    var fs := EditorTitle(settings, item, side);
    if fs != [] {
      LeafBody(fs[1]);
      assert fs == [fs[0]] + [fs[1]] + [Close(fs[0].tag)];
      ElementBlock(Title, fs[0], [fs[1]]);
    }
  }

  /** The title text goes through the template's escaper: only the heading tag is interpolated raw, twice. */
  lemma EditorTitleRaw(settings: Bag, item: Bag, side: Side)
    ensures RawValues(EditorTitle(settings, item, side)) ==
            if JsTruthy(Get(item, SideKey(side, "title"))) then [EditorTitleTag(settings), EditorTitleTag(settings)] else []
  {
    if JsTruthy(Get(item, SideKey(side, "title"))) {
      RawOfHeading(EditorTitleTag(settings), ElementClass(Title), JsText(Get(item, SideKey(side, "title"))));
    }
  }

  /** A heading whose tag is interpolated raw, with a literal class and escaped text, interpolates its tag twice. */
  lemma RawOfHeading(tag: string, cls: string, text: string)
    ensures RawValues([Open(Val(Raw, tag), [Attr("class", [Lit(cls)])]), Text(Val(EscapeTemplate, text)), Close(Val(Raw, tag))]) ==
            [tag, tag]
  {
    var open := Open(Val(Raw, tag), [Attr("class", [Lit(cls)])]);
    RawValuesThree(open, Text(Val(EscapeTemplate, text)), Close(Val(Raw, tag)));
    RawInPiecesOne(Val(Raw, tag));
    RawInPiecesOne(Lit(cls));
    RawInPiecesOne(Val(EscapeTemplate, text));
    assert RawInAttrs([Attr("class", [Lit(cls)])]) == [] by {
      assert [Attr("class", [Lit(cls)])][..0] == [];
    }
  }

  /** `render_desc`'s template writes one paragraph block when the description is truthy, else nothing. */
  lemma EditorDescOutline(item: Bag, side: Side)
    ensures EditorDesc(item, side) == [] <==> !JsTruthy(Get(item, SideKey(side, "description")))
    ensures JsTruthy(Get(item, SideKey(side, "description"))) ==> OneBlock(EditorDesc(item, side), Desc)
  {
    var fs := EditorDesc(item, side);
    if fs != [] {
      LeafBody(fs[1]);
      assert fs == [fs[0]] + [fs[1]] + [Close(fs[0].tag)];
      ElementBlock(Desc, fs[0], [fs[1]]);
    }
  }

  /** The description is interpolated raw, so markup in it reaches the preview as markup. */
  lemma EditorDescRaw(item: Bag, side: Side)
    ensures var d := Get(item, SideKey(side, "description"));
      RawValues(EditorDesc(item, side)) == if JsTruthy(d) then [JsText(d)] else []
  {
    var d := Get(item, SideKey(side, "description"));
    if JsTruthy(d) {
      RawOfParagraph(ElementClass(Desc), JsText(d));
    }
  }

  /** A paragraph with a literal class around raw text interpolates that text once. */
  lemma RawOfParagraph(cls: string, text: string)
    ensures RawValues([Open(Lit("p"), [Attr("class", [Lit(cls)])]), Text(Val(Raw, text)), Close(Lit("p"))]) == [text]
  {
    RawValuesThree(Open(Lit("p"), [Attr("class", [Lit(cls)])]), Text(Val(Raw, text)), Close(Lit("p")));
    RawInPiecesOne(Lit("p"));
    RawInPiecesOne(Lit(cls));
    RawInPiecesOne(Val(Raw, text));
    assert RawInAttrs([Attr("class", [Lit(cls)])]) == [] by {
      assert [Attr("class", [Lit(cls)])][..0] == [];
    }
  }

  /** The anchor carries the plain `ufae-button` class. */
  lemma EditorAnchorClass(setting: Option<Value>, url: Option<Value>)
    ensures ClassOf(EditorAnchorAttrs(setting, url)) == Some([Lit("ufae-button")])
  {
    var a := EditorAnchorAttrs(setting, url);
    assert a[1..][0] == a[1];
  }

  /** The link or button inside the button block, with its wrapper around it. */
  lemma EditorButtonInner(item: Bag, side: Side)
    requires EditorButtonPresent(item, side)
    ensures |EditorButton(item, side)| == 5
    ensures var fs := EditorButton(item, side);
      fs == [Div(ElementClass(Button))] + [fs[1], fs[2], fs[3]] + [EndDiv] &&
      Balanced([fs[1], fs[2], fs[3]]) && Unmarked([fs[1], fs[2], fs[3]])
  {
    var fs := EditorButton(item, side);
    var setting := EditorUrlSetting(item, side);
    var url := Member(setting, "url");
    if JsTruthy(url) {
      EditorAnchorClass(setting, url);
    }
    WrappedTextBody(fs[1], fs[2]);
  }

  /**
   * The button template interpolates raw the link's URL, target and rel, the
   * custom attribute and the button text, in that order; a button without a
   * link interpolates its text only.
   */
  lemma EditorButtonRaw(item: Bag, side: Side)
    ensures var setting := EditorUrlSetting(item, side);
      var url := Member(setting, "url");
      var text := JsText(Get(item, SideKey(side, "button_text")));
      RawValues(EditorButton(item, side)) ==
        if !EditorButtonPresent(item, side) then []
        else if JsTruthy(url) then
          [JsText(url),
           if IsText(Member(setting, "is_external"), "on") then "_blank" else "_self",
           if IsText(Member(setting, "nofollow"), "on") then "nofollow" else "",
           EditorCustomAttr(Member(setting, "custom_attributes")),
           text]
        else [text]
  {
    if EditorButtonPresent(item, side) {
      var fs := EditorButton(item, side);
      var setting := EditorUrlSetting(item, side);
      var url := Member(setting, "url");
      var text := JsText(Get(item, SideKey(side, "button_text")));
      assert fs == [Div(ElementClass(Button))] + fs[1..4] + [EndDiv];
      RawOfDivAround(ElementClass(Button), fs[1..4]);
      if JsTruthy(url) {
        var target := if IsText(Member(setting, "is_external"), "on") then "_blank" else "_self";
        var rel := if IsText(Member(setting, "nofollow"), "on") then "nofollow" else "";
        assert fs[1..4] == [Open(Lit("a"), EditorAnchorAttrs(setting, url)), Text(Val(Raw, text)), Close(Lit("a"))];
        RawOfLink(JsText(url), target, rel, EditorCustomAttr(Member(setting, "custom_attributes")), text);
      } else {
        RawOfPlainButton(text);
      }
    }
  }

  /** A link whose URL, target, rel, custom attribute and text are raw interpolates those five, in order. */
  lemma RawOfLink(href: string, target: string, rel: string, custom: string, text: string)
    ensures var attrs := [Attr("href", [Val(Raw, href)]), Attr("class", [Lit("ufae-button")]),
                          Attr("target", [Val(Raw, target)]), Attr("rel", [Val(Raw, rel)]),
                          Verbatim([Val(Raw, custom)])];
      RawValues([Open(Lit("a"), attrs), Text(Val(Raw, text)), Close(Lit("a"))]) == [href, target, rel, custom, text]
  {
    var attrs := [Attr("href", [Val(Raw, href)]), Attr("class", [Lit("ufae-button")]),
                  Attr("target", [Val(Raw, target)]), Attr("rel", [Val(Raw, rel)]),
                  Verbatim([Val(Raw, custom)])];
    RawOfAnchorAttrs(href, target, rel, custom);
    RawInPiecesOne(Lit("a"));
    RawInPiecesOne(Val(Raw, text));
    RawValuesThree(Open(Lit("a"), attrs), Text(Val(Raw, text)), Close(Lit("a")));
  }

  /** The anchor's attributes interpolate the URL, target, rel and custom attribute, in order. */
  lemma RawOfAnchorAttrs(href: string, target: string, rel: string, custom: string)
    ensures RawInAttrs([Attr("href", [Val(Raw, href)]), Attr("class", [Lit("ufae-button")]),
                        Attr("target", [Val(Raw, target)]), Attr("rel", [Val(Raw, rel)]),
                        Verbatim([Val(Raw, custom)])]) == [href, target, rel, custom]
  {
    var a2 := [Attr("href", [Val(Raw, href)]), Attr("class", [Lit("ufae-button")])];
    RawInAttrsTwo("href", Val(Raw, href), "class", Lit("ufae-button"));
    RawInPiecesOne(Val(Raw, href));
    RawInPiecesOne(Lit("ufae-button"));
    RawInPiecesOne(Val(Raw, target));
    RawInPiecesOne(Val(Raw, rel));
    RawInPiecesOne(Val(Raw, custom));
    var a3 := a2 + [Attr("target", [Val(Raw, target)])];
    var a4 := a3 + [Attr("rel", [Val(Raw, rel)])];
    var a5 := a4 + [Verbatim([Val(Raw, custom)])];
    RawInAttrsSnoc(a2, Attr("target", [Val(Raw, target)]));
    RawInAttrsSnoc(a3, Attr("rel", [Val(Raw, rel)]));
    RawInAttrsSnoc(a4, Verbatim([Val(Raw, custom)]));
    assert RawInAttrs(a5) == [href, target, rel, custom];
    assert a5 == [Attr("href", [Val(Raw, href)]), Attr("class", [Lit("ufae-button")]),
                  Attr("target", [Val(Raw, target)]), Attr("rel", [Val(Raw, rel)]),
                  Verbatim([Val(Raw, custom)])];
  }

  /** Appending an attribute appends the raw values of its markup. */
  lemma RawInAttrsSnoc(attrs: seq<Attr>, a: Attr)
    ensures RawInAttrs(attrs + [a]) == RawInAttrs(attrs) + RawInPieces(if a.Attr? then a.value else a.text)
  {
    assert (attrs + [a])[..|attrs|] == attrs;
  }

  /** A plain button with a literal class around raw text interpolates that text. */
  lemma RawOfPlainButton(text: string)
    ensures RawValues([Open(Lit("button"), [Attr("class", [Lit("ufae-button")])]), Text(Val(Raw, text)), Close(Lit("button"))]) ==
            [text]
  {
    RawValuesThree(Open(Lit("button"), [Attr("class", [Lit("ufae-button")])]), Text(Val(Raw, text)), Close(Lit("button")));
    RawInPiecesOne(Lit("button"));
    RawInPiecesOne(Lit("ufae-button"));
    RawInPiecesOne(Val(Raw, text));
    assert RawInAttrs([Attr("class", [Lit("ufae-button")])]) == [] by {
      assert [Attr("class", [Lit("ufae-button")])][..0] == [];
    }
  }

  /** `render_button`'s template writes one button block when the button is switched on and has text, else nothing. */
  lemma EditorButtonOutline(item: Bag, side: Side)
    ensures EditorButton(item, side) == [] <==> !EditorButtonPresent(item, side)
    ensures EditorButtonPresent(item, side) ==> OneBlock(EditorButton(item, side), Button)
  {
    if EditorButtonPresent(item, side) {
      var fs := EditorButton(item, side);
      EditorButtonInner(item, side);
      ElementDivMarks(Button);
      ElementBlock(Button, Div(ElementClass(Button)), [fs[1], fs[2], fs[3]]);
    }
  }

  lemma EditorElementOutline(settings: Bag, item: Bag, side: Side, e: Element)
    ensures EditorElement(settings, item, side, e) == [] <==> !EditorPresent(item, side, e)
    ensures EditorPresent(item, side, e) ==> OneBlock(EditorElement(settings, item, side, e), e)
  {
    match e
    case Icon => EditorIconOutline(item, side);
    case Title => EditorTitleOutline(settings, item, side);
    case Desc => EditorDescOutline(item, side);
    case Button => EditorButtonOutline(item, side);
  }

  // ---------------------------------------------------------------------------
  // Sides.

  /**
   * The elements loop of `render_sides_content`'s template writes exactly the
   * blocks of the elements that are switched on and have content, in the
   * side's order, balanced.
   */
  lemma {:induction false} EditorElementsOutline(settings: Bag, item: Bag, side: Side, order: seq<Element>)
    ensures ElementMarks(EditorElements(settings, item, side, order)) == EditorShown(settings, item, side, order)
    ensures SideContent(EditorElements(settings, item, side, order))
  {
    if order != [] {
      var init := order[..|order| - 1];
      var e := order[|order| - 1];
      var head := EditorElements(settings, item, side, init);
      var last := if EditorEnabled(settings, side, e) then EditorElement(settings, item, side, e) else [];
      EditorElementsOutline(settings, item, side, init);
      EditorElementOutline(settings, item, side, e);
      assert ElementMarks(last) == if EditorEnabled(settings, side, e) && EditorPresent(item, side, e) then [e] else [];
      assert SideContent(last);
      ContentConcat(head, last);
    }
  }

  /** The side wrapper's class is recognised as that side with its extra class. */
  lemma EditorSideClassMarks(side: Side, wrp: string)
    ensures SideClass(EditorSideClass(side, wrp), side, wrp)
  {
  }

  /**
   * `render_sides_content`'s template writes one side wrapper, recognised as
   * that side with its extra class, holding the shown elements in the order
   * the side resolves.
   */
  lemma EditorSideOutline(settings: Bag, item: Bag, side: Side, wrp: string)
    ensures SideOutline(EditorSide(settings, item, side, wrp), side, wrp,
                        EditorShown(settings, item, side, EditorOrder(settings, side)))
  {
    var order := EditorOrder(settings, side);
    var body := EditorElements(settings, item, side, order);
    EditorElementsOutline(settings, item, side, order);
    EditorSideClassMarks(side, wrp);
    SideWrappedMarks(EditorSideClass(side, wrp), side, wrp, body);
  }

  /** A side lists each element at most once, since its order does. */
  lemma {:induction false} EditorShownDistinct(settings: Bag, item: Bag, side: Side, order: seq<Element>)
    requires Distinct(order)
    ensures Distinct(EditorShown(settings, item, side, order))
  {
    if order != [] {
      var init := order[..|order| - 1];
      var e := order[|order| - 1];
      assert Distinct(init) by {
        forall i, j | 0 <= i < j < |init| ensures init[i] != init[j] {
          assert init[i] == order[i] && init[j] == order[j];
        }
      }
      EditorShownDistinct(settings, item, side, init);
      assert e !in init by {
        forall i | 0 <= i < |init| ensures init[i] != e {
          assert init[i] == order[i];
        }
      }
    }
  }

  /**
   * Every side of a card shows each element at most once, and exactly the
   * elements that are switched on and have content.
   */
  lemma EditorResolvedSide(settings: Bag, item: Bag, side: Side)
    ensures Distinct(EditorShown(settings, item, side, EditorOrder(settings, side)))
    ensures forall e :: e in EditorShown(settings, item, side, EditorOrder(settings, side)) <==>
                        EditorEnabled(settings, side, e) && EditorPresent(item, side, e)
  {
    EditorOrderResolves(settings, side);
    PermutationDistinct(EditorOrder(settings, side));
    EditorShownDistinct(settings, item, side, EditorOrder(settings, side));
  }

  // ---------------------------------------------------------------------------
  // Cards.

  /** The card wrapper's opening tag is recognised as that card. */
  lemma EditorCardOpenMarks(settings: Bag, item: Bag)
    ensures CardOpening(EditorCardOpen(settings, item), JsText(Get(item, "_id")))
  {
  }

  /**
   * The card wrapper interpolates raw the item's `_id`, the slide class and
   * the front-only class, in that order.
   */
  lemma EditorCardOpenRaw(settings: Bag, item: Bag)
    ensures RawOf(EditorCardOpen(settings, item)) ==
      [JsText(Get(item, "_id")),
       if Horizontal(settings) then " swiper-slide" else "",
       if BackEnabled(item) then "" else " ufae-flipbox-front_only"]
  {
    var cls := EditorCardClass(settings, item);
    RawInPiecesOne(Lit("div"));
    assert RawInAttrs([Attr("class", cls)]) == RawInPieces(cls) by {
      assert [Attr("class", cls)][..0] == [];
    }
    RawOfClassPieces(CardPrefix, cls[1].text, cls[2].text, cls[3].text);
  }

  /** A literal prefix followed by three raw values interpolates those three. */
  lemma RawOfClassPieces(prefix: string, a: string, b: string, c: string)
    ensures RawInPieces([Lit(prefix), Val(Raw, a), Val(Raw, b), Val(Raw, c)]) == [a, b, c]
  {
    var ps := [Lit(prefix), Val(Raw, a), Val(Raw, b), Val(Raw, c)];
    RawInPiecesOne(Lit(prefix));
    assert ps[..1] == [Lit(prefix)];
    assert ps[..2][..1] == ps[..1];
    assert RawInPieces(ps[..2]) == [a];
    assert ps[..3][..2] == ps[..2];
    assert RawInPieces(ps[..3]) == [a, b];
    assert ps[..3] == ps[..|ps| - 1];
  }

  /** The elements a card shows, side by side, in the order of `CardPlan`. */
  function EditorCardElements(settings: Bag, item: Bag): seq<Element> {
    var front := EditorShown(settings, item, Front, EditorOrder(settings, Front));
    PlanSides(EditorAnimation(settings) == Str("curtain"), BackEnabled(item),
              front, front, front, EditorShown(settings, item, Back, EditorOrder(settings, Back)))
  }

  /** The sides inside a card follow `CardPlan`, each holding its shown elements. */
  lemma EditorCardSidesOutline(settings: Bag, item: Bag)
    ensures SideMarks(EditorCardSides(settings, item)) == CardPlan(EditorAnimation(settings) == Str("curtain"), BackEnabled(item))
    ensures ElementMarks(EditorCardSides(settings, item)) == EditorCardElements(settings, item)
    ensures CardMarks(EditorCardSides(settings, item)) == []
    ensures Balanced(EditorCardSides(settings, item))
  {
    EditorSideOutline(settings, item, Front, "");
    EditorSideOutline(settings, item, Front, DuplicateClass);
    EditorSideOutline(settings, item, Front, DuplicateOverlayClass);
    EditorSideOutline(settings, item, Back, "");
    PlanOutline(EditorAnimation(settings) == Str("curtain"), BackEnabled(item),
                EditorSide(settings, item, Front, ""),
                EditorSide(settings, item, Front, DuplicateClass),
                EditorSide(settings, item, Front, DuplicateOverlayClass),
                EditorSide(settings, item, Back, ""),
                EditorShown(settings, item, Front, EditorOrder(settings, Front)),
                EditorShown(settings, item, Back, EditorOrder(settings, Back)));
  }

  /**
   * One pass of the `_.each` over the items writes one card wrapper carrying
   * the item's repeater id, holding the sides of `CardPlan` with their shown
   * elements, balanced.
   */
  lemma EditorCardOutline(settings: Bag, item: Bag)
    ensures CardMarks(EditorCard(settings, item)) == [JsText(Get(item, "_id"))]
    ensures SideMarks(EditorCard(settings, item)) == CardPlan(EditorAnimation(settings) == Str("curtain"), BackEnabled(item))
    ensures ElementMarks(EditorCard(settings, item)) == EditorCardElements(settings, item)
    ensures Balanced(EditorCard(settings, item))
  {
    EditorCardSidesOutline(settings, item);
    EditorCardOpenMarks(settings, item);
    CardWrappedMarks(EditorCardOpen(settings, item), JsText(Get(item, "_id")), EditorCardSides(settings, item));
  }

  /** A card is one top-level element: its wrapper. */
  lemma EditorCardLevel(settings: Bag, item: Bag)
    ensures Level(EditorCard(settings, item), [], 0) == [EditorCardOpen(settings, item)]
    ensures Balanced(EditorCard(settings, item))
  {
    var body := EditorCardSides(settings, item);
    EditorCardSidesOutline(settings, item);
    CardWrappedLevel(EditorCardOpen(settings, item), body);
    BalancedThree(EditorCardOpen(settings, item), Div("ufae-flipbox-inner"), Div("ufae-flipbox-inner-overlay"), body);
  }
}
