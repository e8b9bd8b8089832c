/**
 * The server-side card renderer (`Ufae_Frontend_Loop`): it resolves the two
 * element orders once from the widget settings, then echoes one card per
 * repeater item, each card holding its front side, the curtain duplicates of
 * the front, and its back side, each side holding its elements in order.
 *
 * Every method is proved against a specification function of the settings
 * and the item; the lemmas at the end state what those functions produce.
 */
module FrontendLoop {
  import opened Strings
  import opened Values
  import opened ElementOrder
  import opened Markup
  import opened Outline
  import opened Blocks

  // ---------------------------------------------------------------------------
  // Element order.

  /** PHP `array_filter` on strings: drops the falsy ones, "" and "0". */
  function ArrayFilter(xs: seq<string>): (r: seq<string>)
    ensures forall x :: x in r <==> x in xs && x != "" && x != "0"
  {
    if xs == [] then []
    else
      var x := xs[|xs| - 1];
      ArrayFilter(xs[..|xs| - 1]) + (if x == "" || x == "0" then [] else [x])
  }

  /** Neither "" nor "0" is a token, so `array_filter` never changes which tokens are kept. */
  lemma {:induction false} KeepTokensArrayFilter(xs: seq<string>)
    ensures KeepTokens(ArrayFilter(xs)) == KeepTokens(xs)
  {
    if xs != [] {
      var init := xs[..|xs| - 1];
      var x := xs[|xs| - 1];
      assert xs == init + [x];
      KeepTokensArrayFilter(init);
      KeepTokensSnoc(init, x);
      if x == "" || x == "0" {
        assert Token(x) == [];
        assert ArrayFilter(xs) == ArrayFilter(init);
      } else {
        KeepTokensSnoc(ArrayFilter(init), x);
      }
    }
  }

  /** The position setting as the frontend reads it (`trim` prints null as ""). */
  function PositionText(settings: Bag, side: Side): string {
    PhpText(Get(settings, PositionKey(side)))
  }

  /** `esc_html( trim( $order_settings ) )`. */
  function OrderSettings(settings: Bag, side: Side): string {
    EscHtml(Trim(PositionText(settings, side)))
  }

  /** `! empty( $order_settings ) && preg_match( '/\b(icon|title|desc|button)\b/', $order_settings )`. */
  predicate OrderGuard(s: string) {
    PhpFilled(Some(Str(s))) && HasWordToken(s)
  }

  /** `array_unique( array_filter( explode( ',', $order_settings ) ) )`. */
  function ElementNames(s: string): seq<string> {
    Dedup(ArrayFilter(Split(s, ',')))
  }

  /** The order a side holds after `update_element_order`, given the one it held before. */
  function UpdatedOrder(settings: Bag, side: Side, current: seq<Element>): seq<Element> {
    var s := OrderSettings(settings, side);
    if OrderGuard(s) then Completed(KeepTokens(ElementNames(s))) else current
  }

  /** The order of a side once the constructor has run. */
  function FrontendOrder(settings: Bag, side: Side): seq<Element> {
    UpdatedOrder(settings, side, Canonical)
  }

  /**
   * The frontend resolves the trimmed position string by the reference
   * definition, so every side order is a permutation of the four elements.
   */
  lemma FrontendOrderResolves(settings: Bag, side: Side)
    ensures FrontendOrder(settings, side) == CoreOrder(Trim(PositionText(settings, side)))
    ensures IsPermutation(FrontendOrder(settings, side))
  {
    var t := Trim(PositionText(settings, side));
    CoreOrderEscHtml(t);
    GuardedOrder(EscHtml(t));
    CoreOrderIsPermutation(t);
  }

  /** Whether or not the guard passes, the stored order is the reference resolution of the guarded string. */
  lemma GuardedOrder(s: string)
    ensures (if OrderGuard(s) then Completed(KeepTokens(ElementNames(s))) else Canonical) == CoreOrder(s)
  {
    if OrderGuard(s) {
      KeepTokensDedup(ArrayFilter(Split(s, ',')));
      KeepTokensArrayFilter(Split(s, ','));
    } else {
      if s == "" || s == "0" {
        ShortHasNoWordToken(s);
      }
      NoWordTokenGivesDefault(s);
    }
  }

  /** A side's order depends on its own position setting only. */
  lemma FrontendOrderOwnSetting(s1: Bag, s2: Bag, side: Side)
    requires Get(s1, PositionKey(side)) == Get(s2, PositionKey(side))
    ensures FrontendOrder(s1, side) == FrontendOrder(s2, side)
  {
  }

  // ---------------------------------------------------------------------------
  // Elements of a side.

  /** An element is hidden when its widget-level switch is set to anything but 'yes'. */
  predicate FrontEnabled(settings: Bag, side: Side, e: Element) {
    var v := Get(settings, EnableKey(side, e));
    !(v.Some? && !IsText(v, "yes"))
  }

  function IconType(item: Bag, side: Side): Option<Value> {
    Get(item, SideKey(side, "icon_type"))
  }

  function IconImageUrl(item: Bag, side: Side): Option<Value> {
    Member(Get(item, SideKey(side, "icon_image")), "url")
  }

  /** The icon block is printed: a known type, and for an image a non-empty URL. */
  predicate IconPresent(item: Bag, side: Side) {
    var t := IconType(item, side);
    PhpFilled(t) &&
    (IsText(t, "icon") || (IsText(t, "image") && PhpFilled(IconImageUrl(item, side))) || IsText(t, "text"))
  }

  /** `render_icon`. */
  function FrontIcon(item: Bag, side: Side): seq<Frag> {
    var t := IconType(item, side);
    if !PhpFilled(t) then []
    else if IsText(t, "icon") then
      [Div(ElementClass(Icon)), Glyph(Get(item, SideKey(side, "icon"))), EndDiv]
    else if IsText(t, "image") && PhpFilled(IconImageUrl(item, side)) then
      [Div(ElementClass(Icon)),
       Void("img", [Attr("src", [Val(EscapeUrl, PhpText(IconImageUrl(item, side)))]),
                    Attr("alt", [Val(EscapeAttr, PhpText(Get(item, SideKey(side, "title"))))])]),
       EndDiv]
    else if IsText(t, "text") then
      [Div(ElementClass(Icon)), Open(Lit("span"), []),
       Text(Val(EscapeHtml, PhpText(Get(item, SideKey(side, "icon_text"))))),
       Close(Lit("span")), EndDiv]
    else []
  }

  /** The heading tag: the widget's `ufae_title_tag` when non-empty, else `h3`. */
  function TitleTag(settings: Bag): string {
    var t := Get(settings, "ufae_title_tag");
    if PhpFilled(t) then PhpText(t) else "h3"
  }

  /** `render_title`. */
  function FrontTitle(settings: Bag, item: Bag, side: Side): seq<Frag> {
    var title := Get(item, SideKey(side, "title"));
    if PhpFilled(title) then
      var tag := Val(EscapeHtml, TitleTag(settings));
      [Open(tag, [Attr("class", [Lit(ElementClass(Title))])]), Text(Val(EscapeHtml, PhpText(title))), Close(tag)]
    else []
  }

  /** `render_desc`. */
  function FrontDesc(item: Bag, side: Side): seq<Frag> {
    var d := Get(item, SideKey(side, "description"));
    if PhpFilled(d) then
      [Open(Lit("p"), [Attr("class", [Lit(ElementClass(Desc))])]), Text(Val(EscapeHtml, PhpText(d))), Close(Lit("p"))]
    else []
  }

  /** `$button_enable`: the escaped item switch, or 'no' when it is not set. */
  function ButtonEnable(item: Bag, side: Side): string {
    var v := Get(item, SideKey(side, "button_enable"));
    if v.Some? then EscHtml(PhpText(v)) else "no"
  }

  /** The button is printed: non-empty text and the item switch exactly 'yes'. */
  predicate ButtonPresent(item: Bag, side: Side) {
    PhpFilled(Get(item, SideKey(side, "button_text"))) && ButtonEnable(item, side) == "yes"
  }

  /** The item switch turns the button on exactly when it holds the string 'yes'. */
  lemma ButtonEnableYes(item: Bag, side: Side)
    ensures ButtonEnable(item, side) == "yes" <==> Get(item, SideKey(side, "button_enable")) == Some(Str("yes"))
  {
    var v := Get(item, SideKey(side, "button_enable"));
    if v.Some? {
      TextYesIsString(v);
      EscapedYes(PhpText(v));
    }
  }

  /** Only "yes" escapes to "yes". */
  lemma EscapedYes(t: string)
    ensures EscHtml(t) == "yes" <==> t == "yes"
  {
    if EscHtml(t) == "yes" {
      assert '&' !in EscHtml(t);
      EscHtmlUnchangedWithoutAmp(t);
    }
    if t == "yes" {
      EscHtmlOfPlain("yes");
    }
  }

  /** Only the string 'yes' prints as "yes". */
  lemma TextYesIsString(v: Option<Value>)
    ensures PhpText(v) == "yes" <==> v == Some(Str("yes"))
  {
    if v.Some? && v.value.Num? {
      assert 'y' in "yes";
    }
  }

  /** `$btn_url_setting`: the link setting when non-empty, else `false`. */
  function ButtonUrlSetting(item: Bag, side: Side): Option<Value> {
    var v := Get(item, SideKey(side, "button_url"));
    if PhpFilled(v) then v else None
  }

  /**
   * The custom attribute: from a non-empty text setting split on '|', the
   * first two parts as `name="value"` (the name with leading blanks trimmed),
   * and nothing when there are fewer than two parts.
   */
  function CustomAttribute(v: Option<Value>): seq<Attr> {
    if v.Some? && v.value.Str? && PhpFilled(v) then
      var parts := Split(v.value.s, '|');
      if |parts| > 1 then
        [Verbatim([Val(EscapeHtml, LTrim(parts[0])), Lit("=\""), Val(EscapeAttr, parts[1]), Lit("\"")])]
      else []
    else []
  }

  /**
   * The custom attribute text `trim( esc_html( p0 ) . '="' . q . '"' )`, with
   * `q` the escaped value, is the escaped name with its leading blanks
   * trimmed, as `CustomAttribute` records it: escaping keeps blanks, and the
   * closing quote keeps the end.
   */
  lemma CustomAttributeText(p0: string, q: string)
    ensures var rest := "=\"" + q + "\""; Trim(EscHtml(p0) + rest) == EscHtml(LTrim(p0)) + rest
  {
    var rest := "=\"" + q + "\"";
    assert rest[0] == '=' && rest[|rest| - 1] == '"';
    TrimEscapedPrefix(p0, rest);
  }

  /** The anchor's attributes. */
  function AnchorAttrs(setting: Option<Value>, url: Option<Value>): seq<Attr> {
    var target := if IsText(Member(setting, "is_external"), "on") then "_blank" else "_self";
    var rel := if IsText(Member(setting, "nofollow"), "on") then "nofollow" else "";
    [Attr("href", [Val(EscapeUrl, PhpText(url))]), Attr("class", [Lit("ufae-button")]),
     Attr("target", [Val(EscapeAttr, target)]), Attr("rel", [Val(EscapeAttr, rel)])] +
    CustomAttribute(Member(setting, "custom_attributes"))
  }

  /** `render_button`. */
  function FrontButton(item: Bag, side: Side): seq<Frag> {
    if ButtonPresent(item, side) then
      var text := Text(Val(EscapeHtml, PhpText(Get(item, SideKey(side, "button_text")))));
      var setting := ButtonUrlSetting(item, side);
      var url := Member(setting, "url");
      [Div(ElementClass(Button))] +
      (if PhpFilled(url) then [Open(Lit("a"), AnchorAttrs(setting, url)), text, Close(Lit("a"))]
       else [Open(Lit("button"), [Attr("class", [Lit("ufae-button")])]), text, Close(Lit("button"))]) +
      [EndDiv]
    else []
  }

  /** Whether the element's own renderer prints anything. */
  predicate FrontPresent(item: Bag, side: Side, e: Element) {
    match e
    case Icon => IconPresent(item, side)
    case Title => PhpFilled(Get(item, SideKey(side, "title")))
    case Desc => PhpFilled(Get(item, SideKey(side, "description")))
    case Button => ButtonPresent(item, side)
  }

  function FrontElement(settings: Bag, item: Bag, side: Side, e: Element): seq<Frag> {
    match e
    case Icon => FrontIcon(item, side)
    case Title => FrontTitle(settings, item, side)
    case Desc => FrontDesc(item, side)
    case Button => FrontButton(item, side)
  }

  /** The loop body of `render_sides_content` over an order: enabled elements rendered in turn. */
  function FrontElements(settings: Bag, item: Bag, side: Side, order: seq<Element>): seq<Frag> {
    if order == [] then []
    else
      var e := order[|order| - 1];
      FrontElements(settings, item, side, order[..|order| - 1]) +
      (if FrontEnabled(settings, side, e) then FrontElement(settings, item, side, e) else [])
  }

  lemma FrontElementsStep(settings: Bag, item: Bag, side: Side, order: seq<Element>, i: nat)
    requires i < |order|
    ensures FrontElements(settings, item, side, order[..i + 1]) ==
            FrontElements(settings, item, side, order[..i]) +
            (if FrontEnabled(settings, side, order[i]) then FrontElement(settings, item, side, order[i]) else [])
  {
    assert order[..i + 1][..i] == order[..i];
  }

  /** The elements of `order` that are switched on and have content, in order. */
  function FrontShown(settings: Bag, item: Bag, side: Side, order: seq<Element>): (r: seq<Element>)
    ensures forall e :: e in r <==> e in order && FrontEnabled(settings, side, e) && FrontPresent(item, side, e)
  {
    if order == [] then []
    else
      var e := order[|order| - 1];
      FrontShown(settings, item, side, order[..|order| - 1]) +
      (if FrontEnabled(settings, side, e) && FrontPresent(item, side, e) then [e] else [])
  }

  /** `ufae-flipbox-<side><wrapper class>`. */
  function FrontSideClass(side: Side, wrp: string): Markup {
    [Lit(SidePrefix), Val(EscapeAttr, SideName(side)), Val(EscapeAttr, wrp)]
  }

  /** `render_sides_content`: the side's wrappers around its elements. */
  function FrontSide(settings: Bag, item: Bag, side: Side, order: seq<Element>, wrp: string): seq<Frag> {
    SideWrapped(FrontSideClass(side, wrp), FrontElements(settings, item, side, order))
  }

  // ---------------------------------------------------------------------------
  // Cards.

  /** The animation: the setting when non-empty, else 'flip'. */
  function FrontAnimation(settings: Bag): Value {
    var v := Get(settings, "ufae_animation_option");
    if PhpFilled(v) then v.value else Str("flip")
  }

  /** The item wrapper's class. */
  function FrontCardClass(settings: Bag, item: Bag): Markup {
    [Lit(CardPrefix), Val(EscapeAttr, PhpText(Get(item, "_id"))),
     Val(EscapeAttr, if Horizontal(settings) then " swiper-slide" else ""),
     Val(EscapeAttr, if BackEnabled(item) then "" else " ufae-flipbox-front_only")]
  }

  /** The opening tag of an item's card wrapper. */
  function CardOpen(settings: Bag, item: Bag): Frag {
    Open(Lit("div"), [Attr("class", FrontCardClass(settings, item))])
  }

  /** `flipbox_items`, given the two resolved orders: the card's wrappers around its sides. */
  function FrontCard(settings: Bag, item: Bag, frontOrder: seq<Element>, backOrder: seq<Element>): seq<Frag> {
    CardWrapped(CardOpen(settings, item), FrontCardSides(settings, item, frontOrder, backOrder))
  }

  /** The sides inside a card: the front, the two curtain duplicates of the front, and the back. */
  function FrontCardSides(settings: Bag, item: Bag, frontOrder: seq<Element>, backOrder: seq<Element>): seq<Frag> {
    PlanSides(FrontAnimation(settings) == Str("curtain"), BackEnabled(item),
              FrontSide(settings, item, Front, frontOrder, ""),
              FrontSide(settings, item, Front, frontOrder, DuplicateClass),
              FrontSide(settings, item, Front, frontOrder, DuplicateOverlayClass),
              FrontSide(settings, item, Back, backOrder, ""))
  }

  // ---------------------------------------------------------------------------
  // The renderer object.

  class FrontendLoop {
    const settings: Bag
    const page: Page
    var item: Bag
    var frontOrder: seq<Element>
    var backOrder: seq<Element>

    /** Both orders are the ones resolved from the settings. */
    ghost predicate Valid()
      reads this
    {
      frontOrder == FrontendOrder(settings, Front) && backOrder == FrontendOrder(settings, Back)
    }

    function Order(side: Side): seq<Element>
      reads this
    {
      if side == Front then frontOrder else backOrder
    }

    constructor(settings: Bag, page: Page)
      ensures this.settings == settings && this.page == page && item == map[]
      ensures Valid()
    {
      this.settings := settings;
      this.page := page;
      item := map[];
      frontOrder := Canonical;
      backOrder := Canonical;
      new;
      UpdateElementOrder();
    }

    /** `update_element_order`: each side whose setting passes the guard gets the order it lists. */
    method UpdateElementOrder()
      modifies this
      ensures item == old(item)
      ensures frontOrder == UpdatedOrder(settings, Front, old(frontOrder))
      ensures backOrder == UpdatedOrder(settings, Back, old(backOrder))
    {
      var sides := [Front, Back];
      for k := 0 to 2
        invariant item == old(item)
        invariant frontOrder == if k > 0 then UpdatedOrder(settings, Front, old(frontOrder)) else old(frontOrder)
        invariant backOrder == if k > 1 then UpdatedOrder(settings, Back, old(backOrder)) else old(backOrder)
      {
        UpdateSideOrder(sides[k]);
      }
    }

    /** One pass of the `foreach` over the sides. */
    method UpdateSideOrder(side: Side)
      modifies this
      ensures item == old(item)
      ensures frontOrder == if side == Front then UpdatedOrder(settings, Front, old(frontOrder)) else old(frontOrder)
      ensures backOrder == if side == Back then UpdatedOrder(settings, Back, old(backOrder)) else old(backOrder)
    {
      var orderSettings := EscHtml(Trim(PhpText(Get(settings, PositionKey(side)))));
      if PhpFilled(Some(Str(orderSettings))) && HasWordToken(orderSettings) {
        var elementNames := Dedup(ArrayFilter(Split(orderSettings, ',')));
        var newOrder := KnownElements(elementNames);
        newOrder := newOrder + MissingFrom(newOrder, Canonical);
        if side == Front {
          frontOrder := newOrder;
        } else {
          backOrder := newOrder;
        }
      }
    }

    /** `flipbox_items`: stores the item and echoes its card (the three opening and the three closing echoes each as one). */
    method FlipboxItems(it: Bag)
      modifies this, page
      ensures item == it && frontOrder == old(frontOrder) && backOrder == old(backOrder)
      ensures page.out == old(page.out) + FrontCard(settings, it, frontOrder, backOrder)
    {
      item := it;
      var horizontalItemClass := if IsText(Get(settings, "ufae_layout_option"), "horizontal") then " swiper-slide" else "";
      var animationSetting := Get(settings, "ufae_animation_option");
      var animation := if PhpFilled(animationSetting) then animationSetting.value else Str("flip");
      var backEnabled := IsText(Get(item, "ufae_back_enable"), "yes");
      var backDisableCls := if backEnabled then "" else " ufae-flipbox-front_only";
      ghost var start := page.out;
      ghost var opening := [Open(Lit("div"), [Attr("class", [Lit(CardPrefix), Val(EscapeAttr, PhpText(Get(item, "_id"))),
                                                  Val(EscapeAttr, horizontalItemClass), Val(EscapeAttr, backDisableCls)])]),
                            Div("ufae-flipbox-inner"), Div("ufae-flipbox-inner-overlay")];
      page.Echo([Open(Lit("div"), [Attr("class", [Lit(CardPrefix), Val(EscapeAttr, PhpText(Get(item, "_id"))),
                                                  Val(EscapeAttr, horizontalItemClass), Val(EscapeAttr, backDisableCls)])]),
                 Div("ufae-flipbox-inner"), Div("ufae-flipbox-inner-overlay")]);
      RenderCardSides(animation == Str("curtain"), backEnabled);
      ghost var sides := FrontCardSides(settings, it, frontOrder, backOrder);
      Appended(start, opening, sides);
      page.Echo([EndDiv, EndDiv, EndDiv]);
      Appended(start, opening + sides, [EndDiv, EndDiv, EndDiv]);
    }

    /** The side calls of `flipbox_items`: the front, the curtain duplicates, the back. */
    method RenderCardSides(curtain: bool, backEnabled: bool)
      requires curtain == (FrontAnimation(settings) == Str("curtain")) && backEnabled == BackEnabled(item)
      modifies page
      ensures page.out == old(page.out) + FrontCardSides(settings, item, frontOrder, backOrder)
    {
      ghost var start := page.out;
      RenderSidesContent(Front, "");
      ghost var afterFront := page.out;
      if curtain && backEnabled {
        RenderSidesContent(Front, DuplicateClass);
        RenderSidesContent(Front, DuplicateOverlayClass);
      }
      ghost var afterCurtain := page.out;
      if backEnabled {
        RenderSidesContent(Back, "");
      }
      PlanSidesAppended(start, afterFront, afterCurtain, page.out, curtain, backEnabled,
                        FrontSide(settings, item, Front, frontOrder, ""),
                        FrontSide(settings, item, Front, frontOrder, DuplicateClass),
                        FrontSide(settings, item, Front, frontOrder, DuplicateOverlayClass),
                        FrontSide(settings, item, Back, backOrder, ""));
    }

    /** `render_sides_content`: the side wrapper around the side's enabled elements, in its order. */
    method RenderSidesContent(side: Side, wrpCls: string)
      modifies page
      ensures page.out == old(page.out) + FrontSide(settings, item, side, if side == Front then frontOrder else backOrder, wrpCls)
    {
      var elementOrder := if side == Front then frontOrder else backOrder;
      ghost var start := page.out;
      page.Echo([Open(Lit("div"), [Attr("class", FrontSideClass(side, wrpCls))])]);
      page.Echo([Div("ufae-flipbox-content-overlay")]);
      page.Echo([Div("ufae-flipbox-content")]);
      ghost var opening := [Open(Lit("div"), [Attr("class", FrontSideClass(side, wrpCls))]),
                            Div("ufae-flipbox-content-overlay"), Div("ufae-flipbox-content")];
      assert page.out == start + opening;
      RenderElements(side, elementOrder);
      ghost var elements := FrontElements(settings, item, side, elementOrder);
      Appended(start, opening, elements);
      page.Echo([EndDiv]);
      page.Echo([EndDiv]);
      page.Echo([EndDiv]);
      Appended(start, opening + elements, [EndDiv, EndDiv, EndDiv]);
    }

    /** The `foreach` of `render_sides_content`: each element of the order that is switched on, rendered in turn. */
    method RenderElements(side: Side, elementOrder: seq<Element>)
      modifies page
      ensures page.out == old(page.out) + FrontElements(settings, item, side, elementOrder)
    {
      ghost var head := page.out;
      for i := 0 to |elementOrder|
        invariant page.out == head + FrontElements(settings, item, side, elementOrder[..i])
      {
        FrontElementsStep(settings, item, side, elementOrder, i);
        var element := elementOrder[i];
        var enableSetting := Get(settings, EnableKey(side, element));
        var elementEnable := if enableSetting.Some? && !IsText(enableSetting, "yes") then false else true;
        assert elementEnable == FrontEnabled(settings, side, element);
        if !elementEnable {
          continue;
        }
        ghost var done := FrontElements(settings, item, side, elementOrder[..i]);
        ghost var added := FrontElement(settings, item, side, element);
        assert page.out == head + done;
        RenderElement(side, element);
        Appended(head, done, added);
      }
      assert elementOrder[..|elementOrder|] == elementOrder;
    }

    /** The `switch` of `render_sides_content`: the element's own renderer. */
    method RenderElement(side: Side, element: Element)
      modifies page
      ensures page.out == old(page.out) + FrontElement(settings, item, side, element)
    {
      match element {
        case Icon => RenderIcon(side);
        case Title => RenderTitle(side);
        case Desc => RenderDesc(side);
        case Button => RenderButton(side);
      }
    }

    /** `render_icon`. */
    method RenderIcon(side: Side)
      modifies page
      ensures page.out == old(page.out) + FrontIcon(item, side)
    {
      var iconTypeSetting := Get(item, SideKey(side, "icon_type"));
      if PhpFilled(iconTypeSetting) {
        if IsText(iconTypeSetting, "icon") {
          page.Echo([Div("ufae-icon-wrapper")]);
          page.Echo([Glyph(Get(item, SideKey(side, "icon")))]);
          page.Echo([EndDiv]);
        } else if IsText(iconTypeSetting, "image") && PhpFilled(Member(Get(item, SideKey(side, "icon_image")), "url")) {
          page.Echo([Div("ufae-icon-wrapper")]);
          page.Echo([Void("img", [Attr("src", [Val(EscapeUrl, PhpText(Member(Get(item, SideKey(side, "icon_image")), "url")))]),
                                  Attr("alt", [Val(EscapeAttr, PhpText(Get(item, SideKey(side, "title"))))])])]);
          page.Echo([EndDiv]);
        } else if IsText(iconTypeSetting, "text") {
          page.Echo([Div("ufae-icon-wrapper")]);
          page.Echo([Open(Lit("span"), []), Text(Val(EscapeHtml, PhpText(Get(item, SideKey(side, "icon_text"))))), Close(Lit("span"))]);
          page.Echo([EndDiv]);
        }
      }
    }

    /** `render_title`. */
    method RenderTitle(side: Side)
      modifies page
      ensures page.out == old(page.out) + FrontTitle(settings, item, side)
    {
      var title := Get(item, SideKey(side, "title"));
      if PhpFilled(title) {
        var tagSetting := Get(settings, "ufae_title_tag");
        var titleTag := if PhpFilled(tagSetting) then PhpText(tagSetting) else "h3";
        page.Echo([Open(Val(EscapeHtml, titleTag), [Attr("class", [Lit("ufae-title")])]),
                   Text(Val(EscapeHtml, PhpText(title))), Close(Val(EscapeHtml, titleTag))]);
      }
    }

    /** `render_desc`. */
    method RenderDesc(side: Side)
      modifies page
      ensures page.out == old(page.out) + FrontDesc(item, side)
    {
      var description := Get(item, SideKey(side, "description"));
      if PhpFilled(description) {
        page.Echo([Open(Lit("p"), [Attr("class", [Lit("ufae-desc")])]),
                   Text(Val(EscapeHtml, PhpText(description))), Close(Lit("p"))]);
      }
    }

    /** The anchor's attributes, as `render_button` assembles them from the link setting. */
    static method AnchorAttributes(btnUrlSetting: Option<Value>, btnUrl: Option<Value>) returns (attrs: seq<Attr>)
      ensures attrs == AnchorAttrs(btnUrlSetting, btnUrl)
    {
      var blankAttr := if IsText(Member(btnUrlSetting, "is_external"), "on") then "_blank" else "_self";
      var nofollowAttr := if IsText(Member(btnUrlSetting, "nofollow"), "on") then "nofollow" else "";
      var customSetting := Member(btnUrlSetting, "custom_attributes");
      var customAttr: seq<Attr> := [];
      if customSetting.Some? && customSetting.value.Str? && PhpFilled(customSetting) {
        var parts := Split(customSetting.value.s, '|');
        if |parts| > 1 {
          customAttr := [Verbatim([Val(EscapeHtml, LTrim(parts[0])), Lit("=\""), Val(EscapeAttr, parts[1]), Lit("\"")])];
        }
      }
      attrs := [Attr("href", [Val(EscapeUrl, PhpText(btnUrl))]), Attr("class", [Lit("ufae-button")]),
                Attr("target", [Val(EscapeAttr, blankAttr)]), Attr("rel", [Val(EscapeAttr, nofollowAttr)])] + customAttr;
    }

    /** `render_button`. */
    method RenderButton(side: Side)
      modifies page
      ensures page.out == old(page.out) + FrontButton(item, side)
    {
      var enableSetting := Get(item, SideKey(side, "button_enable"));
      var buttonEnable := if enableSetting.Some? then EscHtml(PhpText(enableSetting)) else "no";
      var btnText := Get(item, SideKey(side, "button_text"));
      if PhpFilled(btnText) && buttonEnable == "yes" {
        var urlSetting := Get(item, SideKey(side, "button_url"));
        var btnUrlSetting := if PhpFilled(urlSetting) then urlSetting else None;
        var btnUrl := Member(btnUrlSetting, "url");
        var text := Text(Val(EscapeHtml, PhpText(btnText)));
        ghost var start := page.out;
        ghost var body: seq<Frag>;
        page.Echo([Div("ufae-btn-wrapper")]);
        if PhpFilled(btnUrl) {
          var attrs := AnchorAttributes(btnUrlSetting, btnUrl);
          body := [Open(Lit("a"), attrs), text, Close(Lit("a"))];
          page.Echo([Open(Lit("a"), attrs), text, Close(Lit("a"))]);
        } else {
          body := [Open(Lit("button"), [Attr("class", [Lit("ufae-button")])]), text, Close(Lit("button"))];
          page.Echo([Open(Lit("button"), [Attr("class", [Lit("ufae-button")])]), text, Close(Lit("button"))]);
        }
        Appended(start, [Div(ElementClass(Button))], body);
        page.Echo([EndDiv]);
        Appended(start, [Div(ElementClass(Button))] + body, [EndDiv]);
      }
    }
  }
}
