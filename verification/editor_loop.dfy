/**
 * The editor's card renderer (`Ufae_Editor_Loop`): the Underscore template
 * logic it emits. For each repeater item it writes the card wrapper, then the
 * front side, the curtain duplicates of the front and the back side; each
 * side resolves its element order afresh from the widget settings and writes
 * the enabled elements in that order. Values are interpolated raw
 * (`{{{ }}}`) except the title text (`{{ }}`).
 *
 * Every method is proved against a specification function of the settings
 * and the item; the lemmas state what those functions produce.
 */
module EditorLoop {
  import opened Strings
  import opened Values
  import opened ElementOrder
  import opened Markup
  import opened Outline
  import opened Blocks

  // ---------------------------------------------------------------------------
  // Element order.

  /** `filter(Boolean)` on strings: drops the empty ones. */
  function JsFilter(xs: seq<string>): (r: seq<string>)
    ensures forall x :: x in r <==> x in xs && x != ""
  {
    if xs == [] then []
    else
      var x := xs[|xs| - 1];
      JsFilter(xs[..|xs| - 1]) + (if x == "" then [] else [x])
  }

  /** The empty string is not a token, so `filter(Boolean)` never changes which tokens are kept. */
  lemma {:induction false} KeepTokensJsFilter(xs: seq<string>)
    ensures KeepTokens(JsFilter(xs)) == KeepTokens(xs)
  {
    if xs != [] {
      var init := xs[..|xs| - 1];
      var x := xs[|xs| - 1];
      assert xs == init + [x];
      KeepTokensJsFilter(init);
      KeepTokensSnoc(init, x);
      if x == "" {
        assert Token(x) == [];
        assert JsFilter(xs) == JsFilter(init);
      } else {
        KeepTokensSnoc(JsFilter(init), x);
      }
    }
  }

  /** The position setting when it is text ('' when it is missing). */
  function EditorPosition(settings: Bag, side: Side): string {
    var v := Get(settings, PositionKey(side));
    if v.Some? && v.value.Str? then v.value.s else ""
  }

  /** `order_settings && order_settings.match( /\b(icon|title|desc|button)\b/ )`. */
  predicate EditorOrderGuard(s: string) {
    s != "" && HasWordToken(s)
  }

  /** The two `_.each` loops on a position string: its listed tokens, then the predefined elements not listed. */
  function EditorResolve(s: string): seq<Element> {
    if EditorOrderGuard(s) then Completed(KeepTokens(Dedup(JsFilter(Split(s, ','))))) else Canonical
  }

  /** The order a side resolves to. */
  function EditorOrder(settings: Bag, side: Side): seq<Element> {
    EditorResolve(EditorPosition(settings, side))
  }

  /** Whether or not the guard passes, the order is the reference resolution of the string. */
  lemma EditorResolveIsCore(s: string)
    ensures EditorResolve(s) == CoreOrder(s)
  {
    if EditorOrderGuard(s) {
      KeepTokensDedup(JsFilter(Split(s, ',')));
      KeepTokensJsFilter(Split(s, ','));
    } else {
      if s == "" {
        ShortHasNoWordToken(s);
      }
      NoWordTokenGivesDefault(s);
    }
  }

  /**
   * The editor resolves the position string as it stands (it is not
   * trimmed) by the reference definition, so every side order is a
   * permutation of the four elements.
   */
  lemma EditorOrderResolves(settings: Bag, side: Side)
    ensures EditorOrder(settings, side) == CoreOrder(EditorPosition(settings, side))
    ensures IsPermutation(EditorOrder(settings, side))
  {
    EditorResolveIsCore(EditorPosition(settings, side));
    CoreOrderIsPermutation(EditorPosition(settings, side));
  }

  /** A side's order depends on its own position setting only. */
  lemma EditorOrderOwnSetting(s1: Bag, s2: Bag, side: Side)
    requires Get(s1, PositionKey(side)) == Get(s2, PositionKey(side))
    ensures EditorOrder(s1, side) == EditorOrder(s2, side)
  {
  }

  // ---------------------------------------------------------------------------
  // Elements of a side.

  /** An element is hidden exactly when its widget-level switch is 'no' or ''. */
  predicate EditorEnabled(settings: Bag, side: Side, e: Element) {
    var v := Get(settings, EnableKey(side, e));
    !(IsText(v, "no") || IsText(v, ""))
  }

  /** The image check: the image setting is truthy and its URL is not exactly ''. */
  predicate EditorImageShown(item: Bag, side: Side) {
    var img := Get(item, SideKey(side, "icon_image"));
    JsTruthy(img) && !IsText(Member(img, "url"), "")
  }

  /** The icon block is written: a known type, and for an image one that passes the image check. */
  predicate EditorIconPresent(item: Bag, side: Side) {
    var t := Get(item, SideKey(side, "icon_type"));
    JsTruthy(t) && (IsText(t, "icon") || (IsText(t, "image") && EditorImageShown(item, side)) || IsText(t, "text"))
  }

  /** `render_icon`'s template. */
  function EditorIcon(item: Bag, side: Side): seq<Frag> {
    var t := Get(item, SideKey(side, "icon_type"));
    if !JsTruthy(t) then []
    else if IsText(t, "icon") then
      [Div(ElementClass(Icon)), Glyph(Get(item, SideKey(side, "icon"))), EndDiv]
    else if IsText(t, "image") && EditorImageShown(item, side) then
      [Div(ElementClass(Icon)),
       Void("img", [Attr("src", [Val(Raw, JsText(Member(Get(item, SideKey(side, "icon_image")), "url")))]),
                    Attr("alt", [Val(Raw, JsText(Get(item, SideKey(side, "title"))))])]),
       EndDiv]
    else if IsText(t, "text") then
      [Div(ElementClass(Icon)), Open(Lit("span"), []),
       Text(Val(Raw, JsText(Get(item, SideKey(side, "icon_text"))))),
       Close(Lit("span")), EndDiv]
    else []
  }

  /** The heading tag: the widget's `ufae_title_tag` when truthy, else `h3`. */
  function EditorTitleTag(settings: Bag): string {
    var t := Get(settings, "ufae_title_tag");
    if JsTruthy(t) then JsText(t) else "h3"
  }

  /** `render_title`'s template: the only one that escapes the text it writes. */
  function EditorTitle(settings: Bag, item: Bag, side: Side): seq<Frag> {
    var title := Get(item, SideKey(side, "title"));
    if JsTruthy(title) then
      var tag := Val(Raw, EditorTitleTag(settings));
      [Open(tag, [Attr("class", [Lit(ElementClass(Title))])]), Text(Val(EscapeTemplate, JsText(title))), Close(tag)]
    else []
  }

  /** `render_desc`'s template. */
  function EditorDesc(item: Bag, side: Side): seq<Frag> {
    var d := Get(item, SideKey(side, "description"));
    if JsTruthy(d) then
      [Open(Lit("p"), [Attr("class", [Lit(ElementClass(Desc))])]), Text(Val(Raw, JsText(d))), Close(Lit("p"))]
    else []
  }

  /** `button_enable`: the item switch when truthy, else 'no'. */
  function EditorButtonEnable(item: Bag, side: Side): Value {
    var v := Get(item, SideKey(side, "button_enable"));
    if JsTruthy(v) then v.value else Str("no")
  }

  /** The button is written: truthy text and the item switch exactly 'yes'. */
  predicate EditorButtonPresent(item: Bag, side: Side) {
    JsTruthy(Get(item, SideKey(side, "button_text"))) && EditorButtonEnable(item, side) == Str("yes")
  }

  /** The item switch turns the button on exactly when it holds the string 'yes', as on the server. */
  lemma EditorButtonEnableYes(item: Bag, side: Side)
    ensures EditorButtonEnable(item, side) == Str("yes") <==> Get(item, SideKey(side, "button_enable")) == Some(Str("yes"))
  {
  }

  /** `btn_url_setting`: the link setting when truthy, else `false`. */
  function EditorUrlSetting(item: Bag, side: Side): Option<Value> {
    var v := Get(item, SideKey(side, "button_url"));
    if JsTruthy(v) then v else None
  }

  /**
   * `custom_attr`: from a non-empty text setting split on '|', the first two
   * parts as `name="value"`, untrimmed, and '' when there are fewer than two
   * parts.
   */
  function EditorCustomAttr(v: Option<Value>): string {
    if JsTruthy(v) && v.value.Str? then
      var parts := Split(v.value.s, '|');
      if |parts| > 1 then parts[0] + "=\"" + parts[1] + "\"" else ""
    else ""
  }

  /** The anchor's attributes. */
  function EditorAnchorAttrs(setting: Option<Value>, url: Option<Value>): seq<Attr> {
    var target := if IsText(Member(setting, "is_external"), "on") then "_blank" else "_self";
    var rel := if IsText(Member(setting, "nofollow"), "on") then "nofollow" else "";
    [Attr("href", [Val(Raw, JsText(url))]), Attr("class", [Lit("ufae-button")]),
     Attr("target", [Val(Raw, target)]), Attr("rel", [Val(Raw, rel)]),
     Verbatim([Val(Raw, EditorCustomAttr(Member(setting, "custom_attributes")))])]
  }

  /** `render_button`'s template. */
  function EditorButton(item: Bag, side: Side): seq<Frag> {
    if EditorButtonPresent(item, side) then
      var text := Text(Val(Raw, JsText(Get(item, SideKey(side, "button_text")))));
      var setting := EditorUrlSetting(item, side);
      var url := Member(setting, "url");
      [Div(ElementClass(Button))] +
      (if JsTruthy(url) then [Open(Lit("a"), EditorAnchorAttrs(setting, url)), text, Close(Lit("a"))]
       else [Open(Lit("button"), [Attr("class", [Lit("ufae-button")])]), text, Close(Lit("button"))]) +
      [EndDiv]
    else []
  }

  /** Whether the element's own template writes anything. */
  predicate EditorPresent(item: Bag, side: Side, e: Element) {
    match e
    case Icon => EditorIconPresent(item, side)
    case Title => JsTruthy(Get(item, SideKey(side, "title")))
    case Desc => JsTruthy(Get(item, SideKey(side, "description")))
    case Button => EditorButtonPresent(item, side)
  }

  function EditorElement(settings: Bag, item: Bag, side: Side, e: Element): seq<Frag> {
    match e
    case Icon => EditorIcon(item, side)
    case Title => EditorTitle(settings, item, side)
    case Desc => EditorDesc(item, side)
    case Button => EditorButton(item, side)
  }

  /** The `_.each` over the order: enabled elements written in turn. */
  function EditorElements(settings: Bag, item: Bag, side: Side, order: seq<Element>): seq<Frag> {
    if order == [] then []
    else
      var e := order[|order| - 1];
      EditorElements(settings, item, side, order[..|order| - 1]) +
      (if EditorEnabled(settings, side, e) then EditorElement(settings, item, side, e) else [])
  }

  lemma EditorElementsStep(settings: Bag, item: Bag, side: Side, order: seq<Element>, i: nat)
    requires i < |order|
    ensures EditorElements(settings, item, side, order[..i + 1]) ==
            EditorElements(settings, item, side, order[..i]) +
            (if EditorEnabled(settings, side, order[i]) then EditorElement(settings, item, side, order[i]) else [])
  {
    assert order[..i + 1][..i] == order[..i];
  }

  /** The elements of `order` that are switched on and have content, in order. */
  function EditorShown(settings: Bag, item: Bag, side: Side, order: seq<Element>): (r: seq<Element>)
    ensures forall e :: e in r <==> e in order && EditorEnabled(settings, side, e) && EditorPresent(item, side, e)
  {
    if order == [] then []
    else
      var e := order[|order| - 1];
      EditorShown(settings, item, side, order[..|order| - 1]) +
      (if EditorEnabled(settings, side, e) && EditorPresent(item, side, e) then [e] else [])
  }

  /** `ufae-flipbox-{{{render_side}}} <wrapper class>`. */
  function EditorSideClass(side: Side, wrp: string): Markup {
    [Lit(SidePrefix), Val(Raw, SideName(side)), Lit(" "), Val(EscapeAttr, wrp)]
  }

  /** `render_sides_content`'s template: the side's wrappers around its elements, in the order it resolves. */
  function EditorSide(settings: Bag, item: Bag, side: Side, wrp: string): seq<Frag> {
    SideWrapped(EditorSideClass(side, wrp), EditorElements(settings, item, side, EditorOrder(settings, side)))
  }

  // ---------------------------------------------------------------------------
  // Cards.

  /** `animation`: the setting when truthy, else 'flip'. */
  function EditorAnimation(settings: Bag): Value {
    var v := Get(settings, "ufae_animation_option");
    if JsTruthy(v) then v.value else Str("flip")
  }

  /** The item wrapper's class. */
  function EditorCardClass(settings: Bag, item: Bag): Markup {
    [Lit(CardPrefix), Val(Raw, JsText(Get(item, "_id"))),
     Val(Raw, if Horizontal(settings) then " swiper-slide" else ""),
     Val(Raw, if BackEnabled(item) then "" else " ufae-flipbox-front_only")]
  }

  /** The opening tag of an item's card wrapper. */
  function EditorCardOpen(settings: Bag, item: Bag): Frag {
    Open(Lit("div"), [Attr("class", EditorCardClass(settings, item))])
  }

  /** The sides inside a card: the front, the two curtain duplicates of the front, and the back. */
  function EditorCardSides(settings: Bag, item: Bag): seq<Frag> {
    PlanSides(EditorAnimation(settings) == Str("curtain"), BackEnabled(item),
              EditorSide(settings, item, Front, ""),
              EditorSide(settings, item, Front, DuplicateClass),
              EditorSide(settings, item, Front, DuplicateOverlayClass),
              EditorSide(settings, item, Back, ""))
  }

  /** One pass of the `_.each` over the items: the card's wrappers around its sides. */
  function EditorCard(settings: Bag, item: Bag): seq<Frag> {
    CardWrapped(EditorCardOpen(settings, item), EditorCardSides(settings, item))
  }

  /** One card per item, in list order. */
  function EditorCards(settings: Bag, items: seq<Value>): seq<Frag> {
    if items == [] then []
    else EditorCards(settings, items[..|items| - 1]) + EditorCard(settings, AsBag(items[|items| - 1]))
  }

  // ---------------------------------------------------------------------------
  // The renderer object.

  class EditorLoop {
    const settings: Bag
    const page: Page
    /** The item the `_.each` over the list is at. */
    var item: Bag

    constructor(settings: Bag, page: Page)
      ensures this.settings == settings && this.page == page && item == map[]
    {
      this.settings := settings;
      this.page := page;
      item := map[];
    }

    /**
     * `flipbox_items`: when `ufae_lists` is a non-empty list, one card per
     * item in list order. `horizontal_layout` and `animation` are the
     * variables the container template defines before it.
     */
    method FlipboxItems(horizontalLayout: bool, animation: Value)
      requires horizontalLayout == Horizontal(settings) && animation == EditorAnimation(settings)
      modifies this, page
      ensures page.out == old(page.out) + EditorCards(settings, ListItems(settings))
    {
      var listItems := Get(settings, "ufae_lists");
      var horizontalItemClass := if horizontalLayout then " swiper-slide" else "";
      if listItems.Some? && listItems.value.List? && |listItems.value.elems| > 0 {
        RenderCards(listItems.value.elems, horizontalItemClass, animation);
      }
    }

    /** The `_.each` over the list. */
    method RenderCards(items: seq<Value>, horizontalItemClass: string, animation: Value)
      requires horizontalItemClass == (if Horizontal(settings) then " swiper-slide" else "")
      requires animation == EditorAnimation(settings)
      modifies this, page
      ensures page.out == old(page.out) + EditorCards(settings, items)
    {
      ghost var start := page.out;
      for i := 0 to |items|
        invariant page.out == start + EditorCards(settings, items[..i])
      {
        assert items[..i + 1][..i] == items[..i];
        ghost var done := EditorCards(settings, items[..i]);
        item := AsBag(items[i]);
        RenderCard(horizontalItemClass, animation);
        Appended(start, done, EditorCard(settings, item));
      }
      assert items[..|items|] == items;
    }

    /** The body of the `_.each` over the items, for the current item. */
    method RenderCard(horizontalItemClass: string, animation: Value)
      requires horizontalItemClass == (if Horizontal(settings) then " swiper-slide" else "")
      requires animation == EditorAnimation(settings)
      modifies page
      ensures page.out == old(page.out) + EditorCard(settings, item)
    {
      var backEnabled := JsTruthy(Get(item, "ufae_back_enable")) && IsText(Get(item, "ufae_back_enable"), "yes");
      var backDisableCls := if backEnabled then "" else " ufae-flipbox-front_only";
      ghost var start := page.out;
      ghost var opening := CardHead(EditorCardOpen(settings, item));
      page.Echo([Open(Lit("div"), [Attr("class", [Lit(CardPrefix), Val(Raw, JsText(Get(item, "_id"))),
                                                  Val(Raw, horizontalItemClass), Val(Raw, backDisableCls)])]),
                 Div("ufae-flipbox-inner"), Div("ufae-flipbox-inner-overlay")]);
      assert page.out == start + opening;
      RenderCardSides(animation == Str("curtain"), backEnabled);
      ghost var sides := EditorCardSides(settings, item);
      Appended(start, opening, sides);
      page.Echo([EndDiv, EndDiv, EndDiv]);
      Appended(start, opening + sides, [EndDiv, EndDiv, EndDiv]);
    }

    /** The side calls inside a card: the front, the curtain duplicates, the back. */
    method RenderCardSides(curtain: bool, backEnabled: bool)
      requires curtain == (EditorAnimation(settings) == Str("curtain")) && backEnabled == BackEnabled(item)
      modifies page
      ensures page.out == old(page.out) + EditorCardSides(settings, item)
    {
      ghost var start := page.out;
      RenderSidesContent(Front, "");
      ghost var afterFront := page.out;
      if curtain && backEnabled {
        RenderSidesContent(Front, DuplicateClass);
        RenderSidesContent(Front, DuplicateOverlayClass);
      }
      ghost var afterCurtain := page.out;
      if backEnabled {
        RenderSidesContent(Back, "");
      }
      PlanSidesAppended(start, afterFront, afterCurtain, page.out, curtain, backEnabled,
                        EditorSide(settings, item, Front, ""),
                        EditorSide(settings, item, Front, DuplicateClass),
                        EditorSide(settings, item, Front, DuplicateOverlayClass),
                        EditorSide(settings, item, Back, ""));
    }

    /** The order resolution at the head of `render_sides_content`. */
    method ElementOrderOf(side: Side) returns (elementOrder: seq<Element>)
      ensures elementOrder == EditorOrder(settings, side)
    {
      var orderSettings := Get(settings, PositionKey(side));
      elementOrder := [];
      if JsTruthy(orderSettings) && orderSettings.value.Str? && HasWordToken(orderSettings.value.s) {
        var elementNames := Dedup(JsFilter(Split(orderSettings.value.s, ',')));
        elementOrder := KnownElements(elementNames);
      }
      assert elementOrder == if EditorOrderGuard(EditorPosition(settings, side))
                             then KeepTokens(Dedup(JsFilter(Split(EditorPosition(settings, side), ',')))) else [];
      elementOrder := PushMissing(elementOrder);
      MissingFromNothing(Canonical);
    }

    /** The `_.each` over the predefined order: each element not yet listed is pushed. */
    static method PushMissing(listed: seq<Element>) returns (elementOrder: seq<Element>)
      ensures elementOrder == Completed(listed)
    {
      var predefinedOrder := Canonical;
      elementOrder := listed;
      for j := 0 to 4
        invariant elementOrder == listed + MissingFrom(listed, predefinedOrder[..j])
      {
        MissingStep(listed, j);
        var element := predefinedOrder[j];
        if element !in elementOrder {
          elementOrder := elementOrder + [element];
        }
      }
      assert predefinedOrder[..4] == predefinedOrder;
    }

    /** `render_sides_content`'s template: the side wrapper around the side's enabled elements, in its order. */
    method RenderSidesContent(side: Side, wrpCls: string)
      modifies page
      ensures page.out == old(page.out) + EditorSide(settings, item, side, wrpCls)
    {
      var elementOrder := ElementOrderOf(side);
      ghost var start := page.out;
      ghost var opening := SideHead(EditorSideClass(side, wrpCls));
      page.Echo([Open(Lit("div"), [Attr("class", [Lit(SidePrefix), Val(Raw, SideName(side)), Lit(" "), Val(EscapeAttr, wrpCls)])]),
                 Div("ufae-flipbox-content-overlay"), Div("ufae-flipbox-content")]);
      assert page.out == start + opening;
      RenderElements(side, elementOrder);
      ghost var elements := EditorElements(settings, item, side, elementOrder);
      Appended(start, opening, elements);
      page.Echo([EndDiv, EndDiv, EndDiv]);
      Appended(start, opening + elements, [EndDiv, EndDiv, EndDiv]);
    }

    /** The `_.each` over the order: each element that is not switched off, written in turn. */
    method RenderElements(side: Side, elementOrder: seq<Element>)
      modifies page
      ensures page.out == old(page.out) + EditorElements(settings, item, side, elementOrder)
    {
      ghost var head := page.out;
      for i := 0 to |elementOrder|
        invariant page.out == head + EditorElements(settings, item, side, elementOrder[..i])
      {
        EditorElementsStep(settings, item, side, elementOrder, i);
        var element := elementOrder[i];
        var enableSetting := Get(settings, EnableKey(side, element));
        var elementEnable := if IsText(enableSetting, "no") || IsText(enableSetting, "") then false else true;
        if !elementEnable {
          continue;
        }
        ghost var done := EditorElements(settings, item, side, elementOrder[..i]);
        RenderElement(side, element);
        Appended(head, done, EditorElement(settings, item, side, element));
      }
      assert elementOrder[..|elementOrder|] == elementOrder;
    }

    /** The `switch` over the element. */
    method RenderElement(side: Side, element: Element)
      modifies page
      ensures page.out == old(page.out) + EditorElement(settings, item, side, element)
    {
      match element {
        case Icon => RenderIcon(side);
        case Title => RenderTitle(side);
        case Desc => RenderDesc(side);
        case Button => RenderButton(side);
      }
    }

    /** `render_icon`'s template. */
    method RenderIcon(side: Side)
      modifies page
      ensures page.out == old(page.out) + EditorIcon(item, side)
    {
      var typeSetting := Get(item, SideKey(side, "icon_type"));
      var iconType := if JsTruthy(typeSetting) && !IsText(typeSetting, "") then typeSetting else None;
      if JsTruthy(iconType) {
        var image := Get(item, SideKey(side, "icon_image"));
        if IsText(iconType, "icon") {
          page.Echo([Div("ufae-icon-wrapper"), Glyph(Get(item, SideKey(side, "icon"))), EndDiv]);
        } else if IsText(iconType, "image") && JsTruthy(image) && !IsText(Member(image, "url"), "") {
          page.Echo([Div("ufae-icon-wrapper"),
                     Void("img", [Attr("src", [Val(Raw, JsText(Member(image, "url")))]),
                                  Attr("alt", [Val(Raw, JsText(Get(item, SideKey(side, "title"))))])]),
                     EndDiv]);
        } else if IsText(iconType, "text") {
          page.Echo([Div("ufae-icon-wrapper"), Open(Lit("span"), []),
                     Text(Val(Raw, JsText(Get(item, SideKey(side, "icon_text"))))), Close(Lit("span")), EndDiv]);
        }
      }
    }

    /** `render_title`'s template. */
    method RenderTitle(side: Side)
      modifies page
      ensures page.out == old(page.out) + EditorTitle(settings, item, side)
    {
      var titleSetting := Get(item, SideKey(side, "title"));
      var title := if JsTruthy(titleSetting) && !IsText(titleSetting, "") then titleSetting else None;
      if JsTruthy(title) {
        var tagSetting := Get(settings, "ufae_title_tag");
        var titleTag := if JsTruthy(tagSetting) && !IsText(tagSetting, "") then JsText(tagSetting) else "h3";
        page.Echo([Open(Val(Raw, titleTag), [Attr("class", [Lit("ufae-title")])]),
                   Text(Val(EscapeTemplate, JsText(title))), Close(Val(Raw, titleTag))]);
      }
    }

    /** `render_desc`'s template. */
    method RenderDesc(side: Side)
      modifies page
      ensures page.out == old(page.out) + EditorDesc(item, side)
    {
      var descSetting := Get(item, SideKey(side, "description"));
      var description := if JsTruthy(descSetting) && !IsText(descSetting, "") then descSetting else None;
      if JsTruthy(description) {
        page.Echo([Open(Lit("p"), [Attr("class", [Lit("ufae-desc")])]), Text(Val(Raw, JsText(description))), Close(Lit("p"))]);
      }
    }

    /** The `custom_attr` reassignments of `render_button`'s template. */
    static method CustomAttr(setting: Option<Value>) returns (customAttr: string)
      ensures customAttr == EditorCustomAttr(setting)
    {
      var parts: seq<string> := [];
      if JsTruthy(setting) && !IsText(setting, "") && setting.value.Str? {
        parts := Split(setting.value.s, '|');
      }
      customAttr := if |parts| > 1 then parts[0] + "=\"" + parts[1] + "\"" else "";
    }

    /** `render_button`'s template. */
    method RenderButton(side: Side)
      modifies page
      ensures page.out == old(page.out) + EditorButton(item, side)
    {
      var enableSetting := Get(item, SideKey(side, "button_enable"));
      var buttonEnable := if JsTruthy(enableSetting) then enableSetting.value else Str("no");
      var textSetting := Get(item, SideKey(side, "button_text"));
      var btnText := if JsTruthy(textSetting) && !IsText(textSetting, "") then textSetting else None;
      if JsTruthy(btnText) && buttonEnable == Str("yes") {
        var urlSetting := Get(item, SideKey(side, "button_url"));
        var btnUrlSetting := if JsTruthy(urlSetting) && !IsText(urlSetting, "") then urlSetting else None;
        var urlMember := Member(btnUrlSetting, "url");
        var btnUrl := if JsTruthy(urlMember) && !IsText(urlMember, "") then urlMember else None;
        var text := Text(Val(Raw, JsText(btnText)));
        var body: seq<Frag>;
        if JsTruthy(btnUrl) {
          var blankAttr := if IsText(Member(btnUrlSetting, "is_external"), "on") then "_blank" else "_self";
          var nofollowAttr := if IsText(Member(btnUrlSetting, "nofollow"), "on") then "nofollow" else "";
          var customAttr := CustomAttr(Member(btnUrlSetting, "custom_attributes"));
          body := [Open(Lit("a"), [Attr("href", [Val(Raw, JsText(btnUrl))]), Attr("class", [Lit("ufae-button")]),
                                   Attr("target", [Val(Raw, blankAttr)]), Attr("rel", [Val(Raw, nofollowAttr)]),
                                   Verbatim([Val(Raw, customAttr)])]),
                   text, Close(Lit("a"))];
        } else {
          body := [Open(Lit("button"), [Attr("class", [Lit("ufae-button")])]), text, Close(Lit("button"))];
        }
        page.Echo([Div("ufae-btn-wrapper")] + body + [EndDiv]);
      }
    }
  }
}
